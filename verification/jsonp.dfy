/** Removing the `callback(…)` wrapper of a JSONP reply (GetSongList.py,
    get_song_list): `re.search(r"^\w+\((.*)\)$", text)` and its first
    group. Without flags `^` anchors at the start only, `.` does not match a
    newline and `$` matches at the end or just before one final newline. */
module Jsonp {

  /** Characters of `\w`, restricted to ASCII. */
  predicate IsWordChar(c: char) {
    ('a' <= c <= 'z') || ('A' <= c <= 'Z') || ('0' <= c <= '9') || c == '_'
  }

  predicate IsCallbackName(name: string) {
    |name| > 0 && forall i :: 0 <= i < |name| ==> IsWordChar(name[i])
  }

  predicate NoNewline(s: string) {
    forall i :: 0 <= i < |s| ==> s[i] != '\n'
  }

  /** `text` is `name(inner)` followed by nothing or one newline, in the
      shape the pattern accepts. */
  predicate IsEnvelope(text: string, name: string, inner: string, tail: string) {
    && IsCallbackName(name)
    && NoNewline(inner)
    && (tail == "" || tail == "\n")
    && text == name + "(" + inner + ")" + tail
  }

  /** Length of the longest run of word characters at the start of `s`. */
  function WordRun(s: string): (k: nat)
    ensures k <= |s|
    ensures forall i :: 0 <= i < k ==> IsWordChar(s[i])
    ensures k < |s| ==> !IsWordChar(s[k])
  {
    if s == [] || !IsWordChar(s[0]) then 0 else 1 + WordRun(s[1..])
  }

  /** Where `$` can match: before a final newline, otherwise at the end. */
  function MatchEnd(text: string): nat {
    if |text| > 0 && text[|text| - 1] == '\n' then |text| - 1 else |text|
  }

  /** The group of a match, or the text itself when the pattern does not
      match. `\w+` must stop at the `(`, which is not a word character, and
      the greedy `.*` runs to the last `)` the anchor allows. */
  function Unwrap(text: string): (r: string)
    ensures |r| <= |text|
    ensures r != text ==> IsEnvelope(text, text[..WordRun(text)], r, text[MatchEnd(text)..])
  {
    var w := WordRun(text);
    var end := MatchEnd(text);
    if 0 < w < end && text[w] == '(' && text[end - 1] == ')' && NoNewline(text[w + 1..end - 1])
    then
      var inner := text[w + 1..end - 1];
      assert text == text[..w] + "(" + inner + ")" + text[end..];
      inner
    else text
  }

  lemma WordRunOfName(name: string, rest: string)
    requires IsCallbackName(name) && |rest| > 0 && !IsWordChar(rest[0])
    ensures WordRun(name + rest) == |name|
  {
    var s := name + rest;
    assert s[|name|] == rest[0];
    assert forall i :: 0 <= i < |name| ==> s[i] == name[i];
  }

  /** The match case of `Unwrap`, for a text whose word run and anchor end are known. */
  lemma UnwrapMatch(text: string, w: nat, end: nat)
    requires w == WordRun(text) && end == MatchEnd(text)
    requires 0 < w && w + 1 < end && text[w] == '(' && text[end - 1] == ')'
    requires NoNewline(text[w + 1..end - 1])
    ensures Unwrap(text) == text[w + 1..end - 1]
  {
  }

  /** On a wrapped reply the unwrap returns the wrapped text, and wrapping
      it again gives back the reply. */
  lemma UnwrapEnvelope(text: string, name: string, inner: string, tail: string)
    requires IsEnvelope(text, name, inner, tail)
    ensures Unwrap(text) == inner
    ensures name + "(" + Unwrap(text) + ")" + tail == text
  {
    var head := name + "(";
    var body := head + inner;
    var closed := body + ")";
    assert text == closed + tail;
    assert text[..|closed|] == closed;
    assert closed[..|body|] == body;
    assert body[|head|..] == inner;
    assert text[|head|..|body|] == inner;
    assert text[|name|] == '(' && text[|body|] == ')';
    WordRunOfName(name, text[|name|..]);
    assert text == name + text[|name|..];
    assert MatchEnd(text) == |body| + 1 by {
      if tail == "" {
        assert text == closed;
      } else {
        assert text[|text| - 1] == '\n';
      }
    }
    UnwrapMatch(text, |name|, |body| + 1);
  }

  /** Text the pattern does not match passes through unchanged. */
  lemma UnwrapPassThrough(text: string)
    requires forall name, inner, tail :: !IsEnvelope(text, name, inner, tail)
    ensures Unwrap(text) == text
  {
  }

  /** A reply has at most one way to be read as a wrapped one. */
  lemma EnvelopeUnique(text: string, n1: string, i1: string, t1: string, n2: string, i2: string, t2: string)
    requires IsEnvelope(text, n1, i1, t1) && IsEnvelope(text, n2, i2, t2)
    ensures n1 == n2 && i1 == i2 && t1 == t2
  {
    UnwrapEnvelope(text, n1, i1, t1);
    UnwrapEnvelope(text, n2, i2, t2);
    assert |t1| == |t2|;
    assert t1 == text[|text| - |t1|..];
    assert t2 == text[|text| - |t2|..];
    assert n1 == text[..|n1|];
    assert n2 == text[..|n2|];
  }

  /** Only one layer is removed: in `f(g(x))` the group runs to the last
      `)`, so the result is `g(x)`. */
  lemma {:induction false} UnwrapOneLayer(outer: string, inner: string, x: string)
    requires IsCallbackName(outer) && IsCallbackName(inner) && NoNewline(x)
    ensures Unwrap(outer + "(" + inner + "(" + x + "))") == inner + "(" + x + ")"
  {
    var wrapped := inner + "(" + x + ")";
    assert NoNewline(wrapped) by {
      forall i | 0 <= i < |wrapped| ensures wrapped[i] != '\n' {
        if i < |inner| {
          assert wrapped[i] == inner[i];
        } else if |inner| < i < |inner| + 1 + |x| {
          assert wrapped[i] == x[i - |inner| - 1];
        }
      }
    }
    assert outer + "(" + inner + "(" + x + "))" == outer + "(" + wrapped + ")" + "";
    UnwrapEnvelope(outer + "(" + inner + "(" + x + "))", outer, wrapped, "");
  }
}
