/** How a track's file names are derived from its resolved title and artist
    (DownloadMusic.py, download_music): `"{songname} - {artist}"`, stripped
    of illegal characters, joined to the music directory, with an `.mp3`
    variant as the transcode target. */
module FileNames {
  import opened Json
  import opened Seqs

  /** The characters `re.sub(r'[\/:*?"<>|]', "", …)` deletes. Inside that
      character class `\/` is an escaped slash, so a backslash is not one of
      them and survives sanitisation. */
  predicate IsIllegal(c: char) {
    c == '/' || c == ':' || c == '*' || c == '?' || c == '"' || c == '<' || c == '>' || c == '|'
  }

  predicate AllLegal(s: string) {
    forall i :: 0 <= i < |s| ==> !IsIllegal(s[i])
  }

  /** Deletes every illegal character, keeping all others in order. */
  function Sanitize(s: string): (r: string)
    ensures AllLegal(r)
    ensures |r| <= |s|
  {
    if s == [] then []
    else if IsIllegal(s[0]) then Sanitize(s[1..])
    else [s[0]] + Sanitize(s[1..])
  }

  /** Sanitisation commutes with concatenation: it works character by character. */
  lemma {:induction false} SanitizeConcat(a: string, b: string)
    ensures Sanitize(a + b) == Sanitize(a) + Sanitize(b)
    decreases |a|
  {
    if a == [] {
      assert a + b == b;
    } else {
      assert (a + b)[0] == a[0];
      assert (a + b)[1..] == a[1..] + b;
      SanitizeConcat(a[1..], b);
    }
  }

  /** Exactly the illegal characters go: every other character keeps its
      number of occurrences, every illegal one has none left. */
  lemma {:induction false} SanitizeCounts(s: string)
    ensures forall c :: multiset(Sanitize(s))[c] == if IsIllegal(c) then 0 else multiset(s)[c]
  {
    if s != [] {
      SanitizeCounts(s[1..]);
      assert s == [s[0]] + s[1..];
      assert multiset(s) == multiset([s[0]]) + multiset(s[1..]);
    }
  }

  /** The result is the input with some characters deleted, order kept. */
  lemma {:induction false} SanitizeSubsequence(s: string)
    ensures IsSubsequence(Sanitize(s), s)
  {
    if s != [] {
      SanitizeSubsequence(s[1..]);
      if !IsIllegal(s[0]) {
        var r := Sanitize(s);
        assert r[0] == s[0] && r[1..] == Sanitize(s[1..]);
      }
    }
  }

  /** A string without illegal characters is left unchanged. */
  lemma {:induction false} SanitizeKeepsLegal(s: string)
    requires AllLegal(s)
    ensures Sanitize(s) == s
  {
    if s != [] {
      assert AllLegal(s[1..]) by {
        forall i | 0 <= i < |s[1..]| ensures !IsIllegal(s[1..][i]) {
          assert s[1..][i] == s[i + 1];
        }
      }
      SanitizeKeepsLegal(s[1..]);
    }
  }

  /** Sanitising twice is the same as sanitising once. */
  lemma {:induction false} SanitizeIdempotent(s: string)
    ensures Sanitize(Sanitize(s)) == Sanitize(s)
  {
    SanitizeKeepsLegal(Sanitize(s));
  }

  /** An illegal character anywhere makes the result strictly shorter. */
  lemma {:induction false} SanitizeShrinks(s: string, i: nat)
    requires i < |s| && IsIllegal(s[i])
    ensures |Sanitize(s)| < |s|
  {
    if i > 0 {
      SanitizeShrinks(s[1..], i - 1);
    }
  }

  /** The length is unchanged exactly when the input has no illegal character. */
  lemma {:induction false} SanitizeLengthKept(s: string)
    ensures |Sanitize(s)| == |s| <==> AllLegal(s)
  {
    if AllLegal(s) {
      SanitizeKeepsLegal(s);
    } else {
      var i :| 0 <= i < |s| && IsIllegal(s[i]);
      SanitizeShrinks(s, i);
    }
  }

  const Separator: string := " - "

  /** The file name for a track: title and artist joined by " - ", then
      sanitised. Equivalently each part is sanitised on its own, since the
      separator has no illegal character. */
  function BaseName(song: string, artist: string): (r: string)
    ensures r == Sanitize(song) + Separator + Sanitize(artist)
  {
    SanitizeConcat(song + Separator, artist);
    SanitizeConcat(song, Separator);
    SanitizeKeepsLegal(Separator);
    Sanitize(song + Separator + artist)
  }

  /** What `os.path.join(a, b)` puts in front of a relative `b`. */
  function DirPrefix(dir: string): string {
    if dir == [] || dir[|dir| - 1] == '/' then dir else dir + "/"
  }

  /** POSIX `os.path.join(a, b)`: an absolute `b` replaces `a`; otherwise a
      separator is inserted unless `a` is empty or already ends with one. */
  function Join(a: string, b: string): (r: string)
    ensures |b| > 0 && b[0] == '/' ==> r == b
    ensures (|b| == 0 || b[0] != '/') ==>
      && |a| + |b| <= |r| <= |a| + |b| + 1
      && r[..|a|] == a
      && r[|r| - |b|..] == b
      && (|r| > |a| + |b| ==> r[|a|] == '/')
      && (a != [] ==> r[|r| - |b| - 1] == '/')
      && (|r| == |a| + |b| + 1 <==> (a != [] && a[|a| - 1] != '/'))
  {
    if |b| > 0 && b[0] == '/' then b
    else if a == [] || a[|a| - 1] == '/' then a + b
    else a + "/" + b
  }

  /** Appending a suffix to the joined name or joining the suffixed name
      give the same path, whatever the arguments. */
  lemma {:induction false} JoinSuffix(a: string, b: string, suffix: string)
    requires |suffix| > 0 && suffix[0] != '/'
    ensures Join(a, b + suffix) == Join(a, b) + suffix
  {
    var bs := b + suffix;
    assert |bs| > 0;
    if |b| > 0 {
      assert bs[0] == b[0];
      if b[0] != '/' {
        assert Join(a, bs) == DirPrefix(a) + bs;
        assert Join(a, b) == DirPrefix(a) + b;
        assert DirPrefix(a) + bs == (DirPrefix(a) + b) + suffix;
      }
    } else {
      assert bs == suffix;
      assert Join(a, bs) == DirPrefix(a) + suffix;
      assert Join(a, b) == DirPrefix(a);
    }
  }

  /** The names `download_music` uses for one track: the sanitised base
      name, the download path and the transcode target path. */
  datatype Names = Names(name: string, musicPath: string, mp3Path: string)

  const Mp3Suffix: string := ".mp3"

  function NamesFor(dir: string, songname: Json, artist: Json): (r: Names)
    ensures r.name == Sanitize(Str(songname)) + Separator + Sanitize(Str(artist))
    ensures AllLegal(r.name) && |r.name| >= |Separator|
    ensures r.musicPath == DirPrefix(dir) + r.name
    ensures r.mp3Path == r.musicPath + Mp3Suffix
  {
    var name := BaseName(Str(songname), Str(artist));
    assert |name| > 0 && name[0] != '/' by {
      assert name == Sanitize(Str(songname)) + Separator + Sanitize(Str(artist));
      if |Sanitize(Str(songname))| > 0 {
        assert name[0] == Sanitize(Str(songname))[0];
      } else {
        assert name[0] == ' ';
      }
    }
    JoinSuffix(dir, name, Mp3Suffix);
    Names(name, Join(dir, name), Join(dir, name + Mp3Suffix))
  }
}
