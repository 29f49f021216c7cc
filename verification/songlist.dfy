/** Turning the playlist service's reply into the track list
    (GetSongList.py, get_song_list): unwrap the JSONP envelope, decode, and
    either return the document as is or project
    `cdlist[0].songlist[*]` onto `{songname, songmid}`. */
module SongList {
  import opened Wrappers
  import opened Json
  import Jsonp

  /** Why `get_song_list` raised. */
  datatype ListError =
    | ParseFailed           // `json.loads` failed (re-raised as ValueError)
    | Crashed(error: PyError) // the document had an unexpected shape

  predicate HasBothKeys(song: Json) {
    song.JObj? && "songname" in song.fields && "songmid" in song.fields
  }

  /** `{"songname": song["songname"], "songmid": song["songmid"]}`. */
  function Simplify(song: Json): (r: Json)
    requires HasBothKeys(song)
    ensures r.JObj? && r.fields.Keys == {"songname", "songmid"}
    ensures r.fields["songname"] == song.fields["songname"]
    ensures r.fields["songmid"] == song.fields["songmid"]
  {
    JObj(map["songname" := song.fields["songname"], "songmid" := song.fields["songmid"]])
  }

  /** The exception `song["songname"]` / `song["songmid"]` raises on an
      entry lacking a key: subscripting a non-dict by a string is a
      TypeError, a missing key a KeyError, `songname` being read first. */
  function EntryError(song: Json): PyError
    requires !HasBothKeys(song)
  {
    if !song.JObj? then TypeError
    else if "songname" !in song.fields then KeyError(JStr("songname"))
    else KeyError(JStr("songmid"))
  }

  /** The list comprehension over the song entries. */
  function ProjectSongs(songs: seq<Json>): (r: Result<seq<Json>, PyError>)
    ensures r.Success? <==> forall i :: 0 <= i < |songs| ==> HasBothKeys(songs[i])
    ensures r.Success? ==> |r.value| == |songs|
    ensures r.Success? ==> forall i :: 0 <= i < |songs| ==> r.value[i] == Simplify(songs[i])
  {
    if songs == [] then Success([])
    else if !HasBothKeys(songs[0]) then Failure(EntryError(songs[0]))
    else match ProjectSongs(songs[1..])
      case Failure(e) => Failure(e)
      case Success(rest) => Success([Simplify(songs[0])] + rest)
  }

  /** The first entry lacking a key decides the exception. */
  lemma {:induction false} ProjectSongsFirstBad(songs: seq<Json>, i: nat)
    requires i < |songs| && !HasBothKeys(songs[i])
    requires forall j :: 0 <= j < i ==> HasBothKeys(songs[j])
    ensures ProjectSongs(songs) == Failure(EntryError(songs[i]))
  {
    if i > 0 {
      assert forall j :: 0 <= j < i - 1 ==> songs[1..][j] == songs[j + 1];
      ProjectSongsFirstBad(songs[1..], i - 1);
    }
  }

  /** `x[0]`: the first element of a non-empty list, the first character of
      a non-empty string; a dict has no key 0; other values are not
      subscriptable. */
  function First(v: Json): (r: Result<Json, PyError>)
    ensures v.JArr? && |v.items| > 0 ==> r == Success(v.items[0])
    ensures v.JArr? && |v.items| == 0 ==> r == Failure(IndexError)
  {
    match v
    case JArr(items) => if |items| == 0 then Failure(IndexError) else Success(items[0])
    case JStr(s) => if |s| == 0 then Failure(IndexError) else Success(JStr([s[0]]))
    case JObj(_) => Failure(KeyError(JNum(0)))
    case _ => Failure(TypeError)
  }

  /** The comprehension `for song in song_list`: a string or dict yields
      strings, which cannot be subscripted by a string, unless there are
      none; numbers, booleans and `None` are not iterable. */
  function ProjectSongList(songList: Json): (r: Result<seq<Json>, PyError>)
    ensures songList.JArr? ==> r == ProjectSongs(songList.items)
    ensures !songList.JArr? && r.Success? ==> r.value == [] && !Truthy(songList)
  {
    match songList
    case JArr(items) => ProjectSongs(items)
    case JStr(s) => if s == "" then Success([]) else Failure(TypeError)
    case JObj(fields) => if fields == map[] then Success([]) else Failure(TypeError)
    case _ => Failure(TypeError)
  }

  /** `data.get("cdlist", [])[0].get("songlist", [])`, then the projection. */
  function Project(doc: Json): (r: Result<seq<Json>, PyError>)
    ensures !doc.JObj? ==> r == Failure(AttributeError)
    ensures doc.JObj? && ("cdlist" !in doc.fields || doc.fields["cdlist"] == JArr([])) ==>
      r == Failure(IndexError)
    ensures doc.JObj? && "cdlist" in doc.fields && !doc.fields["cdlist"].JArr? ==> r.Failure?
    ensures doc.JObj? && "cdlist" in doc.fields && doc.fields["cdlist"].JArr? && |doc.fields["cdlist"].items| > 0 ==>
      var cd := doc.fields["cdlist"].items[0];
      && (!cd.JObj? ==> r == Failure(AttributeError))
      && (cd.JObj? && "songlist" !in cd.fields ==> r == Success([]))
    ensures (doc.JObj? && "cdlist" in doc.fields && doc.fields["cdlist"].JArr? &&
             |doc.fields["cdlist"].items| > 0 && doc.fields["cdlist"].items[0].JObj? &&
             "songlist" in doc.fields["cdlist"].items[0].fields &&
             doc.fields["cdlist"].items[0].fields["songlist"].JArr?) ==>
      && (r.Success? <==> forall i :: 0 <= i < |doc.fields["cdlist"].items[0].fields["songlist"].items| ==>
                            HasBothKeys(doc.fields["cdlist"].items[0].fields["songlist"].items[i]))
      && (r.Success? ==>
            && |r.value| == |doc.fields["cdlist"].items[0].fields["songlist"].items|
            && forall i :: 0 <= i < |r.value| ==>
                 r.value[i] == Simplify(doc.fields["cdlist"].items[0].fields["songlist"].items[i]))
  {
    if !doc.JObj? then Failure(AttributeError)
    else match First(Get(doc.fields, "cdlist").GetOr(JArr([])))
      case Failure(e) => Failure(e)
      case Success(cd) =>
        if !cd.JObj? then Failure(AttributeError)
        else ProjectSongList(Get(cd.fields, "songlist").GetOr(JArr([])))
  }

  /** On the expected shape the result is the projection of the first
      cd's song list: same length and order, each entry the two copied
      fields; an entry lacking a key makes it fail. */
  lemma ProjectExpectedShape(fields: map<string, Json>, cd: Json, rest: seq<Json>, songs: seq<Json>)
    requires "cdlist" in fields && fields["cdlist"] == JArr([cd] + rest)
    requires cd.JObj? && "songlist" in cd.fields && cd.fields["songlist"] == JArr(songs)
    ensures Project(JObj(fields)) == ProjectSongs(songs)
    ensures Project(JObj(fields)).Success? <==> forall i :: 0 <= i < |songs| ==> HasBothKeys(songs[i])
    ensures Project(JObj(fields)).Success? ==>
      && |Project(JObj(fields)).value| == |songs|
      && forall i :: 0 <= i < |songs| ==> Project(JObj(fields)).value[i] == Simplify(songs[i])
  {
  }

  /** `get_song_list(categoryID, origin)` from the reply text on; `parse`
      stands for `json.loads`, returning `None` when it raises. */
  function GetSongList(responseText: string, parse: string -> Option<Json>, origin: bool): (r: Result<Json, ListError>)
    ensures parse(Jsonp.Unwrap(responseText)).None? <==> r == Failure(ParseFailed)
    ensures origin && parse(Jsonp.Unwrap(responseText)).Some? ==>
      r == Success(parse(Jsonp.Unwrap(responseText)).value)
    ensures !origin && parse(Jsonp.Unwrap(responseText)).Some? ==>
      r == match Project(parse(Jsonp.Unwrap(responseText)).value)
           case Success(songs) => Success(JArr(songs))
           case Failure(e) => Failure(Crashed(e))
  {
    match parse(Jsonp.Unwrap(responseText))
    case None => Failure(ParseFailed)
    case Some(data) =>
      if origin then Success(data)
      else match Project(data)
        case Failure(e) => Failure(Crashed(e))
        case Success(songs) => Success(JArr(songs))
  }

  /** A wrapped reply is decoded from what it wraps; `origin` returns that
      decoded document unchanged. */
  lemma GetSongListOfEnvelope(text: string, name: string, inner: string, tail: string,
                              parse: string -> Option<Json>, doc: Json)
    requires Jsonp.IsEnvelope(text, name, inner, tail) && parse(inner) == Some(doc)
    ensures GetSongList(text, parse, true) == Success(doc)
  {
    Jsonp.UnwrapEnvelope(text, name, inner, tail);
  }
}
