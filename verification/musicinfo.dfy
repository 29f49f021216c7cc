/** Resolving a track id to a download link (DownloadMusic.py,
    get_music_info): the query sent to the resolution service and the
    classification of its reply. The HTTP exchange itself is not modelled;
    the reply's status and decoded body are inputs. */
module MusicInfo {
  import opened Wrappers
  import opened Json

  const Endpoint: string := "https://api.xingzhige.com/API/QQmusicVIP/"

  /** Default values of the `n` and `br` arguments. */
  const DefaultN: Json := JNum(1)
  const DefaultBr: Json := JNum(4)

  /** Query parameters in insertion order, as a Python dict keeps them. */
  type Params = seq<(string, Json)>

  /** The value stored under `key`, if any. */
  function Lookup(ps: Params, key: string): Option<Json> {
    if ps == [] then None
    else if ps[0].0 == key then Some(ps[0].1)
    else Lookup(ps[1..], key)
  }

  predicate DistinctKeys(ps: Params) {
    forall i, j :: 0 <= i < j < |ps| ==> ps[i].0 != ps[j].0
  }

  lemma {:induction false} LookupAt(ps: Params, i: nat)
    requires DistinctKeys(ps) && i < |ps|
    ensures Lookup(ps, ps[i].0) == Some(ps[i].1)
  {
    if i > 0 {
      assert DistinctKeys(ps[1..]) by {
        forall a, b | 0 <= a < b < |ps[1..]| ensures ps[1..][a].0 != ps[1..][b].0 {
          assert ps[1..][a] == ps[a + 1] && ps[1..][b] == ps[b + 1];
        }
      }
      LookupAt(ps[1..], i - 1);
    }
  }

  lemma {:induction false} LookupMissing(ps: Params, key: string)
    requires forall i :: 0 <= i < |ps| ==> ps[i].0 != key
    ensures Lookup(ps, key) == None
  {
    if ps != [] {
      assert forall i :: 0 <= i < |ps[1..]| ==> ps[1..][i] == ps[i + 1];
      LookupMissing(ps[1..], key);
    }
  }

  predicate IsKnownKey(k: string) {
    k == "mid" || k == "n" || k == "br" || k == "uin" || k == "skey"
  }

  /** The query of `get_music_info`: `mid`, `n` and `br` always, in that
      order; `uin` and `skey` appended only when truthy. */
  function QueryParams(songmid: Json, uin: Json, skey: Json, n: Json, br: Json): (ps: Params)
    ensures |ps| >= 3 && ps[0] == ("mid", songmid) && ps[1] == ("n", n) && ps[2] == ("br", br)
    ensures Lookup(ps, "mid") == Some(songmid)
    ensures Lookup(ps, "uin") == (if Truthy(uin) then Some(uin) else None)
    ensures Lookup(ps, "skey") == (if Truthy(skey) then Some(skey) else None)
    ensures |ps| == 3 + (if Truthy(uin) then 1 else 0) + (if Truthy(skey) then 1 else 0)
    ensures DistinctKeys(ps)
    ensures forall i :: 0 <= i < |ps| ==> IsKnownKey(ps[i].0)
  {
    var base := [("mid", songmid), ("n", n), ("br", br)];
    var withUin := if Truthy(uin) then base + [("uin", uin)] else base;
    var ps := if Truthy(skey) then withUin + [("skey", skey)] else withUin;
    LookupAt(ps, 0);
    assert Lookup(ps, "uin") == (if Truthy(uin) then Some(uin) else None) by {
      if Truthy(uin) { LookupAt(ps, 3); } else { LookupMissing(ps, "uin"); }
    }
    assert Lookup(ps, "skey") == (if Truthy(skey) then Some(skey) else None) by {
      if Truthy(skey) { LookupAt(ps, |ps| - 1); } else { LookupMissing(ps, "skey"); }
    }
    ps
  }

  datatype Request = Request(url: string, params: Params)

  function ResolveRequest(songmid: Json, uin: Json, skey: Json, n: Json, br: Json): Request {
    Request(Endpoint, QueryParams(songmid, uin, skey, n, br))
  }

  /** `download_music` calls `get_music_info` with the defaults only, so
      the query is exactly `mid`, `n = 1`, `br = 4`. */
  lemma DefaultQuery(songmid: Json)
    ensures ResolveRequest(songmid, JNull, JNull, DefaultN, DefaultBr)
         == Request(Endpoint, [("mid", songmid), ("n", JNum(1)), ("br", JNum(4))])
  {
  }

  /** The dict `get_music_info` returns: `{}` when the service reports a
      failure, otherwise a record with all three keys present. */
  datatype Resolution =
    | Empty
    | Record(src: Json, songname: Json, artist: Json)
  {
    /** `music_info.get(key)`. */
    function Get(key: string): (r: Option<Json>)
      ensures Empty? ==> r == None
    {
      match this
      case Empty => None
      case Record(src, songname, artist) =>
        if key == "src" then Some(src)
        else if key == "songname" then Some(songname)
        else if key == "artist" then Some(artist)
        else None
    }
  }

  /** Why `get_music_info` raised. */
  datatype ResolveError =
    | BadStatus(status: int)  // HTTP status other than 200
    | Malformed               // the body could not be decoded as JSON
    | Crashed(error: PyError) // the decoded body had an unexpected shape

  /** `response_data.get("data", {})`. */
  function Payload(fields: map<string, Json>): Json {
    Get(fields, "data").GetOr(JObj(map[]))
  }

  /** The reply to the resolution request: `status` is the HTTP status and
      `body` the decoded JSON body, `None` when decoding failed. */
  function Classify(status: int, body: Option<Json>): (r: Result<Resolution, ResolveError>)
    ensures status != 200 <==> r.Failure? && r.error.BadStatus?
    ensures r.Failure? && r.error.BadStatus? ==> r.error.status == status
    ensures status == 200 && body.None? ==> r == Failure(Malformed)
    ensures r.Success? ==> status == 200 && body.Some? && body.value.JObj?
    ensures r == Success(Empty) <==>
      status == 200 && body.Some? && body.value.JObj? && !EqualsZero(Get(body.value.fields, "code"))
    ensures r.Success? && r.value.Record? ==>
      && EqualsZero(Get(body.value.fields, "code"))
      && Payload(body.value.fields).JObj?
      && r.value.src == GetOrNull(Payload(body.value.fields).fields, "src")
      && r.value.songname == GetOrNull(Payload(body.value.fields).fields, "songname")
      && r.value.artist == GetOrNull(Payload(body.value.fields).fields, "name")
    ensures (status == 200 && body.Some? && body.value.JObj? &&
             EqualsZero(Get(body.value.fields, "code")) && Payload(body.value.fields).JObj?) ==>
      r.Success? && r.value.Record?
    ensures (status == 200 && body.Some? &&
             (!body.value.JObj? ||
              (EqualsZero(Get(body.value.fields, "code")) && !Payload(body.value.fields).JObj?))) ==>
      r == Failure(Crashed(AttributeError))
  {
    if status != 200 then Failure(BadStatus(status))
    else match body
      case None => Failure(Malformed)
      case Some(doc) =>
        if !doc.JObj? then Failure(Crashed(AttributeError))
        else if EqualsZero(Get(doc.fields, "code")) then
          var data := Payload(doc.fields);
          if !data.JObj? then Failure(Crashed(AttributeError))
          else Success(Record(GetOrNull(data.fields, "src"), GetOrNull(data.fields, "songname"),
                              GetOrNull(data.fields, "name")))
        else Success(Empty)
  }

  /** A successful reply as the service sends it. */
  function Envelope(src: Json, songname: Json, artist: Json): Json {
    JObj(map["code" := JNum(0), "data" := JObj(map["src" := src, "songname" := songname, "name" := artist])])
  }

  /** A successful reply classifies back to the record it carries. */
  lemma ClassifyEnvelope(src: Json, songname: Json, artist: Json)
    ensures Classify(200, Some(Envelope(src, songname, artist))) == Success(Record(src, songname, artist))
  {
  }

  /** A reply whose `code` is absent or not zero yields the empty record
      whatever else it holds. */
  lemma ClassifyFailureCode(fields: map<string, Json>)
    requires !EqualsZero(Get(fields, "code"))
    ensures Classify(200, Some(JObj(fields))) == Success(Empty)
  {
  }
}
