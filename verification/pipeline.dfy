/** How the pieces fit: the list `get_song_list` writes is the list
    `main` reads, and one task is the resolution request, the classified
    reply and the plan that follows from it. */
module Pipeline {
  import opened Wrappers
  import opened Json
  import opened MusicInfo
  import opened Download
  import opened SongList

  /** The projected list gives the same tasks as the raw song entries it
      came from: projection keeps exactly the two fields the task loop reads. */
  lemma {:induction false} ProjectionKeepsTasks(songs: seq<Json>)
    requires ProjectSongs(songs).Success?
    ensures forall i :: 0 <= i < |songs| ==> songs[i].JObj?
    ensures Tasks(ProjectSongs(songs).value) == Tasks(songs)
  {
    if songs != [] {
      ProjectionKeepsTasks(songs[1..]);
      var out := ProjectSongs(songs).value;
      assert out[1..] == ProjectSongs(songs[1..]).value;
      assert Get(out[0].fields, "songname") == Get(songs[0].fields, "songname");
      assert Get(out[0].fields, "songmid") == Get(songs[0].fields, "songmid");
    }
  }

  /** The request a task sends and the plan that follows from the reply:
      `resolveStatus`/`resolveBody` are the resolution service's reply,
      `fetchStatus` the media server's. */
  function RunTrack(dir: string, track: Track, resolveStatus: int, resolveBody: Option<Json>, fetchStatus: int): (r: (Request, Plan))
    ensures r.0.url == Endpoint && Lookup(r.0.params, "mid") == Some(track.songmid)
    ensures Lookup(r.0.params, "uin").None? && Lookup(r.0.params, "skey").None?
  {
    (ResolveRequest(track.songmid, JNull, JNull, DefaultN, DefaultBr),
     PlanTrack(dir, Classify(resolveStatus, resolveBody), fetchStatus))
  }

  /** A failed resolution stops the task before any fetch: a non-200 reply
      raises with its status, and a reply whose `code` is not zero gives
      the empty record and no link. */
  lemma ResolutionFailureStops(dir: string, track: Track, resolveStatus: int, resolveBody: Option<Json>, fetchStatus: int)
    ensures resolveStatus != 200 ==>
      RunTrack(dir, track, resolveStatus, resolveBody, fetchStatus).1 == Plan(Raised(BadStatus(resolveStatus)), [])
    ensures (resolveStatus == 200 && resolveBody.Some? && resolveBody.value.JObj? &&
             !EqualsZero(Get(resolveBody.value.fields, "code"))) ==>
      RunTrack(dir, track, resolveStatus, resolveBody, fetchStatus).1 == Plan(NoLink, [])
  {
  }

  /** A successful resolution with a non-empty link and a 200 fetch ends
      with the file written and a transcode to `<name>.mp3` scheduled. */
  lemma SuccessfulTrack(dir: string, track: Track, src: string, title: Json, artist: Json)
    requires |src| > 0
    ensures var names := FileNames.NamesFor(dir, title, artist);
      RunTrack(dir, track, 200, Some(Envelope(JStr(src), title, artist)), 200).1
      == Plan(Downloaded(names),
              [Fetch(JStr(src)), Save(names.musicPath), ScheduleTranscode(names.name, names.musicPath, names.mp3Path)])
  {
    ClassifyEnvelope(JStr(src), title, artist);
    var info := Classify(200, Some(Envelope(JStr(src), title, artist)));
    assert info == Success(Record(JStr(src), title, artist));
    PlanShape(dir, info, 200);
  }
}
