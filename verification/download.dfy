/** The decisions of DownloadMusic.py around the network calls: which list
    entries become download tasks (`main`) and what one task does once its
    link has been resolved (`download_music`). Fetching, writing and
    transcoding are recorded as actions rather than performed. */
module Download {
  import opened Wrappers
  import opened Json
  import opened Seqs
  import opened FileNames
  import opened MusicInfo

  /** The arguments `main` passes to `download_music` for one entry. */
  datatype Track = Track(songname: Json, songmid: Json)

  /** An entry `main` turns into a task: both fields present and truthy. */
  predicate Keep(entry: Json)
    requires entry.JObj?
  {
    TruthyOpt(Get(entry.fields, "songname")) && TruthyOpt(Get(entry.fields, "songmid"))
  }

  /** The track an object entry would give, with missing fields read as `None`. */
  function TrackOf(entry: Json): Track
    requires entry.JObj?
  {
    Track(GetOrNull(entry.fields, "songname"), GetOrNull(entry.fields, "songmid"))
  }

  /** The task loop of `main` over the entries of the track list; an entry
      that is not a dict makes `music.get` raise. */
  function Tasks(entries: seq<Json>): (r: Result<seq<Track>, PyError>)
    ensures r.Success? <==> forall i :: 0 <= i < |entries| ==> entries[i].JObj?
    ensures r.Failure? ==> r.error == AttributeError
    ensures r.Success? ==> |r.value| <= |entries|
    ensures r.Success? ==> forall k :: 0 <= k < |r.value| ==> Truthy(r.value[k].songname) && Truthy(r.value[k].songmid)
  {
    if entries == [] then Success([])
    else
      var e := entries[0];
      if !e.JObj? then Failure(AttributeError)
      else match Tasks(entries[1..])
        case Failure(err) => Failure(err)
        case Success(rest) => Success(if Keep(e) then [TrackOf(e)] + rest else rest)
  }

  /** Running the loop over `a + b` is running it over `a`, then over `b`,
      stopping at the first entry that raises. */
  function Then(x: Result<seq<Track>, PyError>, y: Result<seq<Track>, PyError>): Result<seq<Track>, PyError> {
    match x
    case Failure(e) => Failure(e)
    case Success(xs) =>
      match y
      case Failure(e) => Failure(e)
      case Success(ys) => Success(xs + ys)
  }

  lemma {:induction false} TasksConcat(a: seq<Json>, b: seq<Json>)
    ensures Tasks(a + b) == Then(Tasks(a), Tasks(b))
    decreases |a|
  {
    if a == [] {
      assert a + b == b;
      assert Tasks(b).Success? ==> [] + Tasks(b).value == Tasks(b).value;
    } else {
      assert (a + b)[0] == a[0];
      assert (a + b)[1..] == a[1..] + b;
      TasksConcat(a[1..], b);
      if a[0].JObj? && Tasks(a[1..]).Success? && Tasks(b).Success? && Keep(a[0]) {
        var ra, rb := Tasks(a[1..]).value, Tasks(b).value;
        assert [TrackOf(a[0])] + (ra + rb) == ([TrackOf(a[0])] + ra) + rb;
      }
    }
  }

  /** A single entry: a non-dict raises, a kept entry gives its track, any
      other dict gives nothing. With `TasksConcat` this determines `Tasks`. */
  lemma TasksSingle(e: Json)
    ensures !e.JObj? ==> Tasks([e]) == Failure(AttributeError)
    ensures e.JObj? && Keep(e) ==> Tasks([e]) == Success([TrackOf(e)])
    ensures e.JObj? && !Keep(e) ==> Tasks([e]) == Success([])
  {
    assert [e][1..] == [];
    assert e.JObj? ==> [TrackOf(e)] + [] == [TrackOf(e)];
  }

  /** The candidate track of every entry, used to state order preservation. */
  function Candidates(entries: seq<Json>): (r: seq<Track>)
    requires forall i :: 0 <= i < |entries| ==> entries[i].JObj?
    ensures |r| == |entries|
    ensures forall i :: 0 <= i < |entries| ==> r[i] == TrackOf(entries[i])
  {
    if entries == [] then [] else [TrackOf(entries[0])] + Candidates(entries[1..])
  }

  /** The tasks appear in the order of their entries. */
  lemma {:induction false} TasksInOrder(entries: seq<Json>)
    requires forall i :: 0 <= i < |entries| ==> entries[i].JObj?
    ensures IsSubsequence(Tasks(entries).value, Candidates(entries))
  {
    if entries != [] {
      TasksInOrder(entries[1..]);
      var c := Candidates(entries);
      assert c[1..] == Candidates(entries[1..]);
      if Keep(entries[0]) {
        var t := Tasks(entries).value;
        assert t[0] == c[0] && t[1..] == Tasks(entries[1..]).value;
      }
    }
  }

  /** Every entry with a truthy name and id gives a task, and every task
      comes from such an entry. */
  lemma {:induction false} TasksComplete(entries: seq<Json>)
    requires forall i :: 0 <= i < |entries| ==> entries[i].JObj?
    ensures forall i :: 0 <= i < |entries| && Keep(entries[i]) ==> TrackOf(entries[i]) in Tasks(entries).value
    ensures forall t :: t in Tasks(entries).value ==>
      exists i :: 0 <= i < |entries| && Keep(entries[i]) && TrackOf(entries[i]) == t
  {
    if entries != [] {
      TasksComplete(entries[1..]);
      forall i | 1 <= i < |entries| && Keep(entries[i])
        ensures TrackOf(entries[i]) in Tasks(entries).value
      {
        assert entries[1..][i - 1] == entries[i];
      }
      forall t | t in Tasks(entries).value
        ensures exists i :: 0 <= i < |entries| && Keep(entries[i]) && TrackOf(entries[i]) == t
      {
        if t !in Tasks(entries[1..]).value {
          assert Keep(entries[0]) && TrackOf(entries[0]) == t;
        } else {
          var j :| 0 <= j < |entries[1..]| && Keep(entries[1..][j]) && TrackOf(entries[1..][j]) == t;
          assert entries[j + 1] == entries[1..][j];
        }
      }
    }
  }

  /** `for music in music_list` over the decoded list file: a list yields
      its entries; a string or dict yields strings (characters or keys), on
      which `.get` raises unless there are none; anything else is not
      iterable. */
  function TaskList(musicList: Json): (r: Result<seq<Track>, PyError>)
    ensures musicList.JArr? ==> r == Tasks(musicList.items)
    ensures !musicList.JArr? && r.Success? ==> r.value == [] && !Truthy(musicList)
  {
    match musicList
    case JArr(items) => Tasks(items)
    case JStr(s) => if s == "" then Success([]) else Failure(AttributeError)
    case JObj(fields) => if fields == map[] then Success([]) else Failure(AttributeError)
    case _ => Failure(TypeError)
  }

  /** What a task asks of the outside world, in order. */
  datatype Action =
    | Fetch(url: Json)                                        // GET of the resolved link
    | Save(path: string)                                      // body written to the download path
    | ScheduleTranscode(name: string, source: string, target: string) // detached conversion to mp3

  /** How a task ends. */
  datatype Outcome =
    | Raised(error: ResolveError) // `get_music_info` raised
    | NoLink                      // no truthy `src`: nothing fetched
    | FetchFailed(status: int)    // the media GET did not answer 200
    | Downloaded(names: Names)    // file written and transcode scheduled

  datatype Plan = Plan(outcome: Outcome, actions: seq<Action>)

  const Unknown: Json := JStr("unknown")

  /** `download_music` after resolution: `info` is what `get_music_info`
      returned or raised, `fetchStatus` the status the media GET would
      answer (consulted only when that GET is made), `dir` the music
      directory. */
  function PlanTrack(dir: string, info: Result<Resolution, ResolveError>, fetchStatus: int): (p: Plan)
    ensures info.Failure? ==> p == Plan(Raised(info.error), [])
    ensures p.outcome.NoLink? <==> info.Success? && !TruthyOpt(info.value.Get("src"))
    ensures p.outcome.FetchFailed? ==> p.outcome.status == fetchStatus && fetchStatus != 200
    ensures p.outcome.NoLink? ==> p.actions == []
    ensures info.Success? && TruthyOpt(info.value.Get("src")) ==>
      && info.value.Record?
      && p.outcome == (if fetchStatus == 200 then Downloaded(NamesFor(dir, info.value.songname, info.value.artist))
                       else FetchFailed(fetchStatus))
    ensures p.outcome.FetchFailed? ==> info.Success? && info.value.Record? && p.actions == [Fetch(info.value.src)]
  {
    match info
    case Failure(e) => Plan(Raised(e), [])
    case Success(musicInfo) =>
      if !TruthyOpt(musicInfo.Get("src")) then Plan(NoLink, [])
      else
        var names := NamesFor(dir, musicInfo.Get("songname").GetOr(Unknown), musicInfo.Get("artist").GetOr(Unknown));
        var fetch := [Fetch(musicInfo.src)];
        if fetchStatus == 200 then
          Plan(Downloaded(names), fetch + [Save(names.musicPath), ScheduleTranscode(names.name, names.musicPath, names.mp3Path)])
        else Plan(FetchFailed(fetchStatus), fetch)
  }

  predicate Fetches(p: Plan) {
    exists i :: 0 <= i < |p.actions| && p.actions[i].Fetch?
  }

  predicate Transcodes(p: Plan) {
    exists i :: 0 <= i < |p.actions| && p.actions[i].ScheduleTranscode?
  }

  /** A fetch happens exactly when the resolution gave a record with a
      truthy `src`, and then it fetches that `src`. */
  lemma FetchOnlyWithSource(dir: string, info: Result<Resolution, ResolveError>, fetchStatus: int)
    ensures Fetches(PlanTrack(dir, info, fetchStatus)) <==>
      info.Success? && info.value.Record? && Truthy(info.value.src)
    ensures Fetches(PlanTrack(dir, info, fetchStatus)) ==>
      PlanTrack(dir, info, fetchStatus).actions[0] == Fetch(info.value.src)
  {
    var p := PlanTrack(dir, info, fetchStatus);
    if info.Success? && info.value.Record? && Truthy(info.value.src) {
      assert p.actions[0].Fetch?;
    }
  }

  /** The actions of a plan: nothing without a truthy `src`; otherwise the
      fetch, followed by the save and the transcode only on a 200 answer. */
  lemma PlanShape(dir: string, info: Result<Resolution, ResolveError>, fetchStatus: int)
    ensures var p := PlanTrack(dir, info, fetchStatus);
      if info.Success? && info.value.Record? && Truthy(info.value.src) then
        var n := NamesFor(dir, info.value.songname, info.value.artist);
        p.actions == if fetchStatus == 200
          then [Fetch(info.value.src), Save(n.musicPath), ScheduleTranscode(n.name, n.musicPath, n.mp3Path)]
          else [Fetch(info.value.src)]
      else p.actions == []
  {
  }

  /** A transcode is scheduled exactly when a fetch was made and answered
      200, and only after the fetch and the write of the file it converts;
      its target is that file's path with `.mp3` appended. */
  lemma TranscodeOnlyAfterSuccess(dir: string, info: Result<Resolution, ResolveError>, fetchStatus: int)
    ensures Transcodes(PlanTrack(dir, info, fetchStatus)) <==>
      Fetches(PlanTrack(dir, info, fetchStatus)) && fetchStatus == 200
    ensures forall j ::
      (0 <= j < |PlanTrack(dir, info, fetchStatus).actions| &&
       PlanTrack(dir, info, fetchStatus).actions[j].ScheduleTranscode?) ==>
      var acts := PlanTrack(dir, info, fetchStatus).actions;
      && j == 2 && acts[0].Fetch?
      && acts[1] == Save(acts[j].source)
      && acts[j].target == acts[j].source + Mp3Suffix
  {
    var p := PlanTrack(dir, info, fetchStatus);
    PlanShape(dir, info, fetchStatus);
    FetchOnlyWithSource(dir, info, fetchStatus);
    if info.Success? && info.value.Record? && Truthy(info.value.src) {
      var n := NamesFor(dir, info.value.songname, info.value.artist);
      if fetchStatus == 200 {
        FullPlanOrdered(info.value.src, n);
      } else {
        assert !p.actions[0].ScheduleTranscode?;
      }
    }
  }

  /** The actions of a successful download: the only transcode is the
      third action, after the fetch and the save of the file it converts. */
  lemma FullPlanOrdered(src: Json, n: Names)
    requires n.mp3Path == n.musicPath + Mp3Suffix
    ensures var acts := [Fetch(src), Save(n.musicPath), ScheduleTranscode(n.name, n.musicPath, n.mp3Path)];
      && acts[2].ScheduleTranscode?
      && forall j :: 0 <= j < |acts| && acts[j].ScheduleTranscode? ==>
        && j == 2 && acts[0].Fetch?
        && acts[1] == Save(acts[j].source)
        && acts[j].target == acts[j].source + Mp3Suffix
  {
  }

  /** The "unknown" defaults are never used: a download only happens for a
      record, which always has both keys. A field missing from the reply is
      therefore `None` and appears as "None" in the file name. */
  lemma NamesFromRecord(dir: string, info: Result<Resolution, ResolveError>, fetchStatus: int)
    requires PlanTrack(dir, info, fetchStatus).outcome.Downloaded?
    ensures info.Success? && info.value.Record?
    ensures PlanTrack(dir, info, fetchStatus).outcome.names
         == NamesFor(dir, info.value.songname, info.value.artist)
    ensures var n := PlanTrack(dir, info, fetchStatus).outcome.names;
      PlanTrack(dir, info, fetchStatus).actions
      == [Fetch(info.value.src), Save(n.musicPath), ScheduleTranscode(n.name, n.musicPath, n.mp3Path)]
    ensures info.value.songname == JNull ==>
      PlanTrack(dir, info, fetchStatus).outcome.names.name[..4] == "None"
  {
    var p := PlanTrack(dir, info, fetchStatus);
    assert info.Success? && info.value.Get("src").Some? && Truthy(info.value.Get("src").value);
    var rec := info.value;
    assert rec.Record? && Truthy(rec.src) && fetchStatus == 200;
    var n := NamesFor(dir, rec.songname, rec.artist);
    assert p == Plan(Downloaded(n), [Fetch(rec.src), Save(n.musicPath), ScheduleTranscode(n.name, n.musicPath, n.mp3Path)]);
    if rec.songname == JNull {
      NoneTitle(dir, rec.artist);
    }
  }

  /** A `None` title renders as "None", which sanitisation keeps. */
  lemma NoneTitle(dir: string, artist: Json)
    ensures NamesFor(dir, JNull, artist).name[..4] == "None"
  {
    var n := NamesFor(dir, JNull, artist);
    var a := Sanitize(Str(artist));
    assert n.name == Sanitize("None") + Separator + a;
    assert AllLegal("None");
    SanitizeKeepsLegal("None");
    assert ("None" + Separator + a)[..4] == "None";
  }
}
