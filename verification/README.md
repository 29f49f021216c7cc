# QQMusicListDownload — pure core in Dafny

QQMusicListDownload fetches a QQ Music playlist (`GetSongList.py`), saves it
as a list of `{songname, songmid}` records, and then downloads every listed
track (`DownloadMusic.py`). For each track it resolves the `songmid` to a
media link through a resolution service, streams the media into the music
directory under a file name built from title and artist, and schedules a
detached conversion to mp3.

The network, file and asyncio plumbing surrounds a small set of pure
decisions and transformations. This project lifts them out and proves
properties of them:

- `Json` — decoded JSON values, plus the Python operations the code applies to them: truthiness, `dict.get`, `== 0` and `str()`.
- `FileNames` — the illegal-character deletion applied to `"{songname} - {artist}"`, POSIX `os.path.join`, and the download and `.mp3` paths.
- `MusicInfo` — the query parameters of `get_music_info`, and the classification of the service's reply into an error, the empty record `{}`, or a `{src, songname, artist}` record.
- `Download` — the task filter of `main`, and the per-track plan of `download_music`: no link, a failed fetch, or a fetch then a save then a scheduled transcode.
- `Jsonp` — the `^\w+\((.*)\)$` unwrap of a JSONP reply, with Python's exact `.` and `$` semantics.
- `SongList` — the `cdlist[0].songlist[*]` projection and its exceptions, and the `origin` switch of `get_song_list`.
- `Pipeline` — how the modules compose: the projected list feeds the task filter, and one task runs request → classification → plan.

The model has these inputs in place of I/O:

- HTTP statuses.
- Decoded reply bodies. `None` stands for a body that did not decode.
- `json.loads`, as a function parameter `parse`.
- The music directory.

A Python exception becomes the `Failure` branch of a `Result`. Its payload names the exception class (`AttributeError`, `IndexError`, `KeyError`, `TypeError`), or for the resolver it is a status error, a malformed body or a crash.

Three behaviours of the code that the model reproduces:

- Backslash is kept: the class `[\/:*?"<>|]` escapes only `/`, so `\` is not deleted (`FileNames.SanitizeCounts`).
- The "unknown" defaults at DownloadMusic.py:77-78 are never used. The resolver's record always has both keys, so a field missing from the reply is `None` and renders as "None" in the file name (`Download.NamesFromRecord`).
- One failing track stops the run: `asyncio.gather` is awaited without `return_exceptions`, so the first exception a task raises propagates out of `main`. The model records such a task as `Raised` and does not model the run's scheduling.

## Model

| member | source | states |
|---|---|---|
| FileNames.Sanitize | DownloadMusic.py:82 | the result contains none of `/ : * ? " < > \|` and is no longer than the input |
| FileNames.SanitizeCounts | DownloadMusic.py:82 | every character outside the eight (backslash included) keeps its number of occurrences; each of the eight has none left |
| FileNames.SanitizeSubsequence | DownloadMusic.py:82 | the result is the input with characters deleted, order kept |
| FileNames.SanitizeConcat | DownloadMusic.py:82 | sanitising a concatenation is concatenating the sanitised parts |
| FileNames.SanitizeKeepsLegal | DownloadMusic.py:82 | a name without illegal characters is unchanged |
| FileNames.SanitizeIdempotent | DownloadMusic.py:82 | sanitising twice equals sanitising once |
| FileNames.SanitizeShrinks | DownloadMusic.py:82 | any illegal character makes the result strictly shorter |
| FileNames.SanitizeLengthKept | DownloadMusic.py:82 | the length is unchanged if and only if no illegal character occurs |
| FileNames.Join | DownloadMusic.py:83-84 | POSIX `os.path.join(a, b)`: an absolute `b` is returned as is; otherwise the result starts with `a`, ends with `b`, is at most one character longer than both together, that extra character is `/` and is added exactly when `a` is non-empty and does not already end with `/`, and a `/` always stands right before `b` when `a` is non-empty |
| FileNames.BaseName | DownloadMusic.py:79-82 | the sanitised `"song - artist"` equals the sanitised song, `" - "`, the sanitised artist |
| FileNames.JoinSuffix | DownloadMusic.py:83-84 | `os.path.join(dir, name + ".mp3")` equals `os.path.join(dir, name) + ".mp3"` for every dir and name |
| FileNames.NamesFor | DownloadMusic.py:77-84 | the file name is legal and at least `" - "` long; the download path is the directory prefix plus the name, so it stays inside the directory; the mp3 path is the download path plus `.mp3` |
| Json.Str | DownloadMusic.py:79 | f-string rendering: a string as itself, `None` as "None", booleans as "True"/"False", an integer as canonical decimal digits (with `-` when negative) that read back as its value and have no leading zero except for `0` itself |
| Json.NatToStringRoundTrip | DownloadMusic.py:79 | the decimal digits an integer renders to in the f-string read back as that integer |
| Json.NatToStringCanonical | DownloadMusic.py:79 | the rendering of a natural number is non-empty, all digits, reads back as the number and has no leading zero unless it is `0` |
| MusicInfo.QueryParams | DownloadMusic.py:26-36 | `mid`, `n`, `br` come first in that order with the given values; `uin`/`skey` are present iff truthy and carry the argument; no other key, no key twice |
| MusicInfo.DefaultQuery | DownloadMusic.py:24-36 | the call in `download_music` sends exactly `mid`, `n = 1`, `br = 4` to the fixed endpoint |
| MusicInfo.Classify | DownloadMusic.py:39-57 | status ≠ 200 iff the error carries that status; an undecodable body is `Malformed`; a non-dict body, or a non-dict `data` under `code == 0`, raises AttributeError; `{}` iff status 200, dict body and `code` not equal to 0; status 200, dict body, `code == 0` and dict `data` give a record mapping `data.src`/`data.songname`/`data.name` to `src`/`songname`/`artist` |
| MusicInfo.ClassifyEnvelope | DownloadMusic.py:44-50 | a `code: 0` reply classifies back to the record it carries |
| MusicInfo.ClassifyFailureCode | DownloadMusic.py:51-53 | any dict reply whose `code` is absent or not equal to 0 (in Python's sense, where `False == 0`) yields `{}` |
| Download.Tasks | DownloadMusic.py:116-121 | the loop succeeds iff every entry is a dict; it is never longer than the input; every task has truthy name and id |
| Download.TasksConcat | DownloadMusic.py:116-121 | the tasks of `a + b` are the tasks of `a` followed by those of `b`, the first raising entry deciding the error |
| Download.TasksSingle | DownloadMusic.py:117-121 | one entry: a non-dict raises AttributeError, a truthy name and id gives its track, anything else gives nothing |
| Download.TasksInOrder | DownloadMusic.py:116-121 | the tasks are an order-preserving subsequence of the entries' tracks |
| Download.TasksComplete | DownloadMusic.py:116-121 | each entry with truthy `songname` and `songmid` yields a task, and each task comes from such an entry |
| Download.TaskList | DownloadMusic.py:116 | a list is filtered entry by entry; any other value yields no tasks, and succeeds only when it is empty |
| Download.PlanTrack | DownloadMusic.py:71-103 | a resolver error is re-raised with no action; `NoLink` iff the result has no truthy `src`, and then nothing is done; a truthy `src` comes only from a record and gives `Downloaded` with the names built from the record's title and artist when the fetch answers 200, otherwise `FetchFailed` with that status; a failed fetch's only action is the fetch of `src` |
| Download.PlanShape | DownloadMusic.py:75-99 | the actions are empty without a record with truthy `src`; with one they are the fetch of `src`, followed on a 200 answer by the save to the download path and the transcode to the mp3 path |
| Download.FetchOnlyWithSource | DownloadMusic.py:75-88 | a fetch is made iff the resolution is a record with truthy `src`, and it fetches that `src` |
| Download.TranscodeOnlyAfterSuccess | DownloadMusic.py:88-99 | a transcode is scheduled iff the fetch answered 200, after the fetch and the save of the file it converts, targeting that path plus `.mp3` |
| Download.NamesFromRecord | DownloadMusic.py:75-99 | a download only happens for a record, so the names come from its fields and never from "unknown"; the actions are the fetch of `src`, the save to the directory-prefixed sanitised name and the transcode of that file to its `.mp3` path; a `None` title renders as "None" |
| Download.NoneTitle | DownloadMusic.py:79-82 | a `None` title puts "None" at the head of the file name |
| Jsonp.Unwrap | GetSongList.py:29-33 | the result is never longer than the text, and whenever it differs from the text the text is `name(result)` with `name` its leading word run and nothing or one newline after the `)` |
| Jsonp.UnwrapEnvelope | GetSongList.py:29-31 | on `name(inner)` plus an optional final newline the unwrap returns `inner`, and re-wrapping gives back the text |
| Jsonp.UnwrapPassThrough | GetSongList.py:32-33 | text the pattern cannot match is returned unchanged |
| Jsonp.EnvelopeUnique | GetSongList.py:29 | a text is an envelope in at most one way (name, wrapped text, trailing newline) |
| Jsonp.UnwrapOneLayer | GetSongList.py:29-31 | `f(g(x))` unwraps to `g(x)`: one layer only, the group runs to the last `)` |
| SongList.ProjectSongs | GetSongList.py:45-48 | succeeds iff every entry is a dict with both keys; then same length and order, each entry exactly `{songname, songmid}` copied |
| SongList.ProjectSongsFirstBad | GetSongList.py:45-48 | the first entry lacking a key decides the exception: TypeError for a non-dict, else KeyError of the first missing key |
| SongList.Simplify | GetSongList.py:46 | the simplified entry has exactly the keys `songname` and `songmid`, each copied from the song entry |
| SongList.ProjectSongList | GetSongList.py:44-48 | a list song list is projected; any other value yields no entries, and succeeds only when it is empty |
| SongList.Project | GetSongList.py:44-48 | a document that is not a dict raises AttributeError; an absent or empty `cdlist` raises IndexError; a `cdlist` that is not a list raises; a non-dict `cdlist[0]` raises AttributeError; a `cdlist[0]` without `songlist` projects to no entries; when `cdlist[0]` is a dict holding a list `songlist`, it succeeds iff every song entry has both keys, and then keeps their number and order with each entry simplified |
| SongList.ProjectExpectedShape | GetSongList.py:44-48 | on the expected shape the result is the projection of `cdlist[0].songlist`, with its length, order and copied fields |
| SongList.GetSongList | GetSongList.py:29-49 | a parse failure is `ParseFailed` and nothing else is; with `origin` the decoded document is returned unchanged; otherwise a successful projection is returned as a list and a projection exception `e` comes back as `Crashed(e)` |
| SongList.GetSongListOfEnvelope | GetSongList.py:29-41 | a wrapped reply is decoded from the wrapped text, and `origin` returns that document |
| Pipeline.ProjectionKeepsTasks | GetSongList.py:45-48 | the projected list yields exactly the download tasks the raw song entries would |
| Pipeline.RunTrack | DownloadMusic.py:71-73 | a task queries the fixed endpoint with its `songmid` and no `uin`/`skey` |
| Pipeline.ResolutionFailureStops | DownloadMusic.py:51-57 | a non-200 reply raises with its status, and a non-zero `code` gives no link; neither fetches |
| Pipeline.SuccessfulTrack | DownloadMusic.py:73-99 | a resolved link and a 200 fetch give the fetch, the save and the mp3 transcode, in that order |

## Left out

- Network I/O is not modelled: the aiohttp sessions, both HTTP GETs, the playlist request's fixed parameters and headers, and the 1 KiB streaming read/write loop. Statuses and decoded bodies are inputs.
- Concurrency is not modelled: `asyncio.Semaphore(3)`, `asyncio.gather` and the fire-and-forget `asyncio.create_task`. The plan records that a transcode is scheduled, not when it runs.
- `convert_to_mp3` is not modelled: the pydub decode/export and the `os.remove` of the downloaded file are a foreign library and filesystem effects.
- JSON parsing is not modelled. `json.load`, `json.loads` and `json.dump` are treated as an abstract step: a `parse` parameter, or a decoded value given as input. Writing `list.json` and reading it back is assumed to give the same value.
- Environment setup and console output are not modelled: `init`, the module-level path globals, every `print` (including the `msg` diagnostic) and `asyncio.run`.
- `download_music`'s `song_name` argument is not modelled. The code overwrites it before using it, so it has no effect.
- Json.Json: numbers are integers. A float `0.0` (equal to `0` in Python) and the `str()` of a float are not modelled.
- Json.Str: `str()` of a list or dict renders as the marker `[...]` or `{...}`, not Python's repr. Scalars render exactly.
- Jsonp.IsWordChar: `\w` is restricted to ASCII letters, digits and `_`. Python also accepts other Unicode letters and digits, so a callback name with such characters is not unwrapped by the model.
- MusicInfo.Classify: both ways `response.json()` can fail collapse into `Malformed`. These are the content-type error, re-raised as ValueError, and a JSON decode error, which propagates as-is.
- Network and file failures are not modelled: a GET can raise on a connection error or timeout, the media GET can raise on a `src` that is not a URL, and `open(music_path, "wb")` can raise (a name too long for the filesystem, say). `download_music` then raises and `gather` ends `main`, whereas the model reports the plan as `Downloaded` or `FetchFailed` according to the status given.
- FileNames.Join: only the POSIX `os.path.join` is modelled, not the Windows one.
