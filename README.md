# syng sources, modelled in Dafny

syng is a karaoke system: a server keeps a queue of songs, and a playback
client fetches each song from a *source* (YouTube, a file store, …) and plays
it with `mpv`. This project models the core that every source shares and the
YouTube source's own decisions:

- **The coordinator** (`Sources.Source`, file `source.dfy`). It keeps one
  download record (`DLFilesEntry`) per song identifier. Records are created on
  first lookup. It also keeps a "skip next" flag and a reference to the player.
  The async operations `buffer`, `ensure_playable`, `play` and
  `skip_current` interleave only at `await` points, and their flag updates sit
  inside single lock sections. So each is modelled as a sequence of atomic
  steps, one method of the class per step. Fetch tasks are explicit: the
  source's `tasks` sequence holds each task's identifier and state (running,
  cancellation pending, done), and a record points to its task by index.
- **Two invariants of the coordinator.** `Valid` holds after every step. It
  says a record's task fetches that record's identifier, and that a record
  which is buffering and not ready has a running fetch. So a caller waiting
  for `ready` is always woken by a fetch or a skip (`WaitIsBacked`).
  `SingleFlight` says every running fetch is the one its record refers to. It
  implies no identifier is fetched twice at once (`AtMostOneFetch`). Every
  step preserves it except one: `play` deleting a failed record whose fresh
  fetch is still running. `Scenarios.DoubleFetch` shows that case reached.
- **Pure helpers** of `source.py`: the `mpv` argument list and the query
  filter over file names.
- **Search hits** (`Results`, file `result.dfy`): parsing
  `artist - title - album.ext` file names, and the dictionary round trip.
  `os.path.basename`, `os.path.splitext`, `str.split`, `str.strip`,
  `str.lower` and `int`/`str` on decimals are written out as string functions
  (`Text`, file `text.dfy`).
- **The YouTube source's decisions** (`Youtube`, file `youtube.dfy`):
  - video metadata with its fallbacks;
  - the search URL and the filtering of search hits;
  - reading the configuration (`max_res` with its fallback, the format
    string);
  - the streaming branch of `play`, the missing metadata, the shape of a
    download's result, and the fixed fields of a new entry.

  Every yt-dlp call and `urlencode` is an input: the model receives what it
  returned or raised.
- **The registry filter** `configure_sources` (`Registry`, file
  `registry.dfy`).
- **Interleavings** the source allows, run step by step on a fresh source
  (`Scenarios`, file `scenarios.dfy`).

The entry being played (`Entries.Entry`) keeps only the fields the sources
read or write. Its definition, `syng/entry.py`, is not part of this model.

## Model

| member | source | states |
|---|---|---|
| `Sources.MpvArgs` | syng/sources/source.py:129-131 | the argument list is `--fullscreen`, the options in order, the video, then `--audio-file=<audio>` exactly when the audio location is present and non-empty |
| `Sources.ContainsAllWords` | syng/sources/source.py:321-325 | true iff every word, lower-cased, occurs in the lower-cased base name of the element |
| `Sources.FilterDataByQuery` | syng/sources/source.py:327-328 | an element is kept iff it is in the data and contains all words; each kept element keeps its multiplicity, every other element occurs zero times |
| `Sources.FilterKeepsOrder` | syng/sources/source.py:328 | the filtered list is a subsequence of the data: the input order is kept |
| `Sources.EmptyQueryKeepsAll` | syng/sources/source.py:321-328 | with no query words the filter returns the data unchanged |
| `Sources.Source.constructor` | syng/sources/source.py:105-111 | a new source has no records, no player, no pending skip and no tasks; it satisfies `Valid` and `SingleFlight` |
| `Sources.Source.Get` | syng/sources/source.py:57-64 | the defaultdict lookup: the stored record, or for a never-seen identifier one that is not ready, buffering, complete, failed or skipped, with video "", no audio and no task |
| `Sources.Source.AtMostOneFetch` | syng/sources/source.py:202-209 | under `SingleFlight`, two running fetches of one identifier are the same task |
| `Sources.Source.WaitIsBacked` | syng/sources/source.py:289-290 | a record that is buffering and not ready has a running fetch, so the wait for `ready` has something that ends it |
| `Sources.Source.BufferEnter` | syng/sources/source.py:202-209 | a fetch is started iff the record is not buffering; then the record is buffering and points to the new running task; otherwise nothing changes; `Valid`, `SingleFlight` and the latches are kept |
| `Sources.Source.BufferFinishOk` | syng/sources/source.py:210-220 | the task is done; its identifier's record stores video and audio and is complete and ready; everything else, including `buffering`, is unchanged |
| `Sources.Source.BufferFinishFail` | syng/sources/source.py:215-220 | the task is done; the record is failed and ready, not newly complete; everything else is unchanged |
| `Sources.Source.BufferCancelled` | syng/sources/source.py:207-215 | a cancelled task ends with no record change: neither complete nor failed is set, and the cancellation reaches the caller of `buffer` |
| `Sources.Source.SkipCurrent` | syng/sources/source.py:268-277 | the skip flag is set; the entry's record stops buffering and becomes ready; its task, if any, gets a pending cancellation; a playing player is killed; other records are unchanged |
| `Sources.Source.PlayAfterReady` | syng/sources/source.py:235-249 | called only once the record is ready, as `ensure_playable` (source.py:289-290) waits for; a failed record is deleted and nothing is played (Dropped); else a pending skip is consumed and marks the entry skipped (Skipped); else the player runs the stored video and audio with the extra arguments (Launched) |
| `Sources.Source.PlayerExit` | syng/sources/source.py:250-254 | the player reference is cleared; a skip that arrived meanwhile is consumed and marks the entry skipped |
| `Text.Lower` | syng/sources/source.py:323 | `lower` keeps the length and lower-cases each character |
| `Text.LowerIdempotent` | syng/sources/source.py:323 | lower-casing twice is lower-casing once, and leaves no upper-case ASCII letter |
| `Text.Basename` | syng/result.py:52 | the base name is a suffix without `/`, preceded by a `/` unless it is the whole path |
| `Text.BasenameUnderDirectory` | syng/result.py:52 | the base name of `dir/name` is `name` |
| `Text.StripExt` | syng/result.py:50 | the root is a prefix; the cut extension is empty or one dot followed by no dot or `/`; a dot is only cut after a non-dot character of the final component |
| `Text.StripExtUnderDirectory` | syng/result.py:50 | only the final component's extension is removed: a directory prefix is kept whole |
| `Text.StripIsSlice` | syng/result.py:54-56 | `strip` leaves the slice of the input that starts after its leading whitespace |
| `Text.StripTrimsBothEnds` | syng/result.py:54-56 | what `strip` leaves neither starts nor ends with whitespace |
| `Text.StripRemovesSpace` | syng/result.py:54-56 | every character `strip` removes, before or after the slice it keeps, is whitespace |
| `Text.JoinSplit` | syng/result.py:52 | joining the parts of a split with the separator gives back the string |
| `Text.SplitPartsHaveNoSeparator` | syng/result.py:52 | no part of a split contains the separator |
| `Text.SplitFirstPart` | syng/result.py:52 | the first part of `a - rest` is `a` exactly when `a + " -"` holds no `" - "`, and then the other parts are those of `rest` |
| `Text.ParseIntRoundTrip` | syng/sources/youtube.py:210 | `int(str(n)) == n` for every integer |
| `Results.NameParts` | syng/result.py:50-52 | the parts are non-empty in number and join back to the extension-stripped base name |
| `Results.FromFilename` | syng/result.py:50-61 | ident and source are always the inputs; with three or more parts, artist, title and album are the first three parts stripped; otherwise the title is the extension-stripped file name and artist and album are "Unknown" |
| `Results.ParsedFieldsHaveNoSeparator` | syng/result.py:52-56 | a parsed artist, title or album never contains `" - "` |
| `Results.StripKeepsNoSeparator` | syng/result.py:54-56 | stripping a part that holds no `" - "` leaves a field that holds none either |
| `Results.DirectoryNotSplit` | syng/result.py:50-61 | a `" - "` in a directory name does not count: under a directory the parts are those of the bare name, and an unparsed title keeps the directory |
| `Results.BasenameOfPlainName` | syng/result.py:52 | a name without `/` is its own base name |
| `Results.OnePart` | syng/result.py:52 | a name is a single part exactly when it holds no `" - "` |
| `Results.ExtraPartsIgnored` | syng/result.py:52-57 | when none of `a + " -"`, `b + " -"`, `c + " -"` holds `" - "` (true of `Jay-Z`, false of `x -`), `a - b - c - rest` splits into `a`, `b`, `c` and the parts of `rest`, so parts after the third do not affect the result |
| `Results.ThreeParts` | syng/result.py:52-57 | when neither `a + " -"` nor `b + " -"` holds `" - "` and `c` holds none, `a - b - c` splits into exactly `a`, `b` and `c` |
| `Results.ToDict` | syng/result.py:102-108 | exactly the five keys, each holding the field of that name |
| `Results.FromDict` | syng/result.py:80-86 | returns iff all five keys are present (extra keys ignored), else raises KeyError |
| `Results.FromDictToDict` | syng/result.py:80-108 | `from_dict(to_dict(r)) == r` |
| `Results.ToDictFromDict` | syng/result.py:80-108 | `to_dict(from_dict(d))` is `d` restricted to the five keys |
| `Youtube.NewYouTube` | syng/sources/youtube.py:33-66 | no url: length 0 and empty texts; DownloadError: length 300, no title or author, the url kept; None from extraction: RuntimeError; a dictionary: its duration, title and channel, or KeyError when one is missing |
| `Youtube.Title` | syng/sources/youtube.py:68-78 | the stored title, or "" for None |
| `Youtube.Author` | syng/sources/youtube.py:80-90 | the stored author, or "" for None |
| `Youtube.MetadataDefaults` | syng/sources/youtube.py:46-90 | a video whose download failed has empty title and author and length 300; otherwise title and author are the extracted ones with None read as "" |
| `Youtube.ChannelPath` | syng/sources/youtube.py:135-136 | a leading `/` is removed; an empty channel raises IndexError |
| `Youtube.OneSlashRemoved` | syng/sources/youtube.py:135-136 | exactly one leading slash is removed, even when there are two |
| `Youtube.SearchUrl` | syng/sources/youtube.py:131-139 | the whole-site results URL, or the channel's search URL built from the channel path, each with the videos-only filter |
| `Youtube.CollectSucceeds` | syng/sources/youtube.py:152-159 | the search over the hits returns iff no hit lacks its url and no non-short hit raises something other than KeyError |
| `Youtube.CollectProvenance` | syng/sources/youtube.py:153-157 | every result comes from a kept hit with that url, so no result's url contains "short" |
| `Youtube.CollectCount` | syng/sources/youtube.py:155-159 | a successful search has one result per kept hit, in order: the k-th result is the video of the k-th kept hit |
| `Youtube.Search` | syng/sources/youtube.py:118-159 | the loop's result is the search over the listing the URL yields: IndexError for an empty channel, no results for no listing, KeyError without `entries`, and the listing's own exception when it raises |
| `Youtube.PyInt` | syng/sources/youtube.py:210 | `int(v)`: a decimal string is parsed or raises ValueError, integers are kept, booleans give 0 or 1, other values raise TypeError |
| `Youtube.MaxRes` | syng/sources/youtube.py:209-212 | the parsed `max_res`; 720 when it is missing or raises ValueError; a TypeError propagates |
| `Youtube.MaxResOfNumeral` | syng/sources/youtube.py:209-212 | a `max_res` written as a number is read back as that number |
| `Youtube.MaxResFallback` | syng/sources/youtube.py:211-212 | a `max_res` string that is not a number gives 720 |
| `Youtube.FormatString` | syng/sources/youtube.py:216-218 | the format starts with the best video capped at `[height<=max_res]` and ends with the best combined file under the same cap |
| `Youtube.HeightCapReadsBack` | syng/sources/youtube.py:216-218 | the number in a height cap reads back as the resolution |
| `Youtube.ReadSettings` | syng/sources/youtube.py:207-218 | each setting is the configured value or its default; fails only with the TypeError of `max_res`; the format string caps at the resolution read |
| `Youtube.DefaultSettings` | syng/sources/youtube.py:207-215 | an empty configuration gives resolution 720, no streaming, `/tmp/syng` and no channels |
| `Youtube.MissingMetadata` | syng/sources/youtube.py:378-386 | nothing for an entry with complete data; else exactly duration, artist and title of the video built from the identifier |
| `Youtube.MetadataOfUndownloadable` | syng/sources/youtube.py:378-386 | an incomplete entry whose video cannot be downloaded reports duration 300 and empty artist and title |
| `Youtube.DoBuffer` | syng/sources/youtube.py:404-406 | the audio part is always None; the video is the first requested download's path; any missing key, empty list or download error raises, and a None result raises TypeError |
| `Youtube.PositionalCall` | syng/sources/youtube.py:262 | a call raises TypeError iff the number of positional arguments differs from the declared one |
| `Youtube.PlayAsWritten` | syng/sources/youtube.py:251-262 | `play` as written streams exactly when `start_streaming` is truthy and the record is not complete |
| `Youtube.DeferredPlayRaises` | syng/sources/youtube.py:262 | as written, `play` raises TypeError in every case it does not stream, and when it returns it has streamed |
| `Youtube.DownloadedVideoHasNoAudioArgument` | syng/sources/youtube.py:395-406 | a video played with no audio location gets no `--audio-file` argument |
| `Youtube.YoutubeSource.constructor` | syng/sources/youtube.py:198-205 | the source holds its settings and a fresh base coordinator with no extra `mpv` arguments |
| `Youtube.YoutubeSource.PlayStart` | syng/sources/youtube.py:251-262 | streams iff streaming is configured and the record is not complete; then the player runs the raw identifier with no audio file and the streaming options; otherwise nothing is played here |
| `Youtube.YoutubeSource.StreamExit` | syng/sources/youtube.py:260 | the streamed player is awaited but its reference is kept, and a pending skip is not consumed |
| `Youtube.YoutubeSource.FinishDownload` | syng/sources/youtube.py:388-406 | a download's path is stored with no audio and the record is complete; any exception marks it failed |
| `Youtube.YoutubeSource.GetEntry` | syng/sources/youtube.py:286-295 | the entry has source "youtube", duration 180, album "YouTube" and incomplete data, with performer, identifier, title and artist passed through |
| `Registry.ConfigureSources` | syng/sources/__init__.py:6-11 | the result has exactly the configured names that are registered, each built by its registered constructor from its own configuration |
| `Scenarios.ConcurrentBuffers` | syng/sources/source.py:202-209 | two `buffer` calls for one song start exactly one fetch |
| `Scenarios.SkipDuringPrefetch` | syng/sources/source.py:207-243 | a skip during a prefetch ends the fetch with neither complete nor failed set, and `play` reports the entry skipped |
| `Scenarios.SkipBeforeFetch` | syng/sources/source.py:200-290 | a skip of a never-fetched song leaves its record ready; after the client's prefetch starts the fetch, `play`'s own `buffer` returns at once, and `play` reports the entry skipped while that fetch runs on |
| `Scenarios.SkipBeforeOwnFetch` | syng/sources/source.py:200-243 | a skipped song played without prefetch is downloaded by `play`'s own `buffer` first, and only then reported skipped |
| `Scenarios.SkipBeforeFailedFetch` | syng/sources/source.py:200-237 | if that download fails, `play` drops the record and the skip stays pending for the next song |
| `Scenarios.SkipDuringOwnFetch` | syng/sources/source.py:207-215 | when `play`'s own fetch is cancelled, the skip stays pending and the next song is reported skipped |
| `Scenarios.SkipDuringPlayback` | syng/sources/source.py:245-277 | a skip during playback kills the player; on exit the reference is cleared and the entry is marked skipped |
| `Scenarios.PlayToEnd` | syng/sources/source.py:245-254 | a fetched song is played with its stored video and audio and is not marked skipped |
| `Scenarios.FailedFetch` | syng/sources/source.py:215-237 | a failed fetch makes `play` drop the record without playing or marking the entry skipped |
| `Scenarios.DoubleFetch` | syng/sources/source.py:202-236 | a failed, skipped and re-fetched song dropped by `play` while its fetch runs gets a second concurrent fetch |
| `Scenarios.CompleteAndFailed` | syng/sources/source.py:210-236 | a failed song fetched again successfully is both complete and failed, and `play` drops it |
| `Scenarios.SkipWhileStreaming` | syng/sources/youtube.py:251-260 | a skip while streaming kills the stream, the player reference is kept, and the next song is reported skipped |
| `Scenarios.BufferedYoutubePlay` | syng/sources/youtube.py:251-262 | with streaming off, a downloaded YouTube song is played from its file alone through the base `play` |

## Left out

- The asyncio machinery (lock, events, tasks, threads) is not modelled. Each
  atomic section between two awaits is a method. The order in which the
  scenarios call them stands for the waits.
- `ready` is a flag in the record, not an `asyncio.Event`. A waiter holds the
  event of the record it looked up, so it can keep waiting on the event of a
  deleted record. The model does not capture that identity.
- Process creation, `wait` and `kill` of `mpv` are not modelled. The player is
  an abstract state: none, playing, killed or exited.
- Sources.Source.SkipCurrent: a kill of a player that has already exited is a
  no-op in the model. Whether asyncio raises ProcessLookupError there is not
  modelled.
- Sources.FilterDataByQuery: takes the already split query words. The
  shell-quoting rules of `shlex.split` are not modelled.
- Text.Lower: lower-cases ASCII letters only. Python's full Unicode case
  mapping is not modelled.
- Youtube.NewYouTube: the `duration` of an extraction result is an integer. A
  `duration` that is None or a float, which yt-dlp can return and
  `get_missing_metadata` passes on, is not modelled.
- Youtube.PyInt: accepts ASCII decimal digits with optional sign and
  whitespace. Underscore separators, non-ASCII digits and float values are
  not modelled.
- Registry.ConfigureSources: constructors are total functions. A constructor
  that raises, and the insertion order of the resulting dictionary, are not
  modelled.
- The S3 source (`syng/sources/s3.py`) is not part of this model.
- `config_schema`, `get_config` and `add_to_config` are left out. They depend
  on a configuration module that is not part of this model.
- The base `Source`'s abstract `get_entry`, `search` and `do_buffer` and its
  default `get_missing_metadata` (an empty dictionary) hold no logic.
- YouTube's `search`, `_yt_search`, `_channel_search` and the
  `_contains_index` score are left out. The score relies on float division.
  `search` also builds a `Result` with a `duration` field, which `Result`
  (syng/result.py) does not have.
- The `channel` attribute, which `YouTube` sets only when no url is given, is
  not modelled.
- The `YoutubeDL` parameters (download folder, format, quietness, the 50-item
  playlist window) are not modelled. The listing and downloads they produce
  are inputs.
- Logging, `print_exc` and `print` are left out.
- syng/client.py is not part of this model. It is socket event wiring.

## Findings

| source | as written | input that shows it | evidently intended | confidence | as-written member | corrected member |
|---|---|---|---|---|---|---|
| syng/sources/youtube.py:262 | the non-streaming branch calls `super().play(entry, mpv_options)`, but the base `play` (syng/sources/source.py:222) takes only the entry | `start_streaming` off (the default), any entry | defer to the base `play` with the entry alone | high, not executed | `Youtube.DeferredPlayRaises` | `Youtube.YoutubeSource.PlayStart` |

The corrected deferral is the one the rest of the model uses:
`Scenarios.BufferedYoutubePlay` proves that with streaming off a downloaded
song is played through the base `play`.

Two further behaviours follow from the code but are not claimed as errors:

- The streaming branch neither clears the player reference nor consumes a
  pending skip (`Scenarios.SkipWhileStreaming`).
- A missing `url` key in a search hit is read by the filter outside the
  `try`. So it fails the whole search with KeyError rather than being skipped
  (`Youtube.CollectSucceeds`).
