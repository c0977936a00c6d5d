/**
 * The per-source buffering and playback coordinator (syng/sources/source.py).
 *
 * A source keeps one download record per song identifier, a "skip next" flag
 * and a reference to the running player. Its async operations interleave only
 * at `await` points and every check-and-set sits inside one lock section, so
 * each method of `Source` below is one atomic step between two awaits:
 *
 *   buffer         = BufferEnter, then (for the call that started the fetch)
 *                    BufferFinishOk | BufferFinishFail | BufferCancelled
 *   ensure_playable = buffer, then wait until the record's `ready` latch is set
 *   play           = ensure_playable, then PlayAfterReady, then (if it launched
 *                    the player) PlayerExit
 *   skip_current   = SkipCurrent
 *
 * The waits fix the order in which steps may follow each other (see the
 * Scenarios module); a finish step requires its fetch task to be running.
 */
module Sources {
  import opened Wrappers
  import opened Text
  import opened Entries

  // ---------------------------------------------------------------------
  // The player's command line and the query filter (pure helpers)

  /** Python truthiness of the audio location: present and non-empty. */
  predicate HasAudio(audio: Option<string>) {
    audio.Some? && audio.value != ""
  }

  /**
   * `play_mpv`'s argument list: full screen, then the options in order, then
   * the video, then `--audio-file=<audio>` only when there is an audio file.
   */
  function MpvArgs(video: string, audio: Option<string>, options: seq<string>): (args: seq<string>)
    ensures |args| == |options| + 2 + (if HasAudio(audio) then 1 else 0)
    ensures args[0] == "--fullscreen"
    ensures args[1..|options| + 1] == options
    ensures args[|options| + 1] == video
    ensures HasAudio(audio) ==> args[|options| + 2] == "--audio-file=" + audio.value
  {
    ["--fullscreen"] + options + [video]
      + (if HasAudio(audio) then ["--audio-file=" + audio.value] else [])
  }

  /** `contains_all_words`: every word occurs in the element's base name, ignoring case. */
  function ContainsAllWords(words: seq<string>, element: string): (b: bool)
    ensures b <==> forall w :: w in words ==> Contains(Lower(Basename(element)), Lower(w))
  {
    if words == [] then true
    else if !Contains(Lower(Basename(element)), Lower(words[0])) then false
    else ContainsAllWords(words[1..], element)
  }

  /**
   * `filter_data_by_query` on the already split query words: the elements of
   * `data` that contain all words, each as often as in `data`.
   */
  function FilterDataByQuery(words: seq<string>, data: seq<string>): (kept: seq<string>)
    ensures forall e :: e in kept <==> e in data && ContainsAllWords(words, e)
    ensures forall e :: multiset(kept)[e] == if ContainsAllWords(words, e) then multiset(data)[e] else 0
  {
    if data == [] then []
    else
      var rest := FilterDataByQuery(words, data[1..]);
      assert data == [data[0]] + data[1..];
      assert multiset(data) == multiset{data[0]} + multiset(data[1..]);
      if ContainsAllWords(words, data[0]) then [data[0]] + rest else rest
  }

  /** `a` is `b` with some elements left out, the rest in the same order. */
  ghost predicate IsSubsequence(a: seq<string>, b: seq<string>)
    decreases |b|
  {
    if a == [] then true
    else if b == [] then false
    else (a[0] == b[0] && IsSubsequence(a[1..], b[1..])) || IsSubsequence(a, b[1..])
  }

  /** The filter keeps the input order. */
  lemma {:induction false} FilterKeepsOrder(words: seq<string>, data: seq<string>)
    ensures IsSubsequence(FilterDataByQuery(words, data), data)
  {
    if data != [] {
      FilterKeepsOrder(words, data[1..]);
    }
  }

  /** An empty query keeps everything. */
  lemma {:induction false} EmptyQueryKeepsAll(data: seq<string>)
    ensures FilterDataByQuery([], data) == data
  {
    if data != [] {
      EmptyQueryKeepsAll(data[1..]);
    }
  }

  // ---------------------------------------------------------------------
  // Coordinator state

  /** State of an asyncio task running `do_buffer`. */
  datatype TaskStatus =
    | Running      // fetching
    | Cancelling   // `cancel()` was called; CancelledError is still to be delivered
    | Done         // finished, with a result, an exception or a delivered cancellation

  /** A fetch task and the identifier it buffers. */
  datatype Fetch = Fetch(ident: string, status: TaskStatus)

  /** `task.cancel()`: a running task gets a pending cancellation; a finished one is unaffected. */
  function Cancel(f: Fetch): Fetch {
    if f.status == Running then f.(status := Cancelling) else f
  }

  /** `DLFilesEntry`: what a source knows about one identifier; `bufferTask` indexes the source's tasks. */
  datatype DLFilesEntry = DLFilesEntry(
    ready: bool,
    video: string,
    audio: Option<string>,
    buffering: bool,
    complete: bool,
    failed: bool,
    skip: bool,
    bufferTask: Option<nat>)

  /** The record a never-seen identifier gets. */
  const DefaultRecord := DLFilesEntry(false, "", None, false, false, false, false, None)

  /** The `mpv` process a source refers to, with the arguments it was started with. */
  datatype Player =
    | NoPlayer                   // `player is None`
    | Playing(args: seq<string>)
    | Killed(args: seq<string>)  // `kill()` was sent, the process has not been awaited yet
    | Exited(args: seq<string>)  // it ended and was awaited, but the reference was kept

  /** `player.kill()` on the referenced process. */
  function Kill(p: Player): Player {
    if p.Playing? then Killed(p.args) else p
  }

  /** How `play` went on once the song was ready. */
  datatype PlayOutcome = Dropped | Skipped | Launched

  /** `ready`, `complete` and `failed` are never cleared while a record exists. */
  ghost predicate LatchesKept(before: map<string, DLFilesEntry>, after: map<string, DLFilesEntry>) {
    forall id :: id in before && id in after ==>
      && (before[id].ready ==> after[id].ready)
      && (before[id].complete ==> after[id].complete)
      && (before[id].failed ==> after[id].failed)
  }

  /**
   * A record is well formed: its task buffers its identifier and, once that
   * task has stopped running, the record is ready; a record that is
   * buffering but not ready has a task.
   */
  ghost predicate RecordOk(tasks: seq<Fetch>, ident: string, r: DLFilesEntry) {
    && (r.bufferTask.Some? ==>
          && r.bufferTask.value < |tasks|
          && tasks[r.bufferTask.value].ident == ident
          && (tasks[r.bufferTask.value].status != Running ==> r.ready))
    && (r.buffering && !r.ready ==> r.bufferTask.Some?)
  }

  ghost predicate RecordsOk(files: map<string, DLFilesEntry>, tasks: seq<Fetch>) {
    forall ident :: ident in files ==> RecordOk(tasks, ident, files[ident])
  }

  /**
   * Single flight: every running fetch is the one its identifier's record
   * refers to, and that record is marked buffering. So no identifier has two
   * running fetches (see Source.AtMostOneFetch).
   */
  ghost predicate SingleFlightIn(files: map<string, DLFilesEntry>, tasks: seq<Fetch>) {
    forall t :: 0 <= t < |tasks| && tasks[t].status == Running ==>
      && tasks[t].ident in files
      && files[tasks[t].ident].bufferTask == Some(t)
      && files[tasks[t].ident].buffering
  }

  /**
   * A skip of `id` (record `r`) keeps the records well formed and keeps single
   * flight: it cancels only the record's own task and makes the record ready.
   */
  lemma SkipKeepsInvariants(files: map<string, DLFilesEntry>, tasks: seq<Fetch>, id: string, r: DLFilesEntry)
    requires RecordsOk(files, tasks)
    requires r == if id in files then files[id] else DefaultRecord
    ensures var tasks1 := if r.bufferTask.Some? then tasks[r.bufferTask.value := Cancel(tasks[r.bufferTask.value])] else tasks;
            var files1 := files[id := r.(buffering := false, ready := true)];
      && RecordsOk(files1, tasks1)
      && (SingleFlightIn(files, tasks) ==> SingleFlightIn(files1, tasks1))
  {
    var tasks1 := if r.bufferTask.Some? then tasks[r.bufferTask.value := Cancel(tasks[r.bufferTask.value])] else tasks;
    var files1 := files[id := r.(buffering := false, ready := true)];
    assert RecordOk(tasks, id, r);
    forall other | other in files1 && other != id
      ensures RecordOk(tasks1, other, files1[other])
    {
      assert RecordOk(tasks, other, files[other]);
    }
    assert RecordOk(tasks1, id, files1[id]);
    if SingleFlightIn(files, tasks) {
      forall t | 0 <= t < |tasks1| && tasks1[t].status == Running
        ensures tasks1[t].ident in files1 && files1[tasks1[t].ident].bufferTask == Some(t)
        ensures files1[tasks1[t].ident].buffering
      {
        assert tasks[t] == tasks1[t];
        assert r.bufferTask != Some(t);
      }
    }
  }

  class Source {
    /** `downloaded_files`, a defaultdict: see Get. */
    var downloadedFiles: map<string, DLFilesEntry>
    /** `player`. */
    var player: Player
    /** `extra_mpv_arguments`, fixed by the concrete source. */
    const extraMpvArguments: seq<string>
    /** `_skip_next`. */
    var skipNext: bool
    /** The fetch tasks this source has created, in creation order. */
    var tasks: seq<Fetch>

    constructor (extraMpvArguments: seq<string>)
      ensures this.extraMpvArguments == extraMpvArguments
      ensures downloadedFiles == map[] && player == NoPlayer && !skipNext && tasks == []
      ensures Valid() && SingleFlight()
    {
      this.extraMpvArguments := extraMpvArguments;
      downloadedFiles := map[];
      player := NoPlayer;
      skipNext := false;
      tasks := [];
    }

    /** `downloaded_files[ident]`: the stored record, or a default one for a never-seen identifier. */
    function Get(ident: string): (r: DLFilesEntry)
      reads this
      ensures ident in downloadedFiles ==> r == downloadedFiles[ident]
      ensures ident !in downloadedFiles ==>
        !r.ready && !r.buffering && !r.complete && !r.failed && !r.skip
        && r.video == "" && r.audio == None && r.bufferTask == None
    {
      if ident in downloadedFiles then downloadedFiles[ident] else DefaultRecord
    }

    /** Every record is well formed (see RecordOk). */
    ghost predicate Valid()
      reads this
    {
      RecordsOk(downloadedFiles, tasks)
    }

    /** The fetch recorded for `ident` is still running. */
    ghost predicate FetchRunning(ident: string)
      reads this
    {
      var r := Get(ident);
      r.bufferTask.Some? && r.bufferTask.value < |tasks| && tasks[r.bufferTask.value].status == Running
    }

    /** Single flight holds of the records and tasks (see SingleFlightIn). */
    ghost predicate SingleFlight()
      reads this
    {
      SingleFlightIn(downloadedFiles, tasks)
    }

    /** Under single flight, two running fetches of one identifier are the same task. */
    lemma AtMostOneFetch(t1: nat, t2: nat)
      requires SingleFlight()
      requires t1 < |tasks| && t2 < |tasks|
      requires tasks[t1].status == Running && tasks[t2].status == Running
      requires tasks[t1].ident == tasks[t2].ident
      ensures t1 == t2
    {
    }

    /**
     * A caller of `ensure_playable` waits on a record that is buffering and not
     * ready only while that record's fetch is running, whose end (or a skip)
     * sets `ready`.
     */
    lemma WaitIsBacked(ident: string)
      requires Valid()
      requires Get(ident).buffering && !Get(ident).ready
      ensures FetchRunning(ident)
    {
    }

    /**
     * `buffer`, up to its await of the fetch: under the lock, an identifier
     * already buffering is left alone; otherwise it is marked buffering and a
     * new fetch task is started and recorded.
     */
    method BufferEnter(entry: Entry) returns (started: bool)
      requires Valid()
      modifies this
      ensures Valid()
      ensures started <==> !old(Get(entry.ident)).buffering
      ensures started ==>
        && tasks == old(tasks) + [Fetch(entry.ident, Running)]
        && downloadedFiles == old(downloadedFiles)[entry.ident :=
             old(Get(entry.ident)).(buffering := true, bufferTask := Some(|old(tasks)|))]
      ensures !started ==> tasks == old(tasks) && downloadedFiles == old(downloadedFiles)
      ensures player == old(player) && skipNext == old(skipNext)
      ensures old(SingleFlight()) ==> SingleFlight()
      ensures LatchesKept(old(downloadedFiles), downloadedFiles)
    {
      var record := Get(entry.ident);
      if record.buffering {
        return false;
      }
      var t := |tasks|;
      tasks := tasks + [Fetch(entry.ident, Running)];
      downloadedFiles := downloadedFiles[entry.ident := record.(buffering := true, bufferTask := Some(t))];
      started := true;
    }

    /**
     * `buffer` after its fetch returned `(video, audio)`: the locations are
     * stored, the record is complete and ready. `buffering` stays set.
     */
    method BufferFinishOk(t: nat, video: string, audio: Option<string>)
      requires Valid()
      requires t < |tasks| && tasks[t].status == Running
      modifies this
      ensures Valid()
      ensures tasks == old(tasks)[t := Fetch(old(tasks)[t].ident, Done)]
      ensures var id := old(tasks)[t].ident;
        downloadedFiles == old(downloadedFiles)[id :=
          old(Get(id)).(video := video, audio := audio, complete := true, ready := true)]
      ensures player == old(player) && skipNext == old(skipNext)
      ensures old(SingleFlight()) ==> SingleFlight()
      ensures LatchesKept(old(downloadedFiles), downloadedFiles)
    {
      var id := tasks[t].ident;
      tasks := tasks[t := Fetch(id, Done)];
      downloadedFiles := downloadedFiles[id :=
        Get(id).(video := video, audio := audio, complete := true, ready := true)];
    }

    /**
     * `buffer` after its fetch raised an `Exception`: the record is failed
     * and ready, not complete. `buffering` stays set.
     */
    method BufferFinishFail(t: nat)
      requires Valid()
      requires t < |tasks| && tasks[t].status == Running
      modifies this
      ensures Valid()
      ensures tasks == old(tasks)[t := Fetch(old(tasks)[t].ident, Done)]
      ensures var id := old(tasks)[t].ident;
        downloadedFiles == old(downloadedFiles)[id := old(Get(id)).(failed := true, ready := true)]
      ensures player == old(player) && skipNext == old(skipNext)
      ensures old(SingleFlight()) ==> SingleFlight()
      ensures LatchesKept(old(downloadedFiles), downloadedFiles)
    {
      var id := tasks[t].ident;
      tasks := tasks[t := Fetch(id, Done)];
      downloadedFiles := downloadedFiles[id := Get(id).(failed := true, ready := true)];
    }

    /**
     * `buffer` after its cancelled fetch delivered CancelledError: that is not
     * an `Exception`, so nothing is recorded (neither complete nor failed, and
     * `ready` is not set here) and the error propagates to `buffer`'s caller.
     */
    method BufferCancelled(t: nat)
      requires Valid()
      requires t < |tasks| && tasks[t].status == Cancelling
      modifies this
      ensures Valid()
      ensures tasks == old(tasks)[t := Fetch(old(tasks)[t].ident, Done)]
      ensures downloadedFiles == old(downloadedFiles)
      ensures player == old(player) && skipNext == old(skipNext)
      ensures old(SingleFlight()) ==> SingleFlight()
    {
      tasks := tasks[t := tasks[t].(status := Done)];
    }

    /**
     * `skip_current`: sets the skip flag, clears `buffering` of the entry's
     * record, cancels its fetch task if it has one, sets its `ready` latch and
     * kills the player if there is one. Other records are unchanged.
     */
    method SkipCurrent(entry: Entry)
      requires Valid()
      modifies this
      ensures Valid()
      ensures skipNext
      ensures var id := entry.ident;
        downloadedFiles == old(downloadedFiles)[id := old(Get(id)).(buffering := false, ready := true)]
      ensures var task := old(Get(entry.ident)).bufferTask;
        tasks == if task.Some? then old(tasks)[task.value := Cancel(old(tasks)[task.value])] else old(tasks)
      ensures player == Kill(old(player))
      ensures old(SingleFlight()) ==> SingleFlight()
      ensures LatchesKept(old(downloadedFiles), downloadedFiles)
    {
      skipNext := true;
      var record := Get(entry.ident);
      SkipKeepsInvariants(downloadedFiles, tasks, entry.ident, record);
      if record.bufferTask.Some? {
        var t := record.bufferTask.value;
        tasks := tasks[t := Cancel(tasks[t])];
      }
      downloadedFiles := downloadedFiles[entry.ident := record.(buffering := false, ready := true)];
      if player != NoPlayer {
        player := Kill(player);
      }
    }

    /**
     * `play` once `ensure_playable` returned: a failed song's record is deleted
     * and nothing is played; otherwise, under the lock, a pending skip is
     * consumed and marks the entry skipped; otherwise the player is started on
     * the record's video and audio with the extra arguments. Reading the record
     * through the defaultdict stores a default one for a missing identifier.
     * `ensure_playable` returns only once the record's `ready` latch is set.
     */
    method PlayAfterReady(entry: Entry) returns (outcome: PlayOutcome)
      requires Valid()
      requires Get(entry.ident).ready
      modifies this, entry
      ensures Valid()
      ensures tasks == old(tasks)
      ensures outcome == Dropped <==> old(Get(entry.ident)).failed
      ensures outcome == Skipped <==> !old(Get(entry.ident)).failed && old(skipNext)
      ensures outcome == Dropped ==>
        && downloadedFiles == old(downloadedFiles) - {entry.ident}
        && skipNext == old(skipNext) && player == old(player) && entry.skip == old(entry.skip)
      ensures outcome != Dropped ==>
        downloadedFiles == old(downloadedFiles)[entry.ident := old(Get(entry.ident))]
      ensures outcome == Skipped ==> !skipNext && player == old(player) && entry.skip
      ensures outcome == Launched ==>
        && !skipNext && entry.skip == old(entry.skip)
        && player == Playing(MpvArgs(old(Get(entry.ident)).video, old(Get(entry.ident)).audio, extraMpvArguments))
      ensures old(SingleFlight()) && (outcome != Dropped || !old(FetchRunning(entry.ident))) ==> SingleFlight()
      ensures LatchesKept(old(downloadedFiles), downloadedFiles)
    {
      var record := Get(entry.ident);
      if record.failed {
        downloadedFiles := downloadedFiles - {entry.ident};
        return Dropped;
      }
      downloadedFiles := downloadedFiles[entry.ident := record];
      if skipNext {
        skipNext := false;
        entry.skip := true;
        return Skipped;
      }
      player := Playing(MpvArgs(record.video, record.audio, extraMpvArguments));
      outcome := Launched;
    }

    /**
     * The end of `play`: the player process exited (on its own or killed), the
     * reference is cleared, and a skip that arrived meanwhile is consumed and
     * marks the entry skipped.
     */
    method PlayerExit(entry: Entry) returns (skipped: bool)
      requires Valid()
      requires player.Playing? || player.Killed?
      modifies this, entry
      ensures Valid()
      ensures player == NoPlayer
      ensures skipped == old(skipNext) && !skipNext
      ensures entry.skip == (old(entry.skip) || old(skipNext))
      ensures downloadedFiles == old(downloadedFiles) && tasks == old(tasks)
      ensures old(SingleFlight()) ==> SingleFlight()
    {
      player := NoPlayer;
      skipped := skipNext;
      if skipNext {
        skipNext := false;
        entry.skip := true;
      }
    }
  }
}
