/**
 * Interleavings of the coordinator's steps that the source allows, each run
 * on a fresh source and entry. Every step is one atomic section of
 * syng/sources/source.py between two awaits; a step that follows a wait is
 * only taken once what the wait waits for holds (the `ready` latch, a fetch
 * that ended, a player that exited).
 */
module Scenarios {
  import opened Wrappers
  import opened Entries
  import opened Sources
  import opened Youtube

  /** An entry as the YouTube source creates it. */
  method NewEntry(ident: string) returns (e: Entry)
    ensures fresh(e) && e.ident == ident && !e.skip
  {
    e := YoutubeSource.GetEntry("performer", ident, None, None);
  }

  /** Two `buffer` calls for one song: the first starts the only fetch, the second returns at once. */
  method ConcurrentBuffers(ident: string) returns (first: bool, second: bool, fetches: nat)
    ensures first && !second && fetches == 1
  {
    var s := new Source([]);
    var e := NewEntry(ident);
    first := s.BufferEnter(e);
    second := s.BufferEnter(e);
    fetches := |s.tasks|;
  }

  /**
   * A prefetch is running when the song is played and then skipped: `play`'s
   * own `buffer` call returns at once and waits for `ready`; the skip cancels
   * the fetch and sets `ready`, the prefetching `buffer` call ends with the
   * cancellation, and `play` finds the record neither complete nor failed and
   * reports the entry skipped.
   */
  method SkipDuringPrefetch(ident: string) returns (outcome: PlayOutcome, complete: bool, failed: bool, skipped: bool)
    ensures outcome == Skipped && !complete && !failed && skipped
  {
    var s := new Source([]);
    var e := NewEntry(ident);
    var prefetch := s.BufferEnter(e);
    var again := s.BufferEnter(e);
    s.SkipCurrent(e);
    assert s.tasks[0].status == Cancelling;
    s.BufferCancelled(0);
    complete := s.Get(ident).complete;
    failed := s.Get(ident).failed;
    outcome := s.PlayAfterReady(e);
    skipped := e.skip;
  }

  /**
   * A song skipped before anything was fetched, then prefetched by the
   * client: the skip creates its record, already `ready`; the prefetching
   * `buffer` starts the fetch, so `play`'s own `buffer` returns at once and
   * its wait on `ready` does not block: `play` consumes the skip while that
   * fetch runs on.
   */
  method SkipBeforeFetch(ident: string)
    returns (readyBeforePlay: bool, prefetch: bool, ownBuffer: bool, outcome: PlayOutcome, fetchRunning: bool)
    ensures readyBeforePlay && prefetch && !ownBuffer && outcome == Skipped && fetchRunning
  {
    var s := new Source([]);
    var e := NewEntry(ident);
    s.SkipCurrent(e);
    readyBeforePlay := s.Get(ident).ready;
    prefetch := s.BufferEnter(e);
    ownBuffer := s.BufferEnter(e);
    outcome := s.PlayAfterReady(e);
    fetchRunning := s.tasks[0].status == Running;
  }

  /**
   * A song skipped before anything was fetched and played with no prefetch:
   * `play`'s own `buffer` starts the fetch and waits for it, and only then
   * does `play` consume the skip; the song was downloaded for nothing.
   */
  method SkipBeforeOwnFetch(ident: string) returns (started: bool, complete: bool, outcome: PlayOutcome)
    ensures started && complete && outcome == Skipped
  {
    var s := new Source([]);
    var e := NewEntry(ident);
    s.SkipCurrent(e);
    started := s.BufferEnter(e);
    s.BufferFinishOk(0, "video.mp4", None);
    complete := s.Get(ident).complete;
    outcome := s.PlayAfterReady(e);
  }

  /**
   * As before, but the fetch `play` waits for fails: `play` drops the record
   * before its skip check, so the skip stays pending for the next song.
   */
  method SkipBeforeFailedFetch(ident: string) returns (outcome: PlayOutcome, pending: bool)
    ensures outcome == Dropped && pending
  {
    var s := new Source([]);
    var e := NewEntry(ident);
    s.SkipCurrent(e);
    var started := s.BufferEnter(e);
    s.BufferFinishFail(0);
    outcome := s.PlayAfterReady(e);
    pending := s.skipNext;
  }

  /**
   * `play` started the fetch itself and the song is skipped: the cancellation
   * ends that `play` before its skip check, so the skip stays pending and the
   * next song played on this source is reported skipped.
   */
  method SkipDuringOwnFetch(ident: string, next: string) returns (pending: bool, nextOutcome: PlayOutcome)
    requires next != ident
    ensures pending && nextOutcome == Skipped
  {
    var s := new Source([]);
    var e := NewEntry(ident);
    var started := s.BufferEnter(e);
    s.SkipCurrent(e);
    s.BufferCancelled(0);
    pending := s.skipNext;
    var n := NewEntry(next);
    var startedNext := s.BufferEnter(n);
    s.BufferFinishOk(1, "video.mp4", None);
    nextOutcome := s.PlayAfterReady(n);
  }

  /**
   * A skip while the song plays kills the player; when it exits the reference
   * is cleared and the skip is consumed into `entry.skip`.
   */
  method SkipDuringPlayback(ident: string) returns (launched: PlayOutcome, killed: bool, skipped: bool, cleared: bool)
    ensures launched == Launched && killed && skipped && cleared
  {
    var s := new Source([]);
    var e := NewEntry(ident);
    var started := s.BufferEnter(e);
    s.BufferFinishOk(0, "video.mp4", Some("audio.m4a"));
    launched := s.PlayAfterReady(e);
    s.SkipCurrent(e);
    killed := s.player.Killed?;
    var exitSkipped := s.PlayerExit(e);
    skipped := e.skip && exitSkipped;
    cleared := s.player == NoPlayer && !s.skipNext;
  }

  /** A song played to its end: the player gets the stored files, and nothing is skipped. */
  method PlayToEnd(ident: string) returns (args: seq<string>, skipped: bool)
    ensures args == ["--fullscreen", "video.mp4", "--audio-file=audio.m4a"]
    ensures !skipped
  {
    var s := new Source([]);
    var e := NewEntry(ident);
    var started := s.BufferEnter(e);
    s.BufferFinishOk(0, "video.mp4", Some("audio.m4a"));
    var launched := s.PlayAfterReady(e);
    args := s.player.args;
    assert "--audio-file=" + "audio.m4a" == "--audio-file=audio.m4a";
    assert args == ["--fullscreen"] + [] + ["video.mp4"] + ["--audio-file=audio.m4a"];
    skipped := s.PlayerExit(e);
  }

  /** A failed fetch: `play` drops the record, launches nothing and does not mark the entry skipped. */
  method FailedFetch(ident: string) returns (outcome: PlayOutcome, recordKept: bool, skipped: bool, player: Player)
    ensures outcome == Dropped && !recordKept && !skipped && player == NoPlayer
  {
    var s := new Source([]);
    var e := NewEntry(ident);
    var started := s.BufferEnter(e);
    s.BufferFinishFail(0);
    outcome := s.PlayAfterReady(e);
    recordKept := ident in s.downloadedFiles;
    skipped := e.skip;
    player := s.player;
  }

  /**
   * A failed song is skipped and fetched again; a `play` of it drops the
   * record while that fetch runs, so the next `buffer` starts a second fetch
   * of the same song: two fetches of one identifier run at once, and the
   * record refers only to the second.
   */
  method DoubleFetch(ident: string) returns (fetches: nat, bothRunning: bool, recorded: Option<nat>)
    ensures fetches == 3 && bothRunning && recorded == Some(2)
  {
    var s := new Source([]);
    var e := NewEntry(ident);
    var started := s.BufferEnter(e);
    s.BufferFinishFail(0);
    s.SkipCurrent(e);
    var restarted := s.BufferEnter(e);
    var outcome := s.PlayAfterReady(e);
    var again := s.BufferEnter(e);
    fetches := |s.tasks|;
    bothRunning := s.tasks[1] == Fetch(ident, Running) && s.tasks[2] == Fetch(ident, Running);
    recorded := s.Get(ident).bufferTask;
  }

  /**
   * A failed song skipped and fetched again successfully keeps its `failed`
   * flag: the record is then both complete and failed, and `play` drops it.
   */
  method CompleteAndFailed(ident: string) returns (complete: bool, failed: bool, outcome: PlayOutcome)
    ensures complete && failed && outcome == Dropped
  {
    var s := new Source([]);
    var e := NewEntry(ident);
    var started := s.BufferEnter(e);
    s.BufferFinishFail(0);
    s.SkipCurrent(e);
    var restarted := s.BufferEnter(e);
    s.BufferFinishOk(1, "video.mp4", None);
    complete := s.Get(ident).complete;
    failed := s.Get(ident).failed;
    outcome := s.PlayAfterReady(e);
  }

  /** A song still downloading is streamed, skipped and its stream exits. */
  method StreamThenSkip(y: YoutubeSource, e: Entry) returns (streaming: bool)
    requires Truthy(y.settings.startStreaming)
    requires y.base.Valid() && y.base.downloadedFiles == map[] && y.base.tasks == [] && y.base.player == NoPlayer
    modifies y.base
    ensures streaming && y.base.player.Exited? && y.base.skipNext
    ensures y.base.Valid() && y.base.downloadedFiles.Keys == {e.ident} && |y.base.tasks| == 1
  {
    var started := y.base.BufferEnter(e);
    streaming := y.PlayStart(e, "--volume=50");
    y.base.SkipCurrent(e);
    y.StreamExit();
  }

  /**
   * With streaming on, a song still downloading is streamed; a skip kills the
   * stream, but the streaming branch neither clears the player reference nor
   * consumes the skip, so the next song is reported skipped.
   */
  method SkipWhileStreaming(ident: string, next: string)
    returns (streaming: bool, kept: Player, nextOutcome: PlayOutcome, nextSkipped: bool)
    requires next != ident
    ensures streaming && kept.Exited? && nextOutcome == Skipped && nextSkipped
  {
    var settings := ReadSettings(map["start_streaming" := VBool(true)]).value;
    var y := new YoutubeSource(settings);
    var e := NewEntry(ident);
    streaming := StreamThenSkip(y, e);
    kept := y.base.player;
    var n := NewEntry(next);
    var startedNext := y.base.BufferEnter(n);
    var ok := y.FinishDownload(1, Downloaded(Some([Some("next.mp4")])));
    var streamingNext := y.PlayStart(n, "--volume=50");
    assert y.base.skipNext && !y.base.Get(next).failed;
    nextOutcome := y.base.PlayAfterReady(n);
    nextSkipped := n.skip;
  }

  /**
   * With streaming off, a YouTube song is downloaded and then played from the
   * downloaded file alone, through the base `play`.
   */
  method BufferedYoutubePlay(ident: string) returns (streaming: bool, outcome: PlayOutcome, args: seq<string>)
    ensures !streaming && outcome == Launched && args == ["--fullscreen", "song.mp4"]
  {
    var settings := ReadSettings(map[]).value;
    var y := new YoutubeSource(settings);
    var e := NewEntry(ident);
    var started := y.base.BufferEnter(e);
    var ok := y.FinishDownload(0, Downloaded(Some([Some("song.mp4")])));
    streaming := y.PlayStart(e, "--volume=50");
    outcome := y.base.PlayAfterReady(e);
    args := y.base.player.args;
    assert args == ["--fullscreen"] + [] + ["song.mp4"];
  }
}
