/**
 * The video-export state of src/main.js:47-92 and the capture gate of `tick` (lines 121-123), as
 * values: the `isRecording` flag, the capturer (absent until the first export) and the queue of
 * `checkStop` closures waiting for the next animation frame, each holding its own `frames` counter.
 */
module Recording {
  import opened Wrappers

  /** A run stops once its counter exceeds this many frames (line 77). */
  const FrameBudget: nat := 300

  /** What the model keeps of a `CCapture` object: started, frames fed, stopped, saved. */
  datatype Capture = Capture(started: bool, fed: nat, stopped: bool, saved: bool)

  /** `isRecording`, `capturer` and the pending `checkStop` closures, in callback order. */
  datatype RecState = RecState(recording: bool, capturer: Option<Capture>, pending: seq<nat>)

  /** The module state when the page loads (lines 47-48), the first reachable state. */
  function Idle(): (s: RecState)
    ensures Reachable(s)
  {
    RecState(false, None, [])
  }

  /** A capturer that has just been constructed and started (lines 54-67). */
  function Started(): Capture {
    Capture(true, 0, false, false)
  }

  /** `capturer.stop()` followed by `capturer.save()` (lines 88-89). */
  function StopAndSave(c: Capture): (d: Capture)
    ensures d.stopped && d.saved
    ensures d.started == c.started && d.fed == c.fed
  {
    c.(stopped := true, saved := true)
  }

  /** The state the source needs to run without a null dereference: recording implies a capturer. */
  predicate Consistent(s: RecState) {
    s.recording ==> s.capturer.Some?
  }

  /**
   * `stopExport` (lines 86-92): nothing when idle; otherwise the capturer is stopped and saved and
   * the flag is cleared.
   */
  function StopExport(s: RecState): (t: RecState)
    requires Consistent(s)
    ensures !t.recording
    ensures !s.recording ==> t == s
    ensures s.recording ==> t == RecState(false, Some(StopAndSave(s.capturer.value)), s.pending)
  {
    if !s.recording then s
    else s.(capturer := Some(StopAndSave(s.capturer.value)), recording := false)
  }

  /**
   * One call of a `checkStop` closure whose counter stood at `frames` (lines 74-82): nothing when
   * idle; otherwise the counter goes up, and the run stops when it passes the budget, or the
   * closure queues itself again with the new count.
   */
  function CheckStop(s: RecState, frames: nat): (t: RecState)
    requires Consistent(s)
    ensures Consistent(t)
    ensures !s.recording ==> t == s
    ensures s.recording && frames + 1 > FrameBudget ==> t == StopExport(s)
    ensures s.recording && frames + 1 <= FrameBudget ==>
      t.recording && t.capturer == s.capturer && t.pending == s.pending + [frames + 1]
  {
    if !s.recording then s
    else
      var count := frames + 1;
      if count > FrameBudget then StopExport(s)
      else s.(pending := s.pending + [count])
  }

  /**
   * `startExport` (lines 50-84): nothing while recording; otherwise a fresh started capturer, the
   * flag set, and the first `checkStop` of a new closure whose counter starts at zero.
   */
  function StartExport(s: RecState): (t: RecState)
    requires Consistent(s)
    ensures Consistent(t)
    ensures s.recording ==> t == s
    ensures !s.recording ==> t == RecState(true, Some(Started()), s.pending + [1])
  {
    if s.recording then s
    else CheckStop(s.(capturer := Some(Started()), recording := true), 0)
  }

  /** Whether `tick` hands the canvas to the capturer (line 121). */
  predicate Feeds(s: RecState) {
    s.recording && s.capturer.Some?
  }

  /** The capture gate of `tick` (lines 121-123). */
  function Tick(s: RecState): (t: RecState)
    ensures Feeds(s) ==> t == s.(capturer := Some(s.capturer.value.(fed := s.capturer.value.fed + 1)))
    ensures !Feeds(s) ==> t == s
  {
    if Feeds(s) then
      s.(capturer := Some(s.capturer.value.(fed := s.capturer.value.fed + 1)))
    else s
  }

  /** The queued `checkStop` closures with counters `queue`, run one after another. */
  function RunAll(s: RecState, queue: seq<nat>): RecState
    requires Consistent(s)
    ensures Consistent(RunAll(s, queue))
    decreases |queue|
  {
    if queue == [] then s else RunAll(CheckStop(s, queue[0]), queue[1..])
  }

  /**
   * One animation frame: `tick` was queued before any `checkStop`, so the capture gate runs first,
   * then every closure queued during the previous frame; closures they queue wait for the next one.
   */
  function Frame(s: RecState): (t: RecState)
    requires Consistent(s)
    ensures Consistent(t)
  {
    RunAll(Tick(s).(pending := []), s.pending)
  }

  /** `n` animation frames. */
  function Frames(s: RecState, n: nat): RecState
    requires Consistent(s)
    decreases n
  {
    if n == 0 then s else Frames(Frame(s), n - 1)
  }

  /**
   * The states reachable from `Idle()` by `startExport` and frames: while recording, exactly one
   * closure waits, and its counter is one more than the frames fed so far, within the budget; when
   * idle, nothing waits and any capturer has been stopped and saved after a full run.
   */
  predicate Reachable(s: RecState) {
    && Consistent(s)
    && (s.recording ==>
          && s.capturer.value.started && !s.capturer.value.stopped && !s.capturer.value.saved
          && s.capturer.value.fed < FrameBudget
          && s.pending == [s.capturer.value.fed + 1])
    && (!s.recording ==>
          && s.pending == []
          && (s.capturer.Some? ==> s.capturer.value == Capture(true, FrameBudget, true, true)))
  }

  /** `startExport` keeps the reachable states reachable. */
  lemma StartExportReachable(s: RecState)
    requires Reachable(s)
    ensures Reachable(StartExport(s))
  {
  }

  /** An animation frame keeps the reachable states reachable. */
  lemma FrameReachable(s: RecState)
    requires Reachable(s)
    ensures Reachable(Frame(s))
  {
    if s.recording {
      var c := s.capturer.value;
      var t := Tick(s).(pending := []);
      assert t.capturer == Some(c.(fed := c.fed + 1));
      assert RunAll(t, s.pending) == RunAll(CheckStop(t, c.fed + 1), []);
    } else {
      assert Frame(s) == Tick(s).(pending := []);
    }
  }

  /** From a reachable recording state, one frame feeds one frame and moves the counter on. */
  lemma FrameStep(s: RecState)
    requires Reachable(s) && s.recording
    ensures var fed := s.capturer.value.fed + 1;
      Frame(s) == if fed < FrameBudget then RecState(true, Some(Capture(true, fed, false, false)), [fed + 1])
                  else RecState(false, Some(Capture(true, FrameBudget, true, true)), [])
  {
    var c := s.capturer.value;
    var t := Tick(s).(pending := []);
    assert RunAll(t, s.pending) == RunAll(CheckStop(t, c.fed + 1), []);
  }

  /**
   * A run started from an idle reachable state records while its closure has made at most 300
   * calls: after `n < 300` frames it is still recording, `n` frames have been fed, and the counter
   * stands at `n + 1`.
   */
  lemma {:induction false} RunInProgress(s: RecState, n: nat)
    requires Reachable(s) && !s.recording && n < FrameBudget
    ensures Frames(StartExport(s), n) == RecState(true, Some(Capture(true, n, false, false)), [n + 1])
  {
    if n == 0 {
    } else {
      RunInProgress(s, n - 1);
      FramesSplit(StartExport(s), n - 1);
      FrameStep(Frames(StartExport(s), n - 1));
    }
  }

  /**
   * The run ends on the 301st call of its closure, in frame 300: the capturer is stopped and saved
   * with exactly 300 frames fed, and nothing is left waiting.
   */
  lemma RunEnds(s: RecState)
    requires Reachable(s) && !s.recording
    ensures Frames(StartExport(s), FrameBudget) == RecState(false, Some(Capture(true, FrameBudget, true, true)), [])
  {
    RunInProgress(s, FrameBudget - 1);
    FramesSplit(StartExport(s), FrameBudget - 1);
    FrameStep(Frames(StartExport(s), FrameBudget - 1));
  }

  /** Once the run has ended, further frames change nothing. */
  lemma {:induction false} IdleStaysIdle(s: RecState, n: nat)
    requires Reachable(s) && !s.recording
    ensures Frames(s, n) == s
    decreases n
  {
    if n > 0 {
      assert Frame(s) == s;
      IdleStaysIdle(s, n - 1);
    }
  }

  /** `n + 1` frames are `n` frames and then one more. */
  lemma {:induction false} FramesSplit(s: RecState, n: nat)
    requires Consistent(s)
    ensures Consistent(Frames(s, n))
    ensures Frames(s, n + 1) == Frame(Frames(s, n))
    decreases n
  {
    if n > 0 {
      FramesSplit(Frame(s), n - 1);
    }
  }

  /**
   * A frame with two queued closures, the older counter `a` first: the gate feeds one frame, then
   * the older closure either stops the run (and the younger one finds it idle) or both re-queue.
   */
  lemma TwoClosureFrame(fed: nat, a: nat, b: nat)
    requires b <= a
    ensures var s := RecState(true, Some(Capture(true, fed, false, false)), [a, b]);
      Frame(s) == if a + 1 > FrameBudget then RecState(false, Some(Capture(true, fed + 1, true, true)), [])
                  else RecState(true, Some(Capture(true, fed + 1, false, false)), [a + 1, b + 1])
  {
    var s := RecState(true, Some(Capture(true, fed, false, false)), [a, b]);
    var t := Tick(s).(pending := []);
    assert [a, b][1..] == [b];
    assert RunAll(t, [a, b]) == RunAll(CheckStop(t, a), [b]);
    assert RunAll(CheckStop(t, a), [b]) == RunAll(CheckStop(CheckStop(t, a), b), []);
  }

  /**
   * A revived run whose older closure started at `f + 1`: after `k` frames with the older counter
   * still within the budget, both closures are queued, `k` frames apart from their starts.
   */
  lemma {:induction false} RevivedRun(f: nat, k: nat)
    requires f + 1 + k <= FrameBudget
    ensures Frames(RecState(true, Some(Started()), [f + 1, 1]), k)
         == RecState(true, Some(Capture(true, k, false, false)), [f + 1 + k, 1 + k])
    decreases k
  {
    if k > 0 {
      var s := RecState(true, Some(Started()), [f + 1, 1]);
      RevivedRun(f, k - 1);
      FramesSplit(s, k - 1);
      TwoClosureFrame(k - 1, f + k, k);
    }
  }

  /**
   * Stale closures: `stopExport` called from outside a `checkStop` while `f` frames are fed leaves
   * the closure queued, and a second `startExport` before the next frame revives it, so the new run
   * has two counters. The older one passes the budget first: after `300 - f` frames the new run is
   * stopped and saved with only `300 - f` frames, and nothing is left waiting.
   */
  lemma StaleClosureStopsEarly(s: RecState)
    requires Reachable(s) && s.recording
    ensures var f := s.capturer.value.fed;
      var t := StartExport(StopExport(s));
      && t.pending == [f + 1, 1]
      && Frames(t, FrameBudget - f) == RecState(false, Some(Capture(true, FrameBudget - f, true, true)), [])
  {
    var f := s.capturer.value.fed;
    var t := StartExport(StopExport(s));
    assert t == RecState(true, Some(Started()), [f + 1, 1]);
    var k := FrameBudget - f - 1;
    RevivedRun(f, k);
    FramesSplit(t, k);
    TwoClosureFrame(k, f + 1 + k, 1 + k);
  }
}
