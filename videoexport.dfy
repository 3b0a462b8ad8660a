/**
 * The module-level recording state of src/main.js as objects updated in place: the capturer, the
 * `isRecording` flag and the callbacks waiting for the next animation frame. Each method is tied to
 * its counterpart in `Recording`, where the properties of a run are proved.
 */
module VideoExport {
  import opened Wrappers
  import opened Recording

  /** What the model keeps of a `CCapture` object (src/main.js:54-67). */
  class Capturer {
    var started: bool
    var fed: nat
    var stopped: bool
    var saved: bool

    function Value(): Capture
      reads this
    {
      Capture(started, fed, stopped, saved)
    }

    /** `new CCapture({...})`: nothing captured yet. */
    constructor ()
      ensures Value() == Capture(false, 0, false, false)
    {
      started, fed, stopped, saved := false, 0, false, false;
    }

    /** `capturer.start()` (line 67). */
    method Start()
      modifies this
      ensures Value() == old(Value()).(started := true)
    {
      started := true;
    }

    /** `capturer.capture(canvas)` (line 122): one more frame fed. */
    method CaptureFrame()
      modifies this
      ensures Value() == old(Value()).(fed := old(fed) + 1)
    {
      fed := fed + 1;
    }

    /** `capturer.stop()` and `capturer.save()` (lines 88-89). */
    method StopAndSave()
      modifies this
      ensures Value() == Recording.StopAndSave(old(Value()))
    {
      stopped := true;
      saved := true;
    }
  }

  /** The recording state of the page: `isRecording`, `capturer` and the queued `checkStop` closures. */
  class Recorder {
    var isRecording: bool
    var capturer: Capturer?
    /** The `frames` counter of each `checkStop` closure queued for the next animation frame. */
    var pending: seq<nat>

    function State(): RecState
      reads this, capturer
    {
      RecState(isRecording, if capturer == null then None else Some(capturer.Value()), pending)
    }

    /** Recording implies a capturer, so the source never dereferences `null`. */
    predicate Ready()
      reads this
    {
      isRecording ==> capturer != null
    }

    /** Page load (lines 47-48): idle, no capturer, nothing queued. */
    constructor ()
      ensures Ready() && State() == Idle()
    {
      isRecording, capturer, pending := false, null, [];
    }

    /** `stopExport` (lines 86-92). */
    method StopExport()
      requires Ready()
      modifies this, capturer
      ensures Ready() && capturer == old(capturer)
      ensures State() == Recording.StopExport(old(State()))
    {
      if !isRecording {
        return;
      }
      capturer.StopAndSave();
      isRecording := false;
    }

    /** One call of a `checkStop` closure whose counter stood at `frames` (lines 74-82). */
    method CheckStop(frames: nat)
      requires Ready()
      modifies this, capturer
      ensures Ready() && capturer == old(capturer)
      ensures State() == Recording.CheckStop(old(State()), frames)
    {
      if !isRecording {
        return;
      }
      var count := frames + 1;
      if count > FrameBudget {
        StopExport();
      } else {
        pending := pending + [count];
      }
    }

    /** `startExport` (lines 50-84): a fresh started capturer and the first `checkStop`. */
    method StartExport()
      requires Ready()
      modifies this
      ensures Ready()
      ensures State() == Recording.StartExport(old(State()))
      ensures old(isRecording) ==> capturer == old(capturer)
      ensures !old(isRecording) ==> fresh(capturer)
    {
      if isRecording {
        return;
      }
      var c := new Capturer();
      c.Start();
      capturer := c;
      isRecording := true;
      CheckStop(0);
    }

    /** The capture gate of `tick` (lines 121-123). */
    method Tick()
      modifies capturer
      ensures State() == Recording.Tick(old(State()))
    {
      if isRecording && capturer != null {
        capturer.CaptureFrame();
      }
    }

    /**
     * One animation frame: `tick` first, then each `checkStop` closure queued during the previous
     * frame, in order; the closures they queue wait for the next frame.
     */
    method Frame()
      requires Ready()
      modifies this, capturer
      ensures Ready() && capturer == old(capturer)
      ensures State() == Recording.Frame(old(State()))
    {
      Tick();
      var queue := pending;
      pending := [];
      var i := 0;
      while i < |queue|
        invariant 0 <= i <= |queue|
        invariant Ready() && capturer == old(capturer)
        invariant RunAll(State(), queue[i..]) == Recording.Frame(old(State()))
      {
        assert queue[i..][1..] == queue[i + 1..];
        CheckStop(queue[i]);
        i := i + 1;
      }
    }
  }
}
