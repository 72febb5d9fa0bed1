/**
 * The face-reading ritual: a detector that walks through three head movements in a fixed order,
 * and the capture screen's phases around it. The camera, ARKit and the float thresholds are left
 * out; each frame arrives as the three conditions it meets.
 */
module FaceRitual {
  /** `FaceRitualStep`, in its raw order. */
  datatype Step = OpenMouth | TurnLeft | TurnRight

  const StepCount: nat := 3

  function Raw(s: Step): (r: nat)
    ensures r < StepCount
  {
    match s
    case OpenMouth => 0
    case TurnLeft => 1
    case TurnRight => 2
  }

  /** The step whose raw value is `i`. */
  function StepAt(i: nat): (s: Step)
    requires i < StepCount
    ensures Raw(s) == i
  {
    if i == 0 then OpenMouth else if i == 1 then TurnLeft else TurnRight
  }

  /**
   * One ARKit frame, reduced to the conditions `consume` tests: the jaw open past its threshold,
   * the yaw past the left threshold, the yaw past the right one.
   */
  datatype Frame = Frame(jawOpen: bool, yawLeft: bool, yawRight: bool)

  /** The condition of one step. */
  predicate Met(s: Step, f: Frame) {
    match s
    case OpenMouth => f.jawOpen
    case TurnLeft => f.yawLeft
    case TurnRight => f.yawRight
  }

  /** The number of true flags: `doneSteps.filter { $0 }.count`. */
  function Trues(flags: seq<bool>): (r: nat)
    ensures r <= |flags|
  {
    if flags == [] then 0 else Trues(flags[..|flags| - 1]) + (if flags[|flags| - 1] then 1 else 0)
  }

  /** The detector's fields. */
  datatype Detector = Detector(completedStepCount: int, doneSteps: seq<bool>, isRunning: bool, currentStep: int)

  /** The steps done so far are exactly the ones before the current step. */
  predicate Valid(d: Detector) {
    && |d.doneSteps| == StepCount
    && 0 <= d.currentStep <= StepCount
    && d.completedStepCount == d.currentStep
    && forall i :: 0 <= i < StepCount ==> (d.doneSteps[i] <==> i < d.currentStep)
  }

  const NoSteps: seq<bool> := [false, false, false]

  /** `stepDone`: the flag of a step, false when the flags are too short. */
  function StepDone(d: Detector, s: Step): (r: bool)
    ensures r <==> Raw(s) < |d.doneSteps| && d.doneSteps[Raw(s)]
  {
    if Raw(s) < |d.doneSteps| then d.doneSteps[Raw(s)] else false
  }

  /** `resetSteps`: back to the first step with no flag set. */
  function Reset(d: Detector): Detector {
    d.(currentStep := 0, completedStepCount := 0, doneSteps := NoSteps)
  }

  /** `start`: fails on an unsupported device, otherwise resets the steps and runs. */
  function Started(d: Detector, supported: bool): Detector {
    if !supported then d else Reset(d).(isRunning := true)
  }

  /** `stop`. */
  function Stopped(d: Detector): Detector {
    d.(isRunning := false)
  }

  /** `mark`: a step not yet done is flagged, the current step advances and the count is redone. */
  function Marked(d: Detector, s: Step): Detector {
    if Raw(s) >= |d.doneSteps| || d.doneSteps[Raw(s)] then d
    else
      var flags := d.doneSteps[Raw(s) := true];
      d.(doneSteps := flags, currentStep := d.currentStep + 1, completedStepCount := Trues(flags))
  }

  /** `consume`: only the current step's condition is looked at. */
  function Consumed(d: Detector, f: Frame): Detector {
    if !d.isRunning || d.currentStep < 0 || d.currentStep >= StepCount then d
    else if Met(StepAt(d.currentStep), f) then Marked(d, StepAt(d.currentStep))
    else d
  }

  /** Setting one false flag adds one to the count. */
  lemma {:induction false} TruesSet(flags: seq<bool>, i: nat)
    requires i < |flags| && !flags[i]
    ensures Trues(flags[i := true]) == Trues(flags) + 1
  {
    var n := |flags| - 1;
    var g := flags[i := true];
    assert g[..n] == if i == n then flags[..n] else flags[..n][i := true];
    if i < n {
      TruesSet(flags[..n], i);
    }
  }

  /** The count of a valid detector is the number of flags set, and at most three. */
  lemma CountIsFlags(d: Detector)
    requires Valid(d)
    ensures d.completedStepCount == Trues(d.doneSteps) <= StepCount
  {
    var f := d.doneSteps;
    assert f[..1][..0] == [];
    assert Trues(f[..1]) == if f[0] then 1 else 0;
    assert f[..2][..1] == f[..1];
    assert Trues(f[..2]) == Trues(f[..1]) + (if f[1] then 1 else 0);
    assert f[..2] == f[..|f| - 1];
    assert Trues(f) == Trues(f[..2]) + (if f[2] then 1 else 0);
  }

  /** A reset flags nothing, and keeps the detector running or not. */
  lemma ResetValid(d: Detector)
    ensures Valid(Reset(d)) && Trues(Reset(d).doneSteps) == 0
    ensures Reset(d).isRunning == d.isRunning
  {
    CountIsFlags(Reset(d));
  }

  /** A consumed frame keeps the detector valid. */
  lemma ConsumedValid(d: Detector, f: Frame)
    requires Valid(d)
    ensures Valid(Consumed(d, f))
  {
    var c := Consumed(d, f);
    if c != d {
      TruesSet(d.doneSteps, d.currentStep);
      CountIsFlags(d);
    }
  }

  /**
   * Steps complete strictly in order: a frame either changes nothing or completes exactly the
   * current step, whose condition it meets, and only while running with a step left.
   */
  lemma ConsumedOrder(d: Detector, f: Frame)
    requires Valid(d)
    ensures var c := Consumed(d, f);
      || c == d
      || (&& d.isRunning && d.currentStep < StepCount
          && Met(StepAt(d.currentStep), f)
          && c == d.(doneSteps := d.doneSteps[d.currentStep := true],
                     currentStep := d.currentStep + 1,
                     completedStepCount := d.completedStepCount + 1))
    ensures !d.isRunning || d.currentStep == StepCount ==> Consumed(d, f) == d
  {
    if Consumed(d, f) != d {
      TruesSet(d.doneSteps, d.currentStep);
      CountIsFlags(d);
    }
  }

  /** A step is only done after every step before it. */
  lemma DoneInOrder(d: Detector, earlier: Step, later: Step)
    requires Valid(d) && Raw(earlier) < Raw(later) && StepDone(d, later)
    ensures StepDone(d, earlier)
  {
  }

  /** `mark` fires at most once per step. */
  lemma MarkedOnce(d: Detector, s: Step)
    ensures Marked(Marked(d, s), s) == Marked(d, s)
  {
  }

  /** `FaceRitualPhase`. */
  datatype Phase = Ready | Loading | Recognizing | Activated | Opening

  /** `actionDisabled`: the button works only in the ready phase. */
  predicate ActionDisabled(p: Phase) {
    match p
    case Ready => false
    case Loading => true
    case Recognizing => true
    case Activated => true
    case Opening => true
  }

  const TimeLimit: int := 60

  /** The screen's state: its own fields and the detector's. */
  datatype Screen = Screen(
    phase: Phase,
    remainingSeconds: int,
    crackProgress: real,
    timerActive: bool,
    permissionAlert: bool,
    unsupportedAlert: bool,
    timeoutAlert: bool,
    errorAlert: bool,
    detector: Detector)

  /** `beginFlow`'s synchronous part: from the ready phase, loading, or the unsupported alert. */
  function BeginFlowState(s: Screen, supported: bool): Screen {
    if s.phase != Ready then s
    else if !supported then s.(unsupportedAlert := true)
    else s.(phase := Loading)
  }

  /**
   * `beginFlow`'s continuation once the camera access is answered: a refusal returns to ready with
   * the permission alert; otherwise the detector starts, and recognition runs under a fresh
   * 60-second timer, or the start fails back to ready with the error alert.
   */
  function CameraAnsweredState(s: Screen, granted: bool, supported: bool): Screen {
    if !granted then s.(phase := Ready, permissionAlert := true)
    else if !supported then s.(phase := Ready, errorAlert := true)
    else s.(detector := Started(s.detector, true), phase := Recognizing,
            timerActive := true, remainingSeconds := TimeLimit)
  }

  /** `recognitionFinished`: from recognizing to activated, with the timer cancelled. */
  function RecognitionFinishedState(s: Screen): Screen {
    if s.phase != Recognizing then s else s.(phase := Activated, timerActive := false)
  }

  /** One frame reaches `consume`; a change of the count to three or more finishes the recognition. */
  function FrameState(s: Screen, f: Frame): Screen {
    var d := Consumed(s.detector, f);
    var t := s.(detector := d);
    if d.completedStepCount != s.detector.completedStepCount && d.completedStepCount >= StepCount then
      RecognitionFinishedState(t)
    else t
  }

  /** `openSealedStick`: from activated to opening, the detector stopped and the seal cracked. */
  function OpenSealedStickState(s: Screen): Screen {
    if s.phase != Activated then s
    else s.(phase := Opening, detector := Stopped(s.detector), timerActive := false, crackProgress := 1.0)
  }

  /** `resetToReady`. */
  function ResetToReadyState(s: Screen): Screen {
    s.(timerActive := false, detector := Reset(Stopped(s.detector)), phase := Ready,
       crackProgress := 0.0, remainingSeconds := TimeLimit)
  }

  /** One second of the running timer: counts down while recognizing, and times out at zero. */
  function TickState(s: Screen): Screen {
    if !s.timerActive || s.phase != Recognizing then s
    else
      var r := s.remainingSeconds - 1;
      if r <= 0 then s.(remainingSeconds := r, timerActive := false, detector := Stopped(s.detector), timeoutAlert := true)
      else s.(remainingSeconds := r)
  }

  function Ticks(s: Screen, n: nat): Screen {
    if n == 0 then s else TickState(Ticks(s, n - 1))
  }

  /** Every transition guarded by a phase leaves any other phase untouched. */
  lemma PhaseGuards(s: Screen, supported: bool)
    ensures s.phase != Ready ==> BeginFlowState(s, supported) == s
    ensures s.phase != Recognizing ==> RecognitionFinishedState(s) == s && TickState(s) == s
    ensures s.phase != Activated ==> OpenSealedStickState(s) == s
    ensures s.phase == Recognizing ==> RecognitionFinishedState(s).phase == Activated
    ensures s.phase == Activated ==> OpenSealedStickState(s).phase == Opening
    ensures s.phase == Ready && supported ==> BeginFlowState(s, supported).phase == Loading
  {
  }

  /** A reset returns to the ready phase, an unbroken seal, the full minute and no step done. */
  lemma ResetToReadyEffect(s: Screen)
    ensures var r := ResetToReadyState(s);
      && r.phase == Ready && r.crackProgress == 0.0 && r.remainingSeconds == TimeLimit
      && !r.timerActive && !r.detector.isRunning
      && Valid(r.detector) && Trues(r.detector.doneSteps) == 0
      && !ActionDisabled(r.phase)
  {
    ResetValid(Stopped(s.detector));
  }

  /** The action button is disabled in every phase except ready. */
  lemma ActionDisabledMeaning(p: Phase)
    ensures ActionDisabled(p) <==> p != Ready
  {
  }

  /**
   * Under the running timer, fewer ticks than the seconds left only count down; as many as the
   * seconds left raise the timeout, stop the detector and the timer, and leave zero seconds.
   */
  lemma {:induction false} TicksCountDown(s: Screen, n: nat)
    requires s.timerActive && s.phase == Recognizing && n < s.remainingSeconds
    ensures Ticks(s, n) == s.(remainingSeconds := s.remainingSeconds - n)
  {
    if n > 0 {
      TicksCountDown(s, n - 1);
    }
  }

  lemma TimesOut(s: Screen)
    requires s.timerActive && s.phase == Recognizing && s.remainingSeconds >= 1
    ensures var t := Ticks(s, s.remainingSeconds as nat);
      && t.timeoutAlert && !t.timerActive && !t.detector.isRunning
      && t.remainingSeconds == 0 && t.phase == Recognizing
  {
    var n := s.remainingSeconds as nat;
    TicksCountDown(s, n - 1);
  }

  /** Frames keep the detector valid, and the screen leaves recognizing only once every step is done. */
  lemma FrameEffect(s: Screen, f: Frame)
    requires Valid(s.detector)
    ensures var t := FrameState(s, f);
      && Valid(t.detector)
      && (s.phase == Recognizing && t.phase != Recognizing ==>
            t.phase == Activated && t.detector.currentStep == StepCount && !t.timerActive)
      && (t.phase != s.phase ==> s.phase == Recognizing)
  {
    ConsumedValid(s.detector, f);
  }

  /** `FaceRitualDetector`. */
  class RitualDetector {
    var completedStepCount: int
    var doneSteps: seq<bool>
    var isRunning: bool
    var currentStep: int

    function Snapshot(): Detector
      reads this
    {
      Detector(completedStepCount, doneSteps, isRunning, currentStep)
    }

    constructor()
      ensures Snapshot() == Detector(0, NoSteps, false, 0) && Valid(Snapshot())
    {
      completedStepCount, doneSteps, isRunning, currentStep := 0, NoSteps, false, 0;
    }

    /** `start`; `thrown` is the unsupported-device error. */
    method Start(supported: bool) returns (thrown: bool)
      modifies this
      ensures thrown == !supported
      ensures Snapshot() == Started(old(Snapshot()), supported)
    {
      if !supported {
        return true;
      }
      ResetSteps();
      isRunning := true;
      return false;
    }

    method Stop()
      modifies this
      ensures Snapshot() == Stopped(old(Snapshot()))
    {
      if !isRunning {
        return;
      }
      isRunning := false;
    }

    method ResetSteps()
      modifies this
      ensures Snapshot() == Reset(old(Snapshot()))
    {
      currentStep := 0;
      completedStepCount := 0;
      doneSteps := NoSteps;
    }

    method Consume(f: Frame)
      modifies this
      ensures Snapshot() == Consumed(old(Snapshot()), f)
    {
      if !isRunning || currentStep < 0 || currentStep >= StepCount {
        return;
      }
      if currentStep == 0 {
        if f.jawOpen {
          Mark(OpenMouth);
        }
      } else if currentStep == 1 {
        if f.yawLeft {
          Mark(TurnLeft);
        }
      } else if f.yawRight {
        Mark(TurnRight);
      }
    }

    /** `mark`: the step's flag set, the flags counted again. */
    method Mark(s: Step)
      modifies this
      ensures Snapshot() == Marked(old(Snapshot()), s)
    {
      var i := Raw(s);
      if i >= |doneSteps| || doneSteps[i] {
        return;
      }
      doneSteps := doneSteps[i := true];
      currentStep := currentStep + 1;
      completedStepCount := CountDone(doneSteps);
    }
  }

  /** `filter { $0 }.count`, by a loop over the flags. */
  method CountDone(flags: seq<bool>) returns (n: nat)
    ensures n == Trues(flags)
  {
    n := 0;
    for k := 0 to |flags|
      invariant n == Trues(flags[..k])
    {
      assert flags[..k + 1][..k] == flags[..k];
      if flags[k] {
        n := n + 1;
      }
    }
    assert flags[..|flags|] == flags;
  }

  /** `FaceRitualCaptureView`'s state. */
  class CaptureScreen {
    var phase: Phase
    var remainingSeconds: int
    var crackProgress: real
    var timerActive: bool
    var permissionAlert: bool
    var unsupportedAlert: bool
    var timeoutAlert: bool
    var errorAlert: bool
    const detector: RitualDetector

    function Snapshot(): Screen
      reads this, detector
    {
      Screen(phase, remainingSeconds, crackProgress, timerActive,
             permissionAlert, unsupportedAlert, timeoutAlert, errorAlert, detector.Snapshot())
    }

    constructor()
      ensures Snapshot() == Screen(Ready, TimeLimit, 0.0, false, false, false, false, false, Detector(0, NoSteps, false, 0))
      ensures fresh(detector)
    {
      phase, remainingSeconds, crackProgress, timerActive := Ready, TimeLimit, 0.0, false;
      permissionAlert, unsupportedAlert, timeoutAlert, errorAlert := false, false, false, false;
      detector := new RitualDetector();
    }

    method BeginFlow(supported: bool)
      modifies this
      ensures Snapshot() == BeginFlowState(old(Snapshot()), supported)
    {
      if phase != Ready {
        return;
      }
      if !supported {
        unsupportedAlert := true;
        return;
      }
      phase := Loading;
    }

    method CameraAnswered(granted: bool, supported: bool)
      modifies this, detector
      ensures Snapshot() == CameraAnsweredState(old(Snapshot()), granted, supported)
    {
      if !granted {
        phase := Ready;
        permissionAlert := true;
        return;
      }
      var thrown := detector.Start(supported);
      if thrown {
        phase := Ready;
        errorAlert := true;
        return;
      }
      phase := Recognizing;
      StartTimer();
    }

    method StartTimer()
      modifies this
      ensures Snapshot() == old(Snapshot()).(timerActive := true, remainingSeconds := TimeLimit)
    {
      timerActive := true;
      remainingSeconds := TimeLimit;
    }

    method RecognitionFinished()
      modifies this
      ensures Snapshot() == RecognitionFinishedState(old(Snapshot()))
    {
      if phase != Recognizing {
        return;
      }
      phase := Activated;
      timerActive := false;
    }

    /** A frame delivered to the detector, then the view's reaction to a changed count. */
    method FrameArrived(f: Frame)
      modifies this, detector
      ensures Snapshot() == FrameState(old(Snapshot()), f)
    {
      var before := detector.completedStepCount;
      detector.Consume(f);
      if detector.completedStepCount != before && detector.completedStepCount >= StepCount {
        RecognitionFinished();
      }
    }

    method OpenSealedStick()
      modifies this, detector
      ensures Snapshot() == OpenSealedStickState(old(Snapshot()))
    {
      if phase != Activated {
        return;
      }
      phase := Opening;
      detector.Stop();
      timerActive := false;
      crackProgress := 1.0;
    }

    method ResetToReady()
      modifies this, detector
      ensures Snapshot() == ResetToReadyState(old(Snapshot()))
    {
      timerActive := false;
      detector.Stop();
      detector.ResetSteps();
      phase := Ready;
      crackProgress := 0.0;
      remainingSeconds := TimeLimit;
    }

    method Tick()
      modifies this, detector
      ensures Snapshot() == TickState(old(Snapshot()))
    {
      if !timerActive || phase != Recognizing {
        return;
      }
      remainingSeconds := remainingSeconds - 1;
      if remainingSeconds <= 0 {
        timerActive := false;
        detector.Stop();
        timeoutAlert := true;
      }
    }
  }
}
