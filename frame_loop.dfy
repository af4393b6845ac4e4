// The capture loop of the webcam detector: each frame's detection groups are
// walked in order, every detection gets a box and a label, the alarm flag is
// reset and then accumulated, and an alarming frame plays the sound and gets
// the warning banner before it is shown.

module DetectionLoop {
  import opened DetectionStyle

  datatype Option<T> = None | Some(value: T)

  /** One entry of the detector's per-image prediction list: possibly absent, possibly empty. */
  type Group = Option<seq<Detection>>

  /** What is drawn on a frame, in drawing order. */
  datatype DrawOp =
    | Rectangle(x1: int, y1: int, x2: int, y2: int, style: Style)
      /** The class name and confidence written above the box; the text formatting is not modelled. */
    | Label(className: string, conf: real, x: int, y: int, color: Color, thickness: int)
    | Banner(text: string, x: int, y: int, color: Color, thickness: int)

  const WarningBanner: DrawOp := Banner("WARNING: POTENTIALLY DANGEROUS OBJECT DETECTED!", 50, 50, Red, 2)

  /** One successfully read frame: its height, the detector's output for it, and whether 'q' was pressed after showing it. */
  datatype FrameInput = FrameInput(height: int, pred: seq<Group>, quitKey: bool)

  /** What one loop iteration does to the outside world: the overlays on the shown frame and whether the sound played. */
  datatype FrameOutcome = FrameOutcome(ops: seq<DrawOp>, soundPlayed: bool)

  // ---------------------------------------------------------------------
  // Specification functions

  /** The box and its label for one detection. */
  function DetectionOps(d: Detection, frameHeight: int): seq<DrawOp>
  {
    var s := Classify(d, frameHeight).style;
    [Rectangle(d.x1, d.y1, d.x2, d.y2, s), Label(d.className, d.conf, d.x1, d.y1 - 10, s.color, 2)]
  }

  function GroupOps(dets: seq<Detection>, frameHeight: int): seq<DrawOp>
  {
    if dets == [] then []
    else GroupOps(dets[..|dets| - 1], frameHeight) + DetectionOps(dets[|dets| - 1], frameHeight)
  }

  /** An absent group draws nothing. */
  function Drawn(g: Group, frameHeight: int): seq<DrawOp>
  {
    match g
    case None => []
    case Some(dets) => GroupOps(dets, frameHeight)
  }

  /** Everything the detection loop draws on a frame, group after group. */
  function FrameOps(pred: seq<Group>, frameHeight: int): seq<DrawOp>
  {
    if pred == [] then []
    else FrameOps(pred[..|pred| - 1], frameHeight) + Drawn(pred[|pred| - 1], frameHeight)
  }

  /** The flag after OR-ing in every detection of a group, in order. */
  function GroupAlarm(dets: seq<Detection>): bool
  {
    if dets == [] then false
    else GroupAlarm(dets[..|dets| - 1]) || IsAlarming(dets[|dets| - 1])
  }

  /** The flag after OR-ing in every present group, starting from the reset value false. */
  function FrameAlarm(pred: seq<Group>): bool
  {
    if pred == [] then false
    else FrameAlarm(pred[..|pred| - 1]) || (pred[|pred| - 1].Some? && GroupAlarm(pred[|pred| - 1].value))
  }

  /** The alarm condition stated directly: some detection of some present group is dangerous with confidence at least 0.5. */
  ghost predicate SomeAlarmingDetection(pred: seq<Group>)
  {
    exists g, j | 0 <= g < |pred| && pred[g].Some? && 0 <= j < |pred[g].value| :: IsAlarming(pred[g].value[j])
  }

  /** One iteration, as a function of that frame alone: the boxes, then the banner when alarming. */
  function FrameResult(f: FrameInput): FrameOutcome
  {
    var alarm := FrameAlarm(f.pred);
    FrameOutcome(FrameOps(f.pred, f.height) + (if alarm then [WarningBanner] else []), alarm)
  }

  /** The frames the loop processes: up to and including the first one after which 'q' was pressed. */
  function RunOutcomes(stream: seq<FrameInput>): seq<FrameOutcome>
  {
    if stream == [] then []
    else [FrameResult(stream[0])] + (if stream[0].quitKey then [] else RunOutcomes(stream[1..]))
  }

  function SoundCount(outcomes: seq<FrameOutcome>): nat
  {
    if outcomes == [] then 0
    else SoundCount(outcomes[..|outcomes| - 1]) + (if outcomes[|outcomes| - 1].soundPlayed then 1 else 0)
  }

  function AlarmingFrames(frames: seq<FrameInput>): nat
  {
    if frames == [] then 0
    else AlarmingFrames(frames[..|frames| - 1]) + (if FrameAlarm(frames[|frames| - 1].pred) then 1 else 0)
  }

  // ---------------------------------------------------------------------
  // The loop

  lemma FramePrefixStep(pred: seq<Group>, g: nat, frameHeight: int)
    requires g < |pred|
    ensures FrameOps(pred[..g + 1], frameHeight) == FrameOps(pred[..g], frameHeight) + Drawn(pred[g], frameHeight)
    ensures FrameAlarm(pred[..g + 1]) == (FrameAlarm(pred[..g]) || (pred[g].Some? && GroupAlarm(pred[g].value)))
  {
    assert pred[..g + 1][..g] == pred[..g];
  }

  lemma GroupPrefixStep(dets: seq<Detection>, i: nat, frameHeight: int)
    requires i < |dets|
    ensures GroupOps(dets[..i + 1], frameHeight) == GroupOps(dets[..i], frameHeight) + DetectionOps(dets[i], frameHeight)
    ensures GroupAlarm(dets[..i + 1]) == (GroupAlarm(dets[..i]) || IsAlarming(dets[i]))
  {
    assert dets[..i + 1][..i] == dets[..i];
  }

  /**
   * The inner loop over one non-empty group: each detection is classified,
   * its box and label are drawn in order, and the alarm flag is OR-ed with
   * the detection's verdict.
   */
  method DrawGroup(dets: seq<Detection>, h: int, opsIn: seq<DrawOp>, alarmIn: bool)
    returns (ops: seq<DrawOp>, alarmTriggered: bool)
    ensures ops == opsIn + GroupOps(dets, h)
    ensures alarmTriggered == (alarmIn || GroupAlarm(dets))
  {
    ops, alarmTriggered := opsIn, alarmIn;
    var i := 0;
    while i < |dets|
      invariant 0 <= i <= |dets|
      invariant ops == opsIn + GroupOps(dets[..i], h)
      invariant alarmTriggered == (alarmIn || GroupAlarm(dets[..i]))
    {
      var d := dets[i];
      var v := Classify(d, h);
      if v.raisesAlarm {
        alarmTriggered := true;
      }
      var box := Rectangle(d.x1, d.y1, d.x2, d.y2, v.style);
      var caption := Label(d.className, d.conf, d.x1, d.y1 - 10, v.style.color, 2);
      ops := ops + [box];
      ops := ops + [caption];
      assert [box, caption] == DetectionOps(d, h);
      AppendTwo(opsIn, GroupOps(dets[..i], h), box, caption);
      GroupPrefixStep(dets, i, h);
      i := i + 1;
    }
    assert dets[..i] == dets;
  }

  /**
   * One iteration of the capture loop after inference: reset the alarm flag,
   * draw every detection of every present, non-empty group while OR-ing the
   * alarm flag, then play the sound and draw the banner when the flag is set.
   * The flag comes in holding whatever the previous frame left in it; the
   * reset makes the outcome depend on this frame only.
   */
  method ProcessFrame(f: FrameInput, alarmIn: bool) returns (o: FrameOutcome, alarmTriggered: bool)
    ensures o == FrameResult(f)
    ensures alarmTriggered == o.soundPlayed
  {
    alarmTriggered := alarmIn;
    alarmTriggered := false;
    var ops: seq<DrawOp> := [];
    var pred := f.pred;
    var h := f.height;
    var g := 0;
    while g < |pred|
      invariant 0 <= g <= |pred|
      invariant ops == FrameOps(pred[..g], h)
      invariant alarmTriggered == FrameAlarm(pred[..g])
    {
      var det := pred[g];
      if det.Some? && |det.value| > 0 {
        ops, alarmTriggered := DrawGroup(det.value, h, ops, alarmTriggered);
      } else if det.Some? {
        assert det.value == [];
      }
      FramePrefixStep(pred, g, h);
      g := g + 1;
    }
    assert pred[..g] == pred;
    var soundPlayed := false;
    if alarmTriggered {
      soundPlayed := true;
    }
    if alarmTriggered {
      ops := ops + [WarningBanner];
    }
    o := FrameOutcome(ops, soundPlayed);
  }

  lemma RunAdvance(stream: seq<FrameInput>, i: nat, done: seq<FrameOutcome>)
    requires i < |stream|
    requires done + RunOutcomes(stream[i..]) == RunOutcomes(stream)
    ensures stream[i].quitKey ==> done + [FrameResult(stream[i])] == RunOutcomes(stream)
    ensures !stream[i].quitKey ==> (done + [FrameResult(stream[i])]) + RunOutcomes(stream[i + 1..]) == RunOutcomes(stream)
  {
    assert stream[i..][1..] == stream[i + 1..];
    var rest := if stream[i].quitKey then [] else RunOutcomes(stream[i + 1..]);
    AppendAssociative(done, [FrameResult(stream[i])], rest);
  }

  lemma AppendTwo<T>(a: seq<T>, b: seq<T>, x: T, y: T)
    ensures (a + b) + [x] + [y] == a + (b + [x, y])
  {
  }

  lemma AppendAssociative<T>(a: seq<T>, b: seq<T>, c: seq<T>)
    ensures (a + b) + c == a + (b + c)
  {
  }

  lemma SoundCountAppend(outcomes: seq<FrameOutcome>, o: FrameOutcome)
    ensures SoundCount(outcomes + [o]) == SoundCount(outcomes) + (if o.soundPlayed then 1 else 0)
  {
    assert (outcomes + [o])[..|outcomes|] == outcomes;
  }

  /**
   * The whole capture loop over a stream of frames: the end of the stream or
   * a 'q' after showing a frame ends it. Returns what each processed frame
   * showed and how many times the sound was played.
   */
  method Run(stream: seq<FrameInput>) returns (outcomes: seq<FrameOutcome>, sounds: nat)
    ensures outcomes == RunOutcomes(stream)
    ensures sounds == SoundCount(outcomes)
  {
    var alarmTriggered := false;
    outcomes, sounds := [], 0;
    var i := 0;
    var done := false;
    while i < |stream| && !done
      invariant 0 <= i <= |stream|
      invariant done ==> outcomes == RunOutcomes(stream)
      invariant !done ==> outcomes + RunOutcomes(stream[i..]) == RunOutcomes(stream)
      invariant sounds == SoundCount(outcomes)
    {
      var o;
      o, alarmTriggered := ProcessFrame(stream[i], alarmTriggered);
      RunAdvance(stream, i, outcomes);
      SoundCountAppend(outcomes, o);
      outcomes := outcomes + [o];
      if alarmTriggered {
        sounds := sounds + 1;
      }
      done := stream[i].quitKey;
      i := i + 1;
    }
  }
}
