// What the capture loop guarantees across frames and within one frame:
// no alarm carry-over, one sound per alarming frame, the banner exactly on
// alarming frames, red boxes exactly where the alarm comes from.

module LoopProperties {
  import opened DetectionStyle
  import opened DetectionLoop

  // ---------------------------------------------------------------------
  // Across frames

  /**
   * The k-th processed frame's outcome is that frame's own result: the alarm
   * flag is reset at the start of every frame, so nothing carries over.
   */
  lemma {:induction false} RunOutcomesAt(stream: seq<FrameInput>, k: nat)
    requires k < |RunOutcomes(stream)|
    ensures k < |stream|
    ensures RunOutcomes(stream)[k] == FrameResult(stream[k])
  {
    if k > 0 {
      assert !stream[0].quitKey;
      RunOutcomesAt(stream[1..], k - 1);
    }
  }

  /** Two runs that see the same k-th frame show and sound the same for it, whatever came before. */
  lemma NoCarryOver(s: seq<FrameInput>, t: seq<FrameInput>, k: nat)
    requires k < |RunOutcomes(s)| && k < |RunOutcomes(t)|
    requires k < |s| && k < |t| && s[k] == t[k]
    ensures RunOutcomes(s)[k] == RunOutcomes(t)[k]
    ensures RunOutcomes(s)[k].soundPlayed == FrameAlarm(s[k].pred)
  {
    RunOutcomesAt(s, k);
    RunOutcomesAt(t, k);
  }

  /**
   * The loop processes a prefix of the stream: every frame but the last
   * processed one was left without 'q', and the loop stops either at the end
   * of the stream or right after the frame where 'q' was pressed.
   */
  lemma {:induction false} RunStopsAtQuit(stream: seq<FrameInput>)
    ensures |RunOutcomes(stream)| <= |stream|
    ensures stream != [] ==> |RunOutcomes(stream)| >= 1
    ensures forall k | 0 <= k < |RunOutcomes(stream)| - 1 :: !stream[k].quitKey
    ensures |RunOutcomes(stream)| == |stream| || stream[|RunOutcomes(stream)| - 1].quitKey
  {
    if stream != [] && !stream[0].quitKey {
      var rest := stream[1..];
      RunStopsAtQuit(rest);
      assert |RunOutcomes(stream)| == 1 + |RunOutcomes(rest)|;
      forall k | 0 <= k < |RunOutcomes(stream)| - 1
        ensures !stream[k].quitKey
      {
        if k > 0 {
          assert stream[k] == rest[k - 1];
        }
      }
    }
  }

  /**
   * Running on the first n frames shows a prefix of what running on the
   * whole stream shows: a longer stream only extends the run.
   */
  lemma {:induction false} RunOfPrefix(stream: seq<FrameInput>, n: nat)
    requires n <= |stream|
    ensures RunOutcomes(stream[..n]) <= RunOutcomes(stream)
  {
    if n > 0 {
      var p := stream[..n];
      assert p[0] == stream[0];
      if !stream[0].quitKey {
        assert p[1..] == stream[1..][..n - 1];
        RunOfPrefix(stream[1..], n - 1);
      }
    }
  }

  lemma {:induction false} SoundCountOfResults(os: seq<FrameOutcome>, fs: seq<FrameInput>)
    requires |os| == |fs|
    requires forall k | 0 <= k < |os| :: os[k] == FrameResult(fs[k])
    ensures SoundCount(os) == AlarmingFrames(fs)
  {
    if os != [] {
      var n := |os| - 1;
      SoundCountOfResults(os[..n], fs[..n]);
    }
  }

  /** The sound is played once for every processed frame that is alarming, with no debounce. */
  lemma SoundsPerAlarmingFrame(stream: seq<FrameInput>)
    ensures |RunOutcomes(stream)| <= |stream|
    ensures SoundCount(RunOutcomes(stream)) == AlarmingFrames(stream[..|RunOutcomes(stream)|])
  {
    var os := RunOutcomes(stream);
    RunStopsAtQuit(stream);
    forall k | 0 <= k < |os|
      ensures os[k] == FrameResult(stream[..|os|][k])
    {
      RunOutcomesAt(stream, k);
    }
    SoundCountOfResults(os, stream[..|os|]);
  }

  /** Two consecutive frames with the same dangerous knife each play the sound. */
  lemma RepeatedAlarmIsNotDebounced()
    ensures var f := FrameInput(480, [Some([Detection(10, 10, 50, 60, 0.8, "knife")])], false);
      SoundCount(RunOutcomes([f, f])) == 2
  {
    var d := Detection(10, 10, 50, 60, 0.8, "knife");
    var f := FrameInput(480, [Some([d])], false);
    assert IsDangerous("knife");
    assert FrameResult(f).soundPlayed;
    assert [f, f][1..] == [f];
    var o := FrameResult(f);
    assert RunOutcomes([f]) == [o];
    assert RunOutcomes([f, f]) == [o, o];
    assert [o, o][..1] == [o] && [o][..0] == [];
    assert SoundCount([o]) == 1;
  }

  // ---------------------------------------------------------------------
  // Within one frame

  predicate RedBox(op: DrawOp)
  {
    op.Rectangle? && op.style.color == Red
  }

  predicate HasRedBox(ops: seq<DrawOp>)
  {
    exists op | op in ops :: RedBox(op)
  }

  lemma {:induction false} GroupRedIffAlarming(dets: seq<Detection>, frameHeight: int)
    ensures HasRedBox(GroupOps(dets, frameHeight)) <==> GroupAlarm(dets)
  {
    if dets != [] {
      var n := |dets| - 1;
      var d := dets[n];
      GroupRedIffAlarming(dets[..n], frameHeight);
      assert GroupOps(dets, frameHeight) == GroupOps(dets[..n], frameHeight) + DetectionOps(d, frameHeight);
      assert HasRedBox(DetectionOps(d, frameHeight)) <==> IsAlarming(d) by {
        assert RedBox(DetectionOps(d, frameHeight)[0]) <==> IsAlarming(d);
      }
    }
  }

  /** A red box is drawn on a frame exactly when the frame raises the alarm. */
  lemma {:induction false} AlarmIffRedBox(pred: seq<Group>, frameHeight: int)
    ensures HasRedBox(FrameOps(pred, frameHeight)) <==> FrameAlarm(pred)
  {
    if pred != [] {
      var n := |pred| - 1;
      AlarmIffRedBox(pred[..n], frameHeight);
      match pred[n]
      case None =>
      case Some(dets) => GroupRedIffAlarming(dets, frameHeight);
    }
  }

  lemma {:induction false} GroupAlarmIffSome(dets: seq<Detection>)
    ensures GroupAlarm(dets) <==> exists j | 0 <= j < |dets| :: IsAlarming(dets[j])
  {
    if dets != [] {
      var n := |dets| - 1;
      var init := dets[..n];
      GroupAlarmIffSome(init);
      if exists j | 0 <= j < |dets| :: IsAlarming(dets[j]) {
        var j :| 0 <= j < |dets| && IsAlarming(dets[j]);
        if j < n {
          assert init[j] == dets[j];
        }
      }
      if GroupAlarm(init) {
        var j :| 0 <= j < n && IsAlarming(init[j]);
        assert dets[j] == init[j];
      }
    }
  }

  /**
   * The flag the loop accumulates, starting from false, ends true exactly
   * when some detection of some present group is dangerous with confidence
   * at least 0.5.
   */
  lemma {:induction false} AlarmIffSomeAlarmingDetection(pred: seq<Group>)
    ensures FrameAlarm(pred) <==> SomeAlarmingDetection(pred)
  {
    if pred != [] {
      var n := |pred| - 1;
      var init := pred[..n];
      AlarmIffSomeAlarmingDetection(init);
      if pred[n].Some? {
        GroupAlarmIffSome(pred[n].value);
      }
      if SomeAlarmingDetection(pred) {
        var g, j :| 0 <= g < |pred| && pred[g].Some? && 0 <= j < |pred[g].value| && IsAlarming(pred[g].value[j]);
        if g < n {
          assert init[g] == pred[g];
          assert SomeAlarmingDetection(init);
        }
      }
      if SomeAlarmingDetection(init) {
        var g, j :| 0 <= g < n && init[g].Some? && 0 <= j < |init[g].value| && IsAlarming(init[g].value[j]);
        assert pred[g] == init[g];
      }
      if pred[n].Some? && GroupAlarm(pred[n].value) {
        var j :| 0 <= j < |pred[n].value| && IsAlarming(pred[n].value[j]);
      }
    }
  }

  /** A frame whose groups are all absent or empty draws nothing, plays nothing and shows no banner. */
  lemma {:induction false} QuietFrame(pred: seq<Group>, frameHeight: int, f: FrameInput)
    requires forall g | 0 <= g < |pred| :: pred[g] == None || pred[g] == Some([])
    requires f.pred == pred && f.height == frameHeight
    ensures FrameOps(pred, frameHeight) == []
    ensures !FrameAlarm(pred)
    ensures FrameResult(f) == FrameOutcome([], false)
  {
    if pred != [] {
      var n := |pred| - 1;
      QuietFrame(pred[..n], frameHeight, FrameInput(frameHeight, pred[..n], f.quitKey));
      assert Drawn(pred[n], frameHeight) == [];
    }
  }

  lemma {:induction false} NoBannerAmongBoxes(pred: seq<Group>, frameHeight: int)
    ensures forall op | op in FrameOps(pred, frameHeight) :: !op.Banner?
  {
    if pred != [] {
      var n := |pred| - 1;
      NoBannerAmongBoxes(pred[..n], frameHeight);
      match pred[n]
      case None =>
      case Some(dets) => GroupHasNoBanner(dets, frameHeight);
    }
  }

  lemma {:induction false} GroupHasNoBanner(dets: seq<Detection>, frameHeight: int)
    ensures forall op | op in GroupOps(dets, frameHeight) :: !op.Banner?
  {
    if dets != [] {
      GroupHasNoBanner(dets[..|dets| - 1], frameHeight);
    }
  }

  /**
   * The warning banner appears on a frame exactly when the sound is played,
   * once, and after every box and label of the frame.
   */
  lemma BannerOnceAfterDetections(f: FrameInput)
    ensures var o := FrameResult(f);
      && (WarningBanner in o.ops <==> o.soundPlayed)
      && (o.soundPlayed ==> o.ops[|o.ops| - 1] == WarningBanner && WarningBanner !in o.ops[..|o.ops| - 1])
  {
    NoBannerAmongBoxes(f.pred, f.height);
    var o := FrameResult(f);
    if o.soundPlayed {
      assert o.ops[..|o.ops| - 1] == FrameOps(f.pred, f.height);
    }
  }

  /** Four sample frames: no detections, a knife at 0.8, a knife at 0.4, a person at 0.6. */
  lemma AlarmExamples()
    ensures !FrameAlarm([])
    ensures FrameAlarm([Some([Detection(0, 0, 100, 100, 0.8, "knife")])])
    ensures !FrameAlarm([Some([Detection(0, 0, 100, 100, 0.4, "knife")])])
    ensures !FrameAlarm([Some([Detection(0, 0, 100, 100, 0.6, "person")])])
  {
    assert IsDangerous("knife");
    assert !IsDangerous("person") by { WholeStringMembership(); }
  }
}
