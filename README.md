# Dangerous-object webcam detector: per-detection style and per-frame alarm

This project models the decision logic of `detecter.py`, the real-time
detection loop of the repository. Each camera frame is passed to an external
YOLOv5 detector. The detector returns a list of detection groups, and each
group may be absent or empty. The loop then walks every detection in order
and makes two decisions for it:

- **Style.** A colour and a line thickness come from a three-tier confidence
  table: at least 0.75, from 0.5 up to 0.75, and below 0.5. At 0.5 and above the
  table also depends on whether the class name is on a hard-coded list of
  dangerous labels. Below 0.5 it depends on whether the box is at least a
  quarter of the frame high.
- **Alarm.** The frame's alarm flag is reset to false at the start of the
  frame and set to true by every dangerous detection with confidence at
  least 0.5.

After all detections are drawn, an alarming frame plays the alarm sound once
and draws a red warning banner. The frame is then shown. The loop ends at the
end of the stream, or when 'q' is pressed after a frame is shown.

Files:

- `styles.dfy` (module `DetectionStyle`): detections, colours, the
  dangerous-label list, and the branch cascade `Classify`. `Classify` is
  checked against a selection table indexed by tier, danger flag and size,
  and against flat conditions.
- `frame_loop.dfy` (module `DetectionLoop`): the specification functions of
  one frame (`FrameOps`, `FrameAlarm`, `FrameResult`) and of a whole run
  (`RunOutcomes`, `SoundCount`). It also holds the imperative loops, each
  proved against those functions: `ProcessFrame` loops over the groups,
  `DrawGroup` loops over the detections of one group, and `Run` is the
  capture loop.
- `loop_properties.dfy` (module `LoopProperties`): lemmas across frames and
  within a frame. They cover no carry-over, one sound per alarming frame, a
  red box exactly when the frame alarms, the banner, and quiet frames.

The comment on the alarm flag (`detecter.py:20`) says the flag prevents
repeated playback. The code resets the flag at the start of every frame
(`detecter.py:41`), so the sound plays once for every alarming frame and
nothing is debounced. The model follows the code. `RepeatedAlarmIsNotDebounced`
shows two identical alarming frames playing the sound twice.

Modelling choices:

- Confidence is a `real`. The source only compares it with 0.5 and 0.75.
- Box corners and frame height are `int`s. The source tests
  `obj_height >= h / 4` with a float quarter height. For integers this is the
  same as `4 * (y2 - y1) >= h`, and that is the form used here.
- Drawing is a log of operations in drawing order: a rectangle and a label
  for each detection, then the banner. The model does not hold pixels.

## Model

| member | source | states |
|---|---|---|
| `DetectionStyle.Classify` | detecter.py:65-87 | The alarm is raised exactly when confidence ≥ 0.5 and the class is dangerous. The colour is red exactly when the alarm is raised. Thickness is 4 exactly for dangerous detections at ≥ 0.75 and for all detections below 0.5, and 2 otherwise. |
| `DetectionStyle.TiersDisjointAndExhaustive` | detecter.py:65-81 | Exactly one of the three guards holds for every confidence (≥ 0.75, [0.5, 0.75), < 0.5). Each guard matches one tier. |
| `DetectionStyle.ClassifyFollowsTable` | detecter.py:61-87 | For every detection, the cascade picks the same (colour, thickness) as the table indexed by tier, danger flag and size. |
| `DetectionStyle.ColourByCondition` | detecter.py:65-87 | Each colour is chosen under exactly one condition. Red: dangerous and ≥ 0.5. Green: not dangerous and ≥ 0.75. Yellow: not dangerous and in [0.5, 0.75). Orange: < 0.5 and large. Blue: < 0.5 and not large. |
| `DetectionStyle.LowTierIgnoresClass` | detecter.py:81-87 | Below 0.5 the class name plays no part. The style is orange/4 when the box is at least a quarter of the frame high and blue/4 otherwise. A dangerous class never raises the alarm in this tier. |
| `DetectionStyle.DangerousLabelsExact` | detecter.py:56-60 | A name is dangerous exactly when it is one of the thirteen listed strings: the 2 COCO labels, the 10 ImageNet strings and "weapon". |
| `DetectionStyle.DangerousListShape` | detecter.py:56-59 | The list built by concatenating the two lists and appending "weapon" has 13 distinct entries, with "weapon" last. |
| `DetectionStyle.WholeStringMembership` | detecter.py:57-60 | Membership uses whole-string, case-sensitive equality. "assault rifle, assault gun" is one entry, so "assault rifle", "assault gun", "Knife" and "person" are not dangerous. |
| `DetectionLoop.DrawGroup` | detecter.py:49-94 | Walking one group appends each detection's box and label, in order, to the overlays drawn so far. The returned flag is the incoming flag OR-ed with "some detection of the group is dangerous with confidence ≥ 0.5", computed as a left-to-right fold. |
| `DetectionLoop.ProcessFrame` | detecter.py:41-103 | The flag comes in holding whatever the previous frame left in it and is reset, then every detection of every present, non-empty group is drawn in order while the flag is accumulated. The returned outcome equals `FrameResult` of this frame alone, and the returned flag equals the outcome's sound flag. With `AlarmIffSomeAlarmingDetection`, that flag is true exactly when some detection is dangerous with confidence ≥ 0.5. |
| `DetectionLoop.Run` | detecter.py:21-108 | The flag is set to false once before the loop and carried from frame to frame. The outcomes of the capture loop still equal `RunOutcomes(stream)`. Frames are processed up to the end of the stream or up to and including the frame after which 'q' was pressed. The number of sound plays equals the number of frames whose outcome played the sound. |
| `LoopProperties.AlarmIffSomeAlarmingDetection` | detecter.py:41-77 | The flag, reset to false and OR-ed over the groups in order, ends true exactly when some detection in some present group has confidence ≥ 0.5 and a dangerous class name. |
| `LoopProperties.RunOutcomesAt` | detecter.py:41-49 | The k-th processed frame's outcome is `FrameResult` of the k-th frame, whatever the earlier frames were. |
| `LoopProperties.NoCarryOver` | detecter.py:41 | Two runs that process the same k-th frame show the same overlays and sound for it, whatever frames came before. The sound for that frame plays exactly when that frame's own flag, reset and then accumulated, ends true. |
| `LoopProperties.RunStopsAtQuit` | detecter.py:23-108 | A non-empty stream processes at least one frame and never more frames than it has. No processed frame before the last one had 'q' pressed. The loop ran out of frames, or 'q' was pressed after the last processed frame. |
| `LoopProperties.RunOfPrefix` | detecter.py:23-108 | The outcomes of running on the first n frames of a stream are a prefix of the outcomes of running on the whole stream. |
| `LoopProperties.SoundsPerAlarmingFrame` | detecter.py:97-98 | The number of sound plays in a run equals the number of alarming frames among the processed ones. |
| `LoopProperties.RepeatedAlarmIsNotDebounced` | detecter.py:20-41 | Two consecutive frames, each with a knife at 0.8, play the sound twice. The flag gives no debounce. |
| `LoopProperties.GroupRedIffAlarming` | detecter.py:49-77 | A group's drawing contains a red rectangle exactly when some detection of the group is alarming. |
| `LoopProperties.AlarmIffRedBox` | detecter.py:44-90 | A frame's drawing contains a red rectangle exactly when the frame's alarm condition holds. |
| `LoopProperties.QuietFrame` | detecter.py:44-45 | Any frame whose groups are all absent or empty, whatever its height and key press, draws nothing, keeps the alarm false and plays no sound. |
| `LoopProperties.BannerOnceAfterDetections` | detecter.py:97-103 | The warning banner is drawn exactly when the sound plays. It is drawn once, as the last overlay, after every box and label of the frame. |
| `LoopProperties.AlarmExamples` | detecter.py:44-77 | An empty frame does not alarm. A knife at 0.8 alarms. A knife at 0.4 does not alarm. A person at 0.6 does not alarm. |

## Left out

- Model loading, device selection, resizing, channel reordering, normalisation, inference and non-max suppression (detecter.py:8-11, 28-38) are external torch/YOLOv5 calls on floating-point tensors. Each frame's prediction list is an input of the model.
- Runs are finite: a camera that never fails a read, with 'q' never pressed, loops forever (detecter.py:23), and the model covers every finite prefix of such a run instead (`RunOfPrefix`).
- Camera capture and display (detecter.py:18, 24-26, 106-111) become a sequence of frames. Each frame carries whether 'q' was pressed after it was shown. A failed read is the end of the sequence.
- The class-index lookup `model.names[int(cls)]` (detecter.py:55) uses the loaded model's metadata, so a detection carries its class name directly.
- The `int()` truncation of the float box corners (detecter.py:50) is not modelled: the corners are integers already.
- A NaN confidence is not modelled. Python sends it to the `else` branch (below 0.5), and a `real` cannot be NaN.
- The pixels are not modelled. `cv2.rectangle` and `cv2.putText` become entries in a log of drawing operations. The label's `f'{conf:.2f}'` text formatting, font face and font scale are not represented. The label keeps the class name and the confidence.
- `playsound` (detecter.py:14-15) is a blocking foreign audio call. It becomes a per-frame "sound played" flag and a count per run.
- The unused values `obj_width`, `is_small` and the frame width (detecter.py:46, 51, 62) take no part in any decision.
- get_my_classes_from_coco.py is not part of this model. Its category, image and annotation queries go to pycocotools. Its JSON writing, directory creation and HTTP image downloads are filesystem and network I/O.
