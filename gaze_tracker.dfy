/**
 * The attention tracker of Vihar/face_detection/integrated_tracker.py:
 * per-frame eye aspect ratio, blink counting, iris position, calibration,
 * the looking-at-screen decision and the rate-limited emotion dispatch.
 * Landmarks, head-pose angles, timestamps and the classifier's answer are
 * inputs; the Euclidean norm is a parameter constrained by `IsNorm`.
 */
module GazeTracker {
  import opened Wrappers
  import opened FaceCrop

  /** A 2-D point or vector; landmarks are in frame-relative units before scaling. */
  datatype Vec = Vec(x: real, y: real)

  function Sub(a: Vec, b: Vec): Vec { Vec(a.x - b.x, a.y - b.y) }
  function Add(a: Vec, b: Vec): Vec { Vec(a.x + b.x, a.y + b.y) }
  function Times(t: real, a: Vec): Vec { Vec(t * a.x, t * a.y) }
  function Dot(a: Vec, b: Vec): real { a.x * b.x + a.y * b.y }

  /** A landmark in pixels: `[lm.x * frame_w, lm.y * frame_h]`. */
  function ToPixels(p: Vec, w: nat, h: nat): Vec { Vec(p.x * w as real, p.y * h as real) }

  /**
   * What the model assumes of `np.linalg.norm`, the square root of v . v:
   * it is non-negative and zero exactly for the zero vector.
   */
  ghost predicate IsNorm(norm: Vec -> real)
  {
    forall v :: norm(v) >= 0.0 && (norm(v) == 0.0 <==> v == Vec(0.0, 0.0))
  }

  const EyesOpenThreshold: real := 0.2
  const BlinkDebounce: real := 0.3
  const MaxPitchDelta: real := 35.0
  const MaxYawDelta: real := 45.0
  const MaxIrisDelta: real := 0.4
  const EmotionInterval: real := 0.5
  const PadPercent: nat := 10

  /** `get_point` for each landmark of an eye. */
  function EyePixels(eye: seq<Vec>, w: nat, h: nat): (p: seq<Vec>)
    ensures |p| == |eye| && forall i :: 0 <= i < |eye| ==> p[i] == ToPixels(eye[i], w, h)
  {
    seq(|eye|, i requires 0 <= i < |eye| => ToPixels(eye[i], w, h))
  }

  /**
   * `calculate_eye_aspect_ratio` over the six eye points p0..p5 in pixels:
   * (|p1-p5| + |p2-p4|) / (2 |p0-p3|), or 0 when the corners coincide.
   */
  function EyeAspectRatio(p: seq<Vec>, norm: Vec -> real): (ear: real)
    requires |p| == 6 && IsNorm(norm)
    ensures ear >= 0.0
    ensures norm(Sub(p[0], p[3])) == 0.0 ==> ear == 0.0
    ensures norm(Sub(p[0], p[3])) != 0.0 ==>
              ear == (norm(Sub(p[1], p[5])) + norm(Sub(p[2], p[4]))) / (2.0 * norm(Sub(p[0], p[3])))
  {
    var vertical1 := norm(Sub(p[1], p[5]));
    var vertical2 := norm(Sub(p[2], p[4]));
    var horizontal := norm(Sub(p[0], p[3]));
    if horizontal == 0.0 then 0.0
    else (vertical1 + vertical2) / (2.0 * horizontal)
  }

  /** An eye whose upper and lower lids meet (p1 = p5, p2 = p4) has ratio 0. */
  lemma ClosedEyeHasZeroRatio(p: seq<Vec>, norm: Vec -> real)
    requires |p| == 6 && IsNorm(norm)
    requires p[1] == p[5] && p[2] == p[4]
    ensures EyeAspectRatio(p, norm) == 0.0
  {
    var zero := Vec(0.0, 0.0);
    assert Sub(p[1], p[5]) == zero && Sub(p[2], p[4]) == zero;
    assert norm(zero) == 0.0;
    var horizontal := norm(Sub(p[0], p[3]));
    if horizontal != 0.0 {
      var twice := 2.0 * horizontal;
      assert twice != 0.0;
      assert 0.0 / twice == 0.0;
    }
  }

  /** `eyes_open`: the mean of the two ratios is strictly above 0.2. */
  predicate EyesOpen(leftEar: real, rightEar: real): (open: bool)
    ensures leftEar > EyesOpenThreshold && rightEar > EyesOpenThreshold ==> open
    ensures leftEar <= EyesOpenThreshold && rightEar <= EyesOpenThreshold ==> !open
    ensures open ==> leftEar > EyesOpenThreshold || rightEar > EyesOpenThreshold
  {
    (leftEar + rightEar) / 2.0 > EyesOpenThreshold
  }

  /** Two closed eyes are never reported open. */
  lemma ClosedEyesAreNotOpen(left: seq<Vec>, right: seq<Vec>, norm: Vec -> real)
    requires |left| == 6 && |right| == 6 && IsNorm(norm)
    requires left[1] == left[5] && left[2] == left[4] && right[1] == right[5] && right[2] == right[4]
    ensures !EyesOpen(EyeAspectRatio(left, norm), EyeAspectRatio(right, norm))
  {
    ClosedEyeHasZeroRatio(left, norm);
    ClosedEyeHasZeroRatio(right, norm);
  }

  /**
   * `get_iris_position` with the corners and the iris in pixels: the
   * projection of the iris onto the inner-to-outer corner axis, as a fraction
   * of the axis, or 0.5 when the corners coincide. The result is not clamped.
   * The model also answers 0.5 when the divisor v . v is zero, which over the
   * reals happens only when the corners coincide; that fact is not proved here.
   */
  function IrisRatio(inner: Vec, outer: Vec, iris: Vec, norm: Vec -> real): (ratio: real)
    requires IsNorm(norm)
    ensures inner == outer ==> ratio == 0.5
  {
    var eyeWidth := norm(Sub(outer, inner));
    var vEye := Sub(outer, inner);
    if eyeWidth == 0.0 || Dot(vEye, vEye) == 0.0 then 0.5
    else
      var vIris := Sub(iris, inner);
      Dot(vIris, vEye) / Dot(vEye, vEye)
  }

  /** An iris at fraction t along the corner axis has ratio t; so the inner corner gives 0 and the outer 1. */
  lemma IrisOnAxis(inner: Vec, outer: Vec, t: real, norm: Vec -> real)
    requires IsNorm(norm) && Dot(Sub(outer, inner), Sub(outer, inner)) != 0.0
    ensures IrisRatio(inner, outer, Add(inner, Times(t, Sub(outer, inner))), norm) == t
  {
    var vEye := Sub(outer, inner);
    assert Sub(Add(inner, Times(t, vEye)), inner) == Times(t, vEye);
    assert Dot(Times(t, vEye), vEye) == t * Dot(vEye, vEye);
    assert vEye != Vec(0.0, 0.0);
  }

  lemma IrisAtCorners(inner: Vec, outer: Vec, norm: Vec -> real)
    requires IsNorm(norm) && Dot(Sub(outer, inner), Sub(outer, inner)) != 0.0
    ensures IrisRatio(inner, outer, inner, norm) == 0.0
    ensures IrisRatio(inner, outer, outer, norm) == 1.0
  {
    IrisOnAxis(inner, outer, 0.0, norm);
    assert Add(inner, Times(0.0, Sub(outer, inner))) == inner;
    IrisOnAxis(inner, outer, 1.0, norm);
    assert Add(inner, Times(1.0, Sub(outer, inner))) == outer;
  }

  /** The calibration fields, seen as one record. */
  datatype Baseline = Baseline(calibrated: bool, pitch: real, yaw: real, ratioL: real, ratioR: real)

  /** `target_*`: the calibrated values, or straight ahead (0, 0, 0.5, 0.5) before calibration. */
  function Target(b: Baseline): (t: (real, real, real, real))
    ensures !b.calibrated ==> t == (0.0, 0.0, 0.5, 0.5)
    ensures b.calibrated ==> t == (b.pitch, b.yaw, b.ratioL, b.ratioR)
  {
    if b.calibrated then (b.pitch, b.yaw, b.ratioL, b.ratioR) else (0.0, 0.0, 0.5, 0.5)
  }

  function AbsReal(x: real): real { if x < 0.0 then -x else x }

  /** `looking`: head within 35 deg pitch and 45 deg yaw, both irises within 0.4 of target, eyes open. */
  predicate Looking(pitch: real, yaw: real, ratioL: real, ratioR: real, b: Baseline, eyesOpen: bool): (looking: bool)
    ensures looking ==> eyesOpen
    ensures eyesOpen && (pitch, yaw, ratioL, ratioR) == Target(b) ==> looking
    ensures looking ==> -MaxPitchDelta < pitch - Target(b).0 < MaxPitchDelta && -MaxYawDelta < yaw - Target(b).1 < MaxYawDelta
  {
    var (tp, ty, tl, tr) := Target(b);
    && AbsReal(pitch - tp) < MaxPitchDelta && AbsReal(yaw - ty) < MaxYawDelta
    && AbsReal(ratioL - tl) < MaxIrisDelta && AbsReal(ratioR - tr) < MaxIrisDelta
    && eyesOpen
  }

  /** Before calibration, looking means a head within (-35, 35) x (-45, 45) and irises in (0.1, 0.9). */
  lemma UncalibratedLooking(pitch: real, yaw: real, ratioL: real, ratioR: real, b: Baseline, eyesOpen: bool)
    requires !b.calibrated
    ensures Looking(pitch, yaw, ratioL, ratioR, b, eyesOpen) <==>
              -35.0 < pitch < 35.0 && -45.0 < yaw < 45.0 &&
              0.1 < ratioL < 0.9 && 0.1 < ratioR < 0.9 && eyesOpen
  {
  }

  /** On the frame that calibrates, every delta is zero, so looking is just eyes-open. */
  lemma CalibratingFrameLooksIffEyesOpen(pitch: real, yaw: real, ratioL: real, ratioR: real, eyesOpen: bool)
    ensures Looking(pitch, yaw, ratioL, ratioR, Baseline(true, pitch, yaw, ratioL, ratioR), eyesOpen) == eyesOpen
  {
  }

  /** Blink bookkeeping: the counter and the time of the last counted blink. */
  datatype Blinks = Blinks(counter: nat, last: real)

  /** A closed-eye frame counts a blink only if more than 0.3 s passed since the last one. */
  function BlinkStep(b: Blinks, eyesOpen: bool, now: real): (r: Blinks)
    ensures r.counter == b.counter || r.counter == b.counter + 1
    ensures r.counter == b.counter + 1 <==> !eyesOpen && now - b.last > BlinkDebounce
    ensures r.counter == b.counter + 1 ==> r.last == now
    ensures r.counter == b.counter ==> r == b
  {
    if !eyesOpen && now - b.last > BlinkDebounce then Blinks(b.counter + 1, now) else b
  }

  /** Over any run of frames the counter never decreases, and counted blinks are over 0.3 s apart. */
  lemma {:induction false} BlinksNeverDecrease(b: Blinks, frames: seq<(bool, real)>)
    ensures BlinkRun(b, frames).counter >= b.counter
    ensures BlinkRun(b, frames).last >= b.last
    ensures BlinkRun(b, frames).counter > b.counter ==> BlinkRun(b, frames).last > b.last + BlinkDebounce
    decreases |frames|
  {
    if frames != [] {
      var next := BlinkStep(b, frames[0].0, frames[0].1);
      BlinksNeverDecrease(next, frames[1..]);
    }
  }

  function BlinkRun(b: Blinks, frames: seq<(bool, real)>): Blinks
    decreases |frames|
  {
    if frames == [] then b else BlinkRun(BlinkStep(b, frames[0].0, frames[0].1), frames[1..])
  }

  /** The smallest and largest coordinates of the face's landmarks, in pixels. */
  function MinOf(s: seq<int>): (m: int)
    requires |s| > 0
    ensures m in s && forall k :: 0 <= k < |s| ==> m <= s[k]
  {
    if |s| == 1 then s[0] else var rest := MinOf(s[1..]); if s[0] <= rest then s[0] else rest
  }

  function MaxOf(s: seq<int>): (m: int)
    requires |s| > 0
    ensures m in s && forall k :: 0 <= k < |s| ==> s[k] <= m
  {
    if |s| == 1 then s[0] else var rest := MaxOf(s[1..]); if s[0] >= rest then s[0] else rest
  }

  /** `face_box`: the bounding box of all landmarks. */
  function FaceBox(xs: seq<int>, ys: seq<int>): (b: Box)
    requires |xs| > 0 && |ys| > 0
    ensures b.w >= 0 && b.h >= 0
    ensures forall k :: 0 <= k < |xs| ==> b.x <= xs[k] <= b.x + b.w
    ensures forall k :: 0 <= k < |ys| ==> b.y <= ys[k] <= b.y + b.h
    ensures b.x in xs && b.x + b.w in xs && b.y in ys && b.y + b.h in ys
  {
    var minX, minY := MinOf(xs), MinOf(ys);
    Box(minX, minY, MaxOf(xs) - minX, MaxOf(ys) - minY)
  }

  /** The crop `emotion_task` cuts: 10 % padding of the box's own height and width, clamped. */
  function EmotionCrop(b: Box, height: nat, width: nat): (r: Rect)
    requires b.w >= 0 && b.h >= 0
    ensures 0 <= r.y1 && r.y2 <= height && 0 <= r.x1 && r.x2 <= width
    ensures var hPad, wPad := Pad(b.h, PadPercent), Pad(b.w, PadPercent);
            b.y - hPad <= r.y1 && r.y2 <= b.y + b.h + hPad && b.x - wPad <= r.x1 && r.x2 <= b.x + b.w + wPad
  {
    PaddedRect(b, Pad(b.h, PadPercent), Pad(b.w, PadPercent), height, width)
  }

  /** `detect_emotion_deepface`: the classifier's label, or the current one when it fails or finds nothing. */
  function DetectEmotionDeepface(classified: Option<string>, current: string): (e: string)
    ensures classified.None? ==> e == current
    ensures classified.Some? ==> e == classified.value
  {
    classified.GetOr(current)
  }

  /** One face as the landmark model reports it, plus the head pose computed from it. */
  datatype FaceObservation = FaceObservation(
    leftEye: seq<Vec>, rightEye: seq<Vec>, leftIris: Vec, rightIris: Vec,
    pitch: real, yaw: real, landmarkXs: seq<int>, landmarkYs: seq<int>)
  {
    predicate WellFormed()
    {
      |leftEye| == 6 && |rightEye| == 6 && |landmarkXs| > 0 && |landmarkYs| > 0
    }
  }

  /** What a frame shows: face found, eyes open, looking, and the emotion on screen. */
  datatype FrameReport = FrameReport(faceDetected: bool, eyesOpen: bool, looking: bool, emotion: string)

  /** The work handed to the background emotion thread. */
  datatype EmotionTask = EmotionTask(height: nat, width: nat, box: Box)

  class EmotionEyeTracker {
    var blinkCounter: nat
    var lastBlinkTime: real
    var calibrated: bool
    var calibPitch: real
    var calibYaw: real
    var calibRatioL: real
    var calibRatioR: real
    var doCalibrate: bool
    var currentEmotion: string
    var lastEmotionTime: real
    var emotionThreadRunning: bool

    function CurrentBaseline(): Baseline
      reads this
    {
      Baseline(calibrated, calibPitch, calibYaw, calibRatioL, calibRatioR)
    }

    constructor ()
      ensures blinkCounter == 0 && lastBlinkTime == 0.0
      ensures CurrentBaseline() == Baseline(false, 0.0, 0.0, 0.5, 0.5) && !doCalibrate
      ensures currentEmotion == "neutral" && lastEmotionTime == 0.0 && !emotionThreadRunning
    {
      blinkCounter := 0;
      lastBlinkTime := 0.0;
      calibrated := false;
      calibPitch := 0.0;
      calibYaw := 0.0;
      calibRatioL := 0.5;
      calibRatioR := 0.5;
      doCalibrate := false;
      currentEmotion := "neutral";
      lastEmotionTime := 0.0;
      emotionThreadRunning := false;
    }

    /** The 'c' key: calibrate on the next frame with a face. */
    method RequestCalibration()
      modifies this
      ensures doCalibrate
      ensures blinkCounter == old(blinkCounter) && lastBlinkTime == old(lastBlinkTime)
      ensures CurrentBaseline() == old(CurrentBaseline()) && currentEmotion == old(currentEmotion)
      ensures lastEmotionTime == old(lastEmotionTime) && emotionThreadRunning == old(emotionThreadRunning)
    {
      doCalibrate := true;
    }

    /**
     * `update_emotion_async`: start a background task unless one reports
     * itself running or less than 0.5 s passed since the last classification.
     * It changes nothing itself; the task raises the running flag when it runs.
     */
    method UpdateEmotionAsync(height: nat, width: nat, box: Box, now: real) returns (task: Option<EmotionTask>)
      ensures task.Some? <==> !emotionThreadRunning && now - lastEmotionTime >= EmotionInterval
      ensures task.Some? ==> task.value == EmotionTask(height, width, box)
    {
      if emotionThreadRunning {
        return None;
      }
      if now - lastEmotionTime < EmotionInterval {
        return None;
      }
      return Some(EmotionTask(height, width, box));
    }

    /** The first statement of `emotion_task`. */
    method EmotionTaskBegins()
      modifies this
      ensures emotionThreadRunning
      ensures currentEmotion == old(currentEmotion) && lastEmotionTime == old(lastEmotionTime)
      ensures blinkCounter == old(blinkCounter) && lastBlinkTime == old(lastBlinkTime)
      ensures CurrentBaseline() == old(CurrentBaseline()) && doCalibrate == old(doCalibrate)
    {
      emotionThreadRunning := true;
    }

    /**
     * The rest of `emotion_task`: cut the padded crop and, if it is not empty,
     * store the classifier's label (or keep the current one) and the time;
     * the running flag is cleared in every case.
     */
    method EmotionTaskFinishes(task: EmotionTask, classified: Option<string>, now: real)
      requires task.box.w >= 0 && task.box.h >= 0
      modifies this
      ensures !emotionThreadRunning
      ensures NonEmptyCrop(EmotionCrop(task.box, task.height, task.width), task.height, task.width) ==>
                currentEmotion == DetectEmotionDeepface(classified, old(currentEmotion)) && lastEmotionTime == now
      ensures !NonEmptyCrop(EmotionCrop(task.box, task.height, task.width), task.height, task.width) ==>
                currentEmotion == old(currentEmotion) && lastEmotionTime == old(lastEmotionTime)
      ensures blinkCounter == old(blinkCounter) && lastBlinkTime == old(lastBlinkTime)
      ensures CurrentBaseline() == old(CurrentBaseline()) && doCalibrate == old(doCalibrate)
    {
      var crop := EmotionCrop(task.box, task.height, task.width);
      if NonEmptyCrop(crop, task.height, task.width) {
        var emotion := DetectEmotionDeepface(classified, currentEmotion);
        currentEmotion := emotion;
        lastEmotionTime := now;
      }
      emotionThreadRunning := false;
    }

    /**
     * `process_frame` after landmark detection: `face` is the first face, or
     * None when none was found. Returns what the frame shows and the emotion
     * task it started, if any.
     */
    method ProcessFrame(height: nat, width: nat, face: Option<FaceObservation>, now: real, norm: Vec -> real)
      returns (report: FrameReport, task: Option<EmotionTask>)
      requires IsNorm(norm)
      requires face.Some? ==> face.value.WellFormed()
      modifies this
      ensures face.None? ==>
                report == FrameReport(false, false, false, "neutral") && task.None? &&
                currentEmotion == "neutral" &&
                blinkCounter == old(blinkCounter) && lastBlinkTime == old(lastBlinkTime) &&
                CurrentBaseline() == old(CurrentBaseline()) && doCalibrate == old(doCalibrate) &&
                lastEmotionTime == old(lastEmotionTime) && emotionThreadRunning == old(emotionThreadRunning)
      ensures face.Some? ==> FaceFrame(old(Blinks(blinkCounter, lastBlinkTime)), old(CurrentBaseline()), old(doCalibrate),
                                       height, width, face.value, now, norm, report, task)
      ensures face.Some? ==>
                currentEmotion == old(currentEmotion) && lastEmotionTime == old(lastEmotionTime) &&
                emotionThreadRunning == old(emotionThreadRunning)
    {
      if face.None? {
        currentEmotion := "neutral";
        return FrameReport(false, false, false, currentEmotion), None;
      }
      report, task := ProcessFace(height, width, face.value, now, norm);
    }

    /** The blink counter update of a face frame. */
    method CountBlink(eyesOpen: bool, now: real)
      modifies this
      ensures Blinks(blinkCounter, lastBlinkTime) == BlinkStep(Blinks(old(blinkCounter), old(lastBlinkTime)), eyesOpen, now)
      ensures CurrentBaseline() == old(CurrentBaseline()) && doCalibrate == old(doCalibrate)
      ensures currentEmotion == old(currentEmotion) && lastEmotionTime == old(lastEmotionTime)
      ensures emotionThreadRunning == old(emotionThreadRunning)
    {
      if !eyesOpen && now - lastBlinkTime > BlinkDebounce {
        blinkCounter := blinkCounter + 1;
        lastBlinkTime := now;
      }
    }

    /** The calibration check of a face frame: a pending request takes the current pose and irises. */
    method CheckCalibration(pitch: real, yaw: real, ratioL: real, ratioR: real)
      modifies this
      ensures CurrentBaseline() == if old(doCalibrate) then Baseline(true, pitch, yaw, ratioL, ratioR) else old(CurrentBaseline())
      ensures !doCalibrate
      ensures blinkCounter == old(blinkCounter) && lastBlinkTime == old(lastBlinkTime)
      ensures currentEmotion == old(currentEmotion) && lastEmotionTime == old(lastEmotionTime)
      ensures emotionThreadRunning == old(emotionThreadRunning)
    {
      if doCalibrate {
        calibPitch := pitch;
        calibYaw := yaw;
        calibRatioL := ratioL;
        calibRatioR := ratioR;
        calibrated := true;
        doCalibrate := false;
      }
    }

    /** The face branch of `process_frame`. */
    method ProcessFace(height: nat, width: nat, f: FaceObservation, now: real, norm: Vec -> real)
      returns (report: FrameReport, task: Option<EmotionTask>)
      requires IsNorm(norm) && f.WellFormed()
      modifies this
      ensures FaceFrame(old(Blinks(blinkCounter, lastBlinkTime)), old(CurrentBaseline()), old(doCalibrate),
                        height, width, f, now, norm, report, task)
      ensures currentEmotion == old(currentEmotion) && lastEmotionTime == old(lastEmotionTime)
      ensures emotionThreadRunning == old(emotionThreadRunning)
    {
      var m := Measure(f, width, height, norm);
      var eyesOpen := (m.leftEar + m.rightEar) / 2.0 > EyesOpenThreshold;
      CountBlink(eyesOpen, now);
      CheckCalibration(f.pitch, f.yaw, m.ratioL, m.ratioR);
      var looking := Looking(f.pitch, f.yaw, m.ratioL, m.ratioR, CurrentBaseline(), eyesOpen);
      var box := FaceBox(f.landmarkXs, f.landmarkYs);
      task := UpdateEmotionAsync(height, width, box, now);
      report := FrameReport(true, eyesOpen, looking, currentEmotion);
    }

    /**
     * Everything a face frame does, given the state before it: the report,
     * the blink step, the calibration (consumed only here), the gaze decision
     * against the baseline in force after calibrating, and the dispatch.
     */
    ghost predicate FaceFrame(blinks: Blinks, baseline: Baseline, pending: bool,
                              height: nat, width: nat, f: FaceObservation, now: real, norm: Vec -> real,
                              report: FrameReport, task: Option<EmotionTask>)
      requires IsNorm(norm) && f.WellFormed()
      reads this
    {
      var m := Measure(f, width, height, norm);
      && report.faceDetected
      && report.eyesOpen == EyesOpen(m.leftEar, m.rightEar)
      && Blinks(blinkCounter, lastBlinkTime) == BlinkStep(blinks, report.eyesOpen, now)
      && CurrentBaseline() == (if pending then Baseline(true, f.pitch, f.yaw, m.ratioL, m.ratioR) else baseline)
      && !doCalibrate
      && report.looking == Looking(f.pitch, f.yaw, m.ratioL, m.ratioR, CurrentBaseline(), report.eyesOpen)
      && report.emotion == currentEmotion
      && (task.Some? <==> !emotionThreadRunning && now - lastEmotionTime >= EmotionInterval)
      && (task.Some? ==> task.value == EmotionTask(height, width, FaceBox(f.landmarkXs, f.landmarkYs)))
    }
  }

  /** The per-eye measurements of one face. */
  datatype Measures = Measures(leftEar: real, rightEar: real, ratioL: real, ratioR: real)

  function Measure(f: FaceObservation, width: nat, height: nat, norm: Vec -> real): (m: Measures)
    requires IsNorm(norm) && f.WellFormed()
    ensures m.leftEar >= 0.0 && m.rightEar >= 0.0
  {
    var left, right := EyePixels(f.leftEye, width, height), EyePixels(f.rightEye, width, height);
    Measures(EyeAspectRatio(left, norm), EyeAspectRatio(right, norm),
             IrisRatio(left[0], left[3], ToPixels(f.leftIris, width, height), norm),
             IrisRatio(right[0], right[3], ToPixels(f.rightIris, width, height), norm))
  }

  /** A calibrating frame reports looking exactly when the eyes are open. */
  method CalibrateScenario(t: EmotionEyeTracker, height: nat, width: nat, f: FaceObservation, now: real, norm: Vec -> real)
    requires IsNorm(norm) && f.WellFormed()
    modifies t
  {
    t.RequestCalibration();
    var report, _ := t.ProcessFrame(height, width, Some(f), now, norm);
    CalibratingFrameLooksIffEyesOpen(t.calibPitch, t.calibYaw, t.calibRatioL, t.calibRatioR, report.eyesOpen);
    assert report.looking == report.eyesOpen;
    var noFace, _ := t.ProcessFrame(height, width, None, now, norm);
    assert t.calibrated && !noFace.looking;
  }

  /**
   * Dispatch does not raise the running flag, so a second frame arriving
   * before the first task has begun starts a second task.
   */
  method TwoDispatchesBeforeTheTaskRuns(t: EmotionEyeTracker, height: nat, width: nat, box: Box, now: real)
    requires !t.emotionThreadRunning && now - t.lastEmotionTime >= EmotionInterval
    modifies t
  {
    var first := t.UpdateEmotionAsync(height, width, box, now);
    var second := t.UpdateEmotionAsync(height, width, box, now);
    assert first.Some? && second.Some?;
    t.EmotionTaskBegins();
    var third := t.UpdateEmotionAsync(height, width, box, now);
    assert third.None?;
  }
}
