/**
 * The emotion monitoring server of emotion-server/server.py: a tracker thread
 * that picks the largest detected face, dispatches at most one classifier
 * call per second on a padded crop, keeps a rolling history of 20 results in
 * the shared state, and the `/emotion`, `/start` and `/stop` handlers.
 * Detector boxes, classifier answers, clock readings and the formatted wall
 * time are inputs; the threads run as sequential calls.
 */
module EmotionServer {
  import opened Wrappers
  import opened FaceCrop

  /** `emotion_interval`: seconds between classifier calls. */
  const EmotionInterval: real := 1.0
  /** `int(h * 0.15)`: the crop padding, as a percentage of the face height. */
  const PadPercent: nat := 15
  /** The rolling history keeps at most this many entries. */
  const HistoryCap: nat := 20
  /** `/emotion` reports at most this many of the newest entries. */
  const ReportedEntries: nat := 10
  /** The labels the lite mode cycles through. */
  const LiteEmotions: seq<string> := ["neutral", "happy", "surprised", "sad", "neutral", "happy"]

  /** One entry of `emotion_history`: the wall-clock time and the label. */
  datatype HistoryEntry = HistoryEntry(time: string, emotion: string)

  /**
   * The history after one more entry: appended at the end, and the oldest
   * entry dropped when that makes it longer than 20.
   */
  function Appended(history: seq<HistoryEntry>, entry: HistoryEntry): (r: seq<HistoryEntry>)
    ensures |r| > 0 && r[|r| - 1] == entry
    ensures |history| <= HistoryCap ==> |r| <= HistoryCap
    ensures |history| < HistoryCap ==> r == history + [entry]
    ensures |history| >= HistoryCap ==> r == history[1..] + [entry]
  {
    var grown := history + [entry];
    if |grown| > HistoryCap then grown[1..] else grown
  }

  /** The newest `n` entries, or all of them when there are fewer: `h[-n:]`. */
  function Newest<T>(h: seq<T>, n: nat): (r: seq<T>)
    ensures |r| == if |h| < n then |h| else n
    ensures r == h[|h| - |r|..]
  {
    if |h| <= n then h else h[|h| - n..]
  }

  /** The history after classifying a run of labels, one `Appended` at a time. */
  function Recorded(history: seq<HistoryEntry>, entries: seq<HistoryEntry>): seq<HistoryEntry>
    decreases |entries|
  {
    if entries == [] then history else Recorded(Appended(history, entries[0]), entries[1..])
  }

  /**
   * Starting from a history of at most 20 entries, the history is always the
   * newest 20 of everything recorded so far, in order.
   */
  lemma {:induction false} RecordedKeepsNewest(history: seq<HistoryEntry>, entries: seq<HistoryEntry>)
    requires |history| <= HistoryCap
    ensures Recorded(history, entries) == Newest(history + entries, HistoryCap)
    decreases |entries|
  {
    if entries == [] {
      assert history + entries == history;
    } else {
      RecordedKeepsNewest(Appended(history, entries[0]), entries[1..]);
      AppendedKeepsNewest(history, entries);
    }
  }

  /** Appending the first of the pending entries does not change the newest 20 of everything. */
  lemma AppendedKeepsNewest(history: seq<HistoryEntry>, entries: seq<HistoryEntry>)
    requires |history| <= HistoryCap && entries != []
    ensures Newest(Appended(history, entries[0]) + entries[1..], HistoryCap) == Newest(history + entries, HistoryCap)
  {
    var next := Appended(history, entries[0]);
    var all := history + entries;
    if |history| < HistoryCap {
      assert next + entries[1..] == all;
    } else {
      assert next + entries[1..] == all[1..];
      NewestOfTail(all, HistoryCap);
    }
  }

  /** Dropping the oldest element of a sequence longer than n keeps its newest n. */
  lemma NewestOfTail<T>(s: seq<T>, n: nat)
    requires |s| > n
    ensures Newest(s[1..], n) == Newest(s, n)
  {
    assert s[1..][|s| - 1 - n..] == s[|s| - n..];
  }

  /** The area `w * h` that `max(faces, key=...)` compares. */
  function Area(b: Box): (area: int)
    ensures b.w >= 0 && b.h >= 0 ==> area >= 0
    ensures area == 0 <==> b.w == 0 || b.h == 0
  {
    b.w * b.h
  }

  /** The index `max` picks: the first face of largest area. */
  function LargestIndex(faces: seq<Box>): (i: nat)
    requires |faces| > 0
    ensures i < |faces|
    ensures forall k :: 0 <= k < |faces| ==> Area(faces[k]) <= Area(faces[i])
    ensures forall k :: 0 <= k < i ==> Area(faces[k]) < Area(faces[i])
  {
    if |faces| == 1 then 0
    else
      var j := LargestIndex(faces[..|faces| - 1]);
      if Area(faces[|faces| - 1]) > Area(faces[j]) then |faces| - 1 else j
  }

  /** The outcome of `run`'s set-up: no vision libraries, or the cascade, camera or success. */
  datatype RunSetup = Lite | CascadeFailed | CameraUnavailable | Ready

  /** The module-level `state` dictionary. */
  class SharedState {
    var running: bool
    var emotion: string
    var confidence: real
    var faceDetected: bool
    var sessionStart: Option<string>
    var lastUpdated: Option<string>
    var history: seq<HistoryEntry>
    var error: Option<string>

    ghost predicate Valid()
      reads this
    {
      |history| <= HistoryCap
    }

    constructor ()
      ensures Valid()
      ensures !running && emotion == "neutral" && confidence == 0.0 && !faceDetected
      ensures sessionStart.None? && lastUpdated.None? && history == [] && error.None?
    {
      running := false;
      emotion := "neutral";
      confidence := 0.0;
      faceDetected := false;
      sessionStart := None;
      lastUpdated := None;
      history := [];
      error := None;
    }
  }

  /** The `/emotion` response. */
  datatype EmotionResponse = EmotionResponse(
    emotion: string, confidence: real, faceDetected: bool, eyesOpen: bool, looking: bool,
    blinkCount: nat, sessionStart: Option<string>, lastUpdated: Option<string>,
    history: seq<HistoryEntry>, error: Option<string>)

  /**
   * `/emotion`: the state as it is, the newest 10 history entries, and eyes
   * open and looking both standing in for face detected; no blinks are counted.
   */
  method GetEmotion(st: SharedState) returns (r: EmotionResponse)
    ensures r.emotion == st.emotion && r.confidence == st.confidence && r.faceDetected == st.faceDetected
    ensures r.eyesOpen == st.faceDetected && r.looking == st.faceDetected && r.blinkCount == 0
    ensures r.sessionStart == st.sessionStart && r.lastUpdated == st.lastUpdated && r.error == st.error
    ensures |r.history| <= ReportedEntries && |r.history| <= |st.history|
    ensures |st.history| >= ReportedEntries ==> |r.history| == ReportedEntries
    ensures r.history == st.history[|st.history| - |r.history|..]
  {
    var face := st.faceDetected;
    r := EmotionResponse(st.emotion, st.confidence, face, face, face, 0,
                         st.sessionStart, st.lastUpdated, Newest(st.history, ReportedEntries), st.error);
  }

  /** `TrackerThread`: the per-tracker fields and the stop event. */
  class TrackerThread {
    var stopRequested: bool
    var currentEmotion: string
    var lastEmotionTime: real
    var emotionRunning: bool

    constructor ()
      ensures !stopRequested && currentEmotion == "neutral" && lastEmotionTime == 0.0 && !emotionRunning
    {
      stopRequested := false;
      currentEmotion := "neutral";
      lastEmotionTime := 0.0;
      emotionRunning := false;
    }

    /** `stop`: set the stop event. */
    method Stop()
      modifies this
      ensures stopRequested
      ensures currentEmotion == old(currentEmotion) && lastEmotionTime == old(lastEmotionTime)
      ensures emotionRunning == old(emotionRunning)
    {
      stopRequested := true;
    }

    /**
     * `_trigger_emotion` at clock reading `now`: nothing while a call is
     * running or less than a second has passed; otherwise the time is taken,
     * and the crop is dispatched (raising the running flag) unless it is empty.
     */
    method TriggerEmotion(height: nat, width: nat, b: Box, now: real) returns (dispatched: Option<Rect>)
      requires b.h >= 0
      modifies this
      ensures old(emotionRunning) || now - old(lastEmotionTime) < EmotionInterval ==>
                dispatched.None? && lastEmotionTime == old(lastEmotionTime) && emotionRunning == old(emotionRunning)
      ensures !old(emotionRunning) && now - old(lastEmotionTime) >= EmotionInterval ==>
                lastEmotionTime == now &&
                (dispatched.Some? <==>
                   NonEmptyCrop(HeightPaddedCrop(b, PadPercent, height, width), height, width)) &&
                (dispatched.Some? ==> dispatched.value == HeightPaddedCrop(b, PadPercent, height, width))
      ensures emotionRunning <==> old(emotionRunning) || dispatched.Some?
      ensures currentEmotion == old(currentEmotion) && stopRequested == old(stopRequested)
    {
      if emotionRunning {
        return None;
      }
      if now - lastEmotionTime < EmotionInterval {
        return None;
      }
      lastEmotionTime := now;
      var crop := HeightPaddedCrop(b, PadPercent, height, width);
      if !NonEmptyCrop(crop, height, width) {
        return None;
      }
      emotionRunning := true;
      return Some(crop);
    }

    /**
     * `_run_deepface` with the classifier's answer: the dominant label and
     * its confidence, or None when it found nothing or raised. A result is
     * stored and appended to the history; the running flag is cleared either way.
     */
    method RunDeepface(st: SharedState, result: Option<(string, real)>, clock: string)
      requires st.Valid()
      modifies this, st
      ensures st.Valid() && !emotionRunning
      ensures result.Some? ==>
                currentEmotion == result.value.0 && st.emotion == result.value.0 &&
                st.confidence == result.value.1 &&
                st.history == Appended(old(st.history), HistoryEntry(clock, result.value.0))
      ensures result.None? ==>
                currentEmotion == old(currentEmotion) && st.emotion == old(st.emotion) &&
                st.confidence == old(st.confidence) && st.history == old(st.history)
      ensures lastEmotionTime == old(lastEmotionTime) && stopRequested == old(stopRequested)
      ensures st.running == old(st.running) && st.faceDetected == old(st.faceDetected)
      ensures st.sessionStart == old(st.sessionStart) && st.lastUpdated == old(st.lastUpdated)
      ensures st.error == old(st.error)
    {
      if result.Some? {
        var (dom, conf) := result.value;
        currentEmotion := dom;
        st.emotion := dom;
        st.confidence := conf;
        st.history := st.history + [HistoryEntry(clock, dom)];
        if |st.history| > HistoryCap {
          st.history := st.history[1..];
        }
      }
      emotionRunning := false;
    }

    /**
     * One pass of the full-mode frame loop over the detector's boxes: the
     * largest face triggers a classification; without a face the label resets
     * to neutral in both places. Returns the crop dispatched, if any.
     */
    method FrameStep(st: SharedState, faces: seq<Box>, height: nat, width: nat, now: real, clock: string)
      returns (dispatched: Option<Rect>)
      requires forall k :: 0 <= k < |faces| ==> faces[k].h >= 0
      modifies this, st
      ensures st.faceDetected == (|faces| > 0) && st.lastUpdated == Some(clock)
      ensures |faces| == 0 ==>
                dispatched.None? && currentEmotion == "neutral" && st.emotion == "neutral" &&
                lastEmotionTime == old(lastEmotionTime) && emotionRunning == old(emotionRunning)
      ensures |faces| > 0 ==>
                var b := faces[LargestIndex(faces)];
                st.emotion == old(st.emotion) && currentEmotion == old(currentEmotion) &&
                (old(emotionRunning) || now - old(lastEmotionTime) < EmotionInterval ==>
                   dispatched.None? && lastEmotionTime == old(lastEmotionTime) && emotionRunning == old(emotionRunning)) &&
                (!old(emotionRunning) && now - old(lastEmotionTime) >= EmotionInterval ==>
                   lastEmotionTime == now &&
                   (dispatched.Some? <==>
                      NonEmptyCrop(HeightPaddedCrop(b, PadPercent, height, width), height, width)) &&
                   (dispatched.Some? ==> dispatched.value == HeightPaddedCrop(b, PadPercent, height, width)))
      ensures emotionRunning <==> old(emotionRunning) || dispatched.Some?
      ensures st.running == old(st.running) && st.confidence == old(st.confidence)
      ensures st.history == old(st.history) && st.sessionStart == old(st.sessionStart) && st.error == old(st.error)
      ensures stopRequested == old(stopRequested)
    {
      var faceDetected := |faces| > 0;
      dispatched := None;
      if faceDetected {
        var b := faces[LargestIndex(faces)];
        dispatched := TriggerEmotion(height, width, b, now);
      } else {
        currentEmotion := "neutral";
      }
      st.faceDetected := faceDetected;
      st.lastUpdated := Some(clock);
      if !faceDetected {
        st.emotion := "neutral";
      }
    }

    /**
     * The set-up part of `run`: lite mode and a successful set-up mark the
     * session as running and stamp its start; a failed cascade or camera
     * only records the error. Returns whether a frame loop follows.
     */
    method BeginRun(st: SharedState, setup: RunSetup, clock: string) returns (loops: bool)
      modifies st
      ensures loops <==> setup == Lite || setup == Ready
      ensures setup == Lite ==> st.running && st.sessionStart == Some(clock) && st.error == Some("lite_mode")
      ensures setup == Ready ==> st.running && st.sessionStart == Some(clock) && st.error.None?
      ensures setup == CascadeFailed ==>
                st.running == old(st.running) && st.sessionStart == old(st.sessionStart) &&
                st.error == Some("cascade_load_failed")
      ensures setup == CameraUnavailable ==>
                st.running == old(st.running) && st.sessionStart == old(st.sessionStart) &&
                st.error == Some("camera_unavailable")
      ensures st.emotion == old(st.emotion) && st.confidence == old(st.confidence)
      ensures st.faceDetected == old(st.faceDetected) && st.lastUpdated == old(st.lastUpdated)
      ensures st.history == old(st.history)
    {
      match setup {
        case Lite =>
          st.running := true;
          st.sessionStart := Some(clock);
          st.error := Some("lite_mode");
          loops := true;
        case CascadeFailed =>
          st.error := Some("cascade_load_failed");
          loops := false;
        case CameraUnavailable =>
          st.error := Some("camera_unavailable");
          loops := false;
        case Ready =>
          st.running := true;
          st.sessionStart := Some(clock);
          st.error := None;
          loops := true;
      }
    }

    /** One pass of the lite loop: the idx-th label of the cycle, a face, and the time. */
    method LiteFrame(st: SharedState, idx: nat, clock: string)
      modifies st
      ensures st.emotion == LiteEmotions[idx % |LiteEmotions|] && st.faceDetected && st.lastUpdated == Some(clock)
      ensures st.running == old(st.running) && st.confidence == old(st.confidence)
      ensures st.history == old(st.history) && st.sessionStart == old(st.sessionStart) && st.error == old(st.error)
    {
      st.emotion := LiteEmotions[idx % |LiteEmotions|];
      st.faceDetected := true;
      st.lastUpdated := Some(clock);
    }

    /** The `finally` of the full-mode loop: the session is no longer running. */
    method EndRun(st: SharedState)
      modifies st
      ensures !st.running
      ensures st.emotion == old(st.emotion) && st.confidence == old(st.confidence)
      ensures st.faceDetected == old(st.faceDetected) && st.lastUpdated == old(st.lastUpdated)
      ensures st.history == old(st.history) && st.sessionStart == old(st.sessionStart) && st.error == old(st.error)
    {
      st.running := false;
    }
  }

  /** The Flask app: the shared state and the global `_tracker`. */
  class Server {
    const st: SharedState
    var tracker: Option<TrackerThread>

    constructor (st: SharedState)
      ensures this.st == st && tracker.None?
    {
      this.st := st;
      tracker := None;
    }

    /**
     * `/start`: when the state says running, answer "already running" and
     * keep the tracker; otherwise replace `_tracker` by a new thread. The
     * thread's own `run` is a separate step (`BeginRun`).
     */
    method Start() returns (message: string)
      modifies this
      ensures old(st.running) ==> message == "already running" && tracker == old(tracker)
      ensures !old(st.running) ==>
                message == "tracker started" && tracker.Some? && fresh(tracker.value) &&
                !tracker.value.stopRequested && !tracker.value.emotionRunning
    {
      if st.running {
        return "already running";
      }
      var t := new TrackerThread();
      tracker := Some(t);
      return "tracker started";
    }

    /** `/stop`: stop and forget the tracker if there is one; the state is not running afterwards. */
    method Stop() returns (message: string)
      modifies this, st, if tracker.Some? then {tracker.value} else {}
      ensures message == "tracker stopped" && !st.running && tracker.None?
      ensures old(tracker).Some? ==> old(tracker).value.stopRequested
      ensures st.emotion == old(st.emotion) && st.history == old(st.history) && st.error == old(st.error)
      ensures st.confidence == old(st.confidence) && st.faceDetected == old(st.faceDetected)
      ensures st.sessionStart == old(st.sessionStart) && st.lastUpdated == old(st.lastUpdated)
      ensures old(tracker).Some? ==>
                var t := old(tracker).value;
                t.currentEmotion == old(t.currentEmotion) && t.lastEmotionTime == old(t.lastEmotionTime) &&
                t.emotionRunning == old(t.emotionRunning)
    {
      if tracker.Some? {
        tracker.value.Stop();
        tracker := None;
      }
      st.running := false;
      return "tracker stopped";
    }
  }

  /** A running session ignores `/start`, and `/stop` always ends it. */
  method StartStopScenario(server: Server)
    requires server.tracker.None?
    modifies server, server.st
  {
    var first := server.Start();
    var t := server.tracker;
    if first == "tracker started" {
      var running := server.tracker.value.BeginRun(server.st, Ready, "10:00:00");
      assert server.st.running;
      var second := server.Start();
      assert second == "already running" && server.tracker == t;
    }
    var stopped := server.Stop();
    assert !server.st.running && server.tracker.None?;
  }
}
