/**
 * The older emotion helpers of Vihar/face_detection/face_detection.py: the
 * rate-limited DeepFace and custom-model classifiers with their fallback to
 * the last label, the custom model's class names, the neighbour rule of the
 * mesh overlay, and the per-face loop of `process_frame`. The module-level
 * globals are the fields of `EmotionCache`; clock readings, detector boxes,
 * feature points and classifier answers are inputs.
 */
module LegacyEmotion {
  import opened Wrappers
  import opened FaceCrop

  /** Seconds between two classifications. */
  const CheckInterval: real := 0.5
  /** `int(h * 0.1)`: the crop padding, as a percentage of the face height. */
  const PadPercent: nat := 10
  /** The class names used when the model comes without a configuration file. */
  const DefaultClassNames: seq<string> := ["anger", "delight", "fear", "joy", "sadness", "surprise"]
  /** Two mesh points closer than this (Manhattan distance) are linked. */
  const LinkDistance: int := 15
  /** A source point stops looking for neighbours once it has this many links. */
  const MaxLinks: nat := 3

  /** `np.argmax` of a non-empty row: the first index of a largest score. */
  function ArgMax(scores: seq<real>): (i: nat)
    requires |scores| > 0
    ensures i < |scores|
    ensures forall k :: 0 <= k < |scores| ==> scores[k] <= scores[i]
    ensures forall k :: 0 <= k < i ==> scores[k] < scores[i]
  {
    if |scores| == 1 then 0
    else
      var j := ArgMax(scores[..|scores| - 1]);
      if scores[|scores| - 1] > scores[j] then |scores| - 1 else j
  }

  /**
   * The label the custom model yields for the prediction row it returned
   * (None when it raised): the class name at the arg-max. An empty row or an
   * arg-max past the class names raises, which is a failure too.
   */
  function CustomLabel(predictions: Option<seq<real>>, classNames: seq<string>): (r: Option<string>)
    ensures r.Some? <==> predictions.Some? && |predictions.value| > 0 && ArgMax(predictions.value) < |classNames|
    ensures r.Some? ==> r.value in classNames
  {
    match predictions
    case None => None
    case Some(row) =>
      if |row| == 0 then None
      else
        var i := ArgMax(row);
        if i < |classNames| then Some(classNames[i]) else None
  }

  /** A label the custom model yields is the class of a top-scoring prediction. */
  lemma CustomLabelIsTopClass(row: seq<real>, classNames: seq<string>)
    requires CustomLabel(Some(row), classNames).Some?
    ensures exists i :: 0 <= i < |row| && i < |classNames| && CustomLabel(Some(row), classNames).value == classNames[i] &&
                        forall k :: 0 <= k < |row| ==> row[k] <= row[i]
  {
    var i := ArgMax(row);
    assert CustomLabel(Some(row), classNames).value == classNames[i];
  }

  /** `process_frame`'s choice: the custom model only when asked for and loaded. */
  predicate UsesCustom(useCustom: bool, modelLoaded: bool): (custom: bool)
    ensures custom ==> modelLoaded
    ensures !useCustom ==> !custom
    ensures useCustom && modelLoaded ==> custom
  {
    useCustom && modelLoaded
  }

  /** The contents of the model configuration file. */
  datatype ConfigFile = Missing | Parsed(classNames: seq<string>) | Unreadable

  /** What the classifier answered for one face: a DeepFace label, or a custom-model prediction row. */
  datatype Answer = Answer(deepface: Option<string>, predictions: Option<seq<real>>)

  /** The cached label and the time it was computed: `last_emotion` and `last_check_time`. */
  datatype Cached = Cached(emotion: string, checkTime: real)

  /**
   * One face of `process_frame` against the cache: the chosen classifier's
   * label replaces the cache when 0.5 s have passed, the crop is non-empty
   * and the classifier produced a label; otherwise the cache stays. The
   * face is shown with the cached label either way.
   */
  function FaceStep(c: Cached, b: Box, answer: Answer, custom: bool, classNames: seq<string>,
                    height: nat, width: nat, now: real): (d: Cached)
    requires b.h >= 0
    ensures d == c || (d.checkTime == now && now - c.checkTime >= CheckInterval)
    ensures now - c.checkTime < CheckInterval ==> d == c
  {
    var outcome := if custom then CustomLabel(answer.predictions, classNames) else answer.deepface;
    if now - c.checkTime >= CheckInterval && outcome.Some? &&
       NonEmptyCrop(HeightPaddedCrop(b, PadPercent, height, width), height, width)
    then Cached(outcome.value, now)
    else c
  }

  /** The labels of a frame's faces, in order, and the cache after the last one: `FaceStep` folded over the faces. */
  function FrameLabels(c: Cached, faces: seq<Box>, answers: seq<Answer>, custom: bool, classNames: seq<string>,
                       height: nat, width: nat, now: real): (r: (seq<string>, Cached))
    requires |answers| == |faces|
    requires forall k :: 0 <= k < |faces| ==> faces[k].h >= 0
    ensures |r.0| == |faces|
    decreases |faces|
  {
    if faces == [] then ([], c)
    else
      var n := |faces| - 1;
      var before := FrameLabels(c, faces[..n], answers[..n], custom, classNames, height, width, now);
      var d := FaceStep(before.1, faces[n], answers[n], custom, classNames, height, width, now);
      (before.0 + [d.emotion], d)
  }

  /**
   * What one frame can show, for cache `c`, labels `labels` and final cache
   * `d`: every label is the old one or the final one; a label other than
   * the old one comes from a classification at `now`, and every later face
   * repeats it; and within 0.5 s of the last check nothing changes.
   */
  predicate FrameShows(c: Cached, labels: seq<string>, d: Cached, now: real)
  {
    && (d == c || d.checkTime == now)
    && (forall k :: 0 <= k < |labels| ==> labels[k] == c.emotion || labels[k] == d.emotion)
    && (forall k :: 0 <= k < |labels| && labels[k] != c.emotion ==> d.checkTime == now && labels[k] == d.emotion)
    && (forall k, l :: 0 <= k < l < |labels| && labels[k] != c.emotion ==> labels[l] == labels[k])
    && (now - c.checkTime < CheckInterval ==> d == c && forall k :: 0 <= k < |labels| ==> labels[k] == c.emotion)
  }

  /**
   * A classification restarts the 0.5 s wait, so within one frame at most
   * one face is classified and every later face repeats its label.
   */
  lemma {:induction false} FrameLabelsShowOneClassification(c: Cached, faces: seq<Box>, answers: seq<Answer>, custom: bool,
                                                             classNames: seq<string>, height: nat, width: nat, now: real)
    requires |answers| == |faces|
    requires forall k :: 0 <= k < |faces| ==> faces[k].h >= 0
    ensures FrameShows(c, FrameLabels(c, faces, answers, custom, classNames, height, width, now).0,
                       FrameLabels(c, faces, answers, custom, classNames, height, width, now).1, now)
    decreases |faces|
  {
    if faces != [] {
      var n := |faces| - 1;
      FrameLabelsShowOneClassification(c, faces[..n], answers[..n], custom, classNames, height, width, now);
      var before := FrameLabels(c, faces[..n], answers[..n], custom, classNames, height, width, now);
      var d := FaceStep(before.1, faces[n], answers[n], custom, classNames, height, width, now);
      if d != before.1 {
        // A fresh classification needs 0.5 s since the previous check, so the cache was untouched so far.
        assert before.1 == c;
        assert forall k :: 0 <= k < |before.0| ==> before.0[k] == c.emotion;
      }
    }
  }

  /** The globals `last_emotion`, `last_check_time`, `custom_model` (loaded or not) and `class_names`. */
  class EmotionCache {
    var lastEmotion: string
    var lastCheckTime: real
    var modelLoaded: bool
    var classNames: seq<string>

    constructor ()
      ensures lastEmotion == "neutral" && lastCheckTime == 0.0 && !modelLoaded && classNames == []
    {
      lastEmotion := "neutral";
      lastCheckTime := 0.0;
      modelLoaded := false;
      classNames := [];
    }

    /**
     * `load_custom_model`: when the model loads it is kept even if the
     * configuration then fails to parse; the class names come from the
     * configuration, or are the six defaults when the file is missing.
     */
    method LoadCustomModel(modelLoads: bool, config: ConfigFile) returns (ok: bool)
      modifies this
      ensures !modelLoads ==> !ok && modelLoaded == old(modelLoaded) && classNames == old(classNames)
      ensures modelLoads ==> modelLoaded
      ensures modelLoads && config.Missing? ==> ok && classNames == DefaultClassNames
      ensures modelLoads && config.Parsed? ==> ok && classNames == config.classNames
      ensures modelLoads && config.Unreadable? ==> !ok && classNames == old(classNames)
      ensures lastEmotion == old(lastEmotion) && lastCheckTime == old(lastCheckTime)
    {
      if !modelLoads {
        return false;
      }
      modelLoaded := true;
      match config {
        case Missing =>
          classNames := DefaultClassNames;
        case Parsed(names) =>
          classNames := names;
        case Unreadable =>
          return false;
      }
      return true;
    }

    /** The common tail of both classifiers: store a label only when one was produced. */
    method Settle(outcome: Option<string>, now: real) returns (emotion: string)
      modifies this
      ensures emotion == lastEmotion
      ensures outcome.Some? ==> lastEmotion == outcome.value && lastCheckTime == now
      ensures outcome.None? ==> lastEmotion == old(lastEmotion) && lastCheckTime == old(lastCheckTime)
      ensures modelLoaded == old(modelLoaded) && classNames == old(classNames)
    {
      if outcome.Some? {
        lastEmotion := outcome.value;
        lastCheckTime := now;
      }
      return lastEmotion;
    }

    /**
     * `detect_emotion` at clock reading `now`, with DeepFace's dominant label
     * (None when it raised): within 0.5 s of the last classification, for an
     * empty crop, or on failure, the last label is returned and nothing changes.
     */
    method DetectEmotion(height: nat, width: nat, b: Box, now: real, classified: Option<string>) returns (emotion: string)
      requires b.h >= 0
      modifies this
      ensures emotion == lastEmotion
      ensures if now - old(lastCheckTime) >= CheckInterval &&
                 NonEmptyCrop(HeightPaddedCrop(b, PadPercent, height, width), height, width) &&
                 classified.Some?
              then lastEmotion == classified.value && lastCheckTime == now
              else lastEmotion == old(lastEmotion) && lastCheckTime == old(lastCheckTime)
      ensures modelLoaded == old(modelLoaded) && classNames == old(classNames)
    {
      if now - lastCheckTime < CheckInterval {
        return lastEmotion;
      }
      var crop := HeightPaddedCrop(b, PadPercent, height, width);
      if !NonEmptyCrop(crop, height, width) {
        return lastEmotion;
      }
      emotion := Settle(classified, now);
    }

    /**
     * `detect_emotion_custom`: the same rate limit, crop and fallback, with
     * the label taken from the prediction row; a model that is not loaded
     * raises, which falls back as well.
     */
    method DetectEmotionCustom(height: nat, width: nat, b: Box, now: real, predictions: Option<seq<real>>)
      returns (emotion: string)
      requires b.h >= 0
      modifies this
      ensures emotion == lastEmotion
      ensures var outcome := if old(modelLoaded) then CustomLabel(predictions, classNames) else None;
              if now - old(lastCheckTime) >= CheckInterval &&
                 NonEmptyCrop(HeightPaddedCrop(b, PadPercent, height, width), height, width) &&
                 outcome.Some?
              then lastEmotion == outcome.value && lastCheckTime == now
              else lastEmotion == old(lastEmotion) && lastCheckTime == old(lastCheckTime)
      ensures modelLoaded == old(modelLoaded) && classNames == old(classNames)
    {
      if now - lastCheckTime < CheckInterval {
        return lastEmotion;
      }
      var crop := HeightPaddedCrop(b, PadPercent, height, width);
      if !NonEmptyCrop(crop, height, width) {
        return lastEmotion;
      }
      var outcome := if modelLoaded then CustomLabel(predictions, classNames) else None;
      emotion := Settle(outcome, now);
    }

    /**
     * The per-face loop of `process_frame`, all faces read at clock `now`:
     * each face is labelled by the classifier `UsesCustom` chooses, so the
     * labels and the cache are `FrameLabels` from the old cache.
     */
    method ProcessFrame(height: nat, width: nat, faces: seq<Box>, answers: seq<Answer>, useCustom: bool, now: real)
      returns (labels: seq<string>)
      requires |answers| == |faces|
      requires forall k :: 0 <= k < |faces| ==> faces[k].h >= 0
      modifies this
      ensures var r := FrameLabels(Cached(old(lastEmotion), old(lastCheckTime)), faces, answers,
                                   UsesCustom(useCustom, old(modelLoaded)), old(classNames), height, width, now);
              labels == r.0 && Cached(lastEmotion, lastCheckTime) == r.1
      ensures FrameShows(Cached(old(lastEmotion), old(lastCheckTime)), labels, Cached(lastEmotion, lastCheckTime), now)
      ensures modelLoaded == old(modelLoaded) && classNames == old(classNames)
    {
      ghost var c := Cached(lastEmotion, lastCheckTime);
      ghost var custom := UsesCustom(useCustom, modelLoaded);
      labels := [];
      var i := 0;
      while i < |faces|
        invariant 0 <= i <= |faces|
        invariant modelLoaded == old(modelLoaded) && classNames == old(classNames)
        invariant (labels, Cached(lastEmotion, lastCheckTime)) ==
                  FrameLabels(c, faces[..i], answers[..i], custom, classNames, height, width, now)
      {
        ghost var before := Cached(lastEmotion, lastCheckTime);
        var emotion;
        if UsesCustom(useCustom, modelLoaded) {
          emotion := DetectEmotionCustom(height, width, faces[i], now, answers[i].predictions);
        } else {
          emotion := DetectEmotion(height, width, faces[i], now, answers[i].deepface);
        }
        assert Cached(lastEmotion, lastCheckTime) ==
               FaceStep(before, faces[i], answers[i], custom, classNames, height, width, now);
        assert faces[..i + 1][..i] == faces[..i] && answers[..i + 1][..i] == answers[..i];
        labels := labels + [emotion];
        i := i + 1;
      }
      assert faces[..i] == faces && answers[..i] == answers;
      FrameLabelsShowOneClassification(c, faces, answers, custom, classNames, height, width, now);
    }
  }

  /** A mesh point in frame pixels. */
  datatype Point = Point(x: int, y: int)

  /** Two points are linked when their Manhattan distance is below 15. */
  predicate Near(p: Point, q: Point): (near: bool)
    ensures p == q ==> near
    ensures near <==> Abs(q.x - p.x) + Abs(q.y - p.y) < LinkDistance
    ensures near ==> Abs(p.x - q.x) < LinkDistance && Abs(p.y - q.y) < LinkDistance
  {
    Abs(p.x - q.x) + Abs(p.y - q.y) < LinkDistance
  }

  /**
   * The neighbours point i links to, scanning j upward from `from` with room
   * for `room` more links: every other point within the distance, until the
   * room runs out.
   */
  function Neighbours(points: seq<Point>, i: nat, from: nat, room: nat): (js: seq<nat>)
    requires i < |points|
    ensures |js| <= room
    decreases |points| - from
  {
    if from >= |points| || room == 0 then []
    else if from != i && Near(points[i], points[from]) then [from] + Neighbours(points, i, from + 1, room - 1)
    else Neighbours(points, i, from + 1, room)
  }

  /** Each of js is a point other than i, at or after `from`, within the distance of point i. */
  predicate AllNear(points: seq<Point>, i: nat, from: nat, js: seq<nat>)
    requires i < |points|
  {
    forall k :: 0 <= k < |js| ==> from <= js[k] < |points| && js[k] != i && Near(points[i], points[js[k]])
  }

  predicate Ascending(js: seq<nat>)
  {
    forall k, l :: 0 <= k < l < |js| ==> js[k] < js[l]
  }

  /** Every neighbour found is another point within the distance, and they come in increasing order. */
  lemma {:induction false} NeighboursAreNear(points: seq<Point>, i: nat, from: nat, room: nat)
    requires i < |points|
    ensures AllNear(points, i, from, Neighbours(points, i, from, room))
    ensures Ascending(Neighbours(points, i, from, room))
    decreases |points| - from
  {
    if from < |points| && room > 0 {
      var js := Neighbours(points, i, from, room);
      if from != i && Near(points[i], points[from]) {
        var tail := Neighbours(points, i, from + 1, room - 1);
        NeighboursAreNear(points, i, from + 1, room - 1);
        assert js == [from] + tail;
        forall k | 0 <= k < |js|
          ensures from <= js[k] < |points| && js[k] != i && Near(points[i], points[js[k]])
        {
          if k > 0 {
            assert js[k] == tail[k - 1];
          }
        }
      } else {
        var tail := Neighbours(points, i, from + 1, room);
        NeighboursAreNear(points, i, from + 1, room);
        assert js == tail;
      }
    }
  }

  /** The links drawn from source point i: none for odd i, else its first three neighbours. */
  function RowLinks(points: seq<Point>, i: nat): (links: seq<(nat, nat)>)
    requires i < |points|
    ensures |links| <= MaxLinks
    ensures i % 2 != 0 ==> links == []
    ensures forall k :: 0 <= k < |links| ==> links[k].0 == i
  {
    if i % 2 != 0 then []
    else
      var js := Neighbours(points, i, 0, MaxLinks);
      seq(|js|, k requires 0 <= k < |js| => (i, js[k]))
  }

  /** All links drawn from the first n points, source by source. */
  function Mesh(points: seq<Point>, n: nat): seq<(nat, nat)>
    requires n <= |points|
  {
    if n == 0 then [] else Mesh(points, n - 1) + RowLinks(points, n - 1)
  }

  /** A link joins an even point to a different point within the distance. */
  predicate LinkRule(points: seq<Point>, link: (nat, nat))
  {
    link.0 < |points| && link.1 < |points| && link.0 % 2 == 0 && link.0 != link.1 &&
    Near(points[link.0], points[link.1])
  }

  /** Every link of the mesh obeys the rule, and its source is one of the first n points. */
  lemma {:induction false} MeshFollowsRule(points: seq<Point>, n: nat)
    requires n <= |points|
    ensures forall k :: 0 <= k < |Mesh(points, n)| ==> LinkRule(points, Mesh(points, n)[k]) && Mesh(points, n)[k].0 < n
  {
    if n > 0 {
      MeshFollowsRule(points, n - 1);
      var before, row := Mesh(points, n - 1), RowLinks(points, n - 1);
      if (n - 1) % 2 == 0 {
        var js := Neighbours(points, n - 1, 0, MaxLinks);
        NeighboursAreNear(points, n - 1, 0, MaxLinks);
        forall k | 0 <= k < |row|
          ensures LinkRule(points, row[k]) && row[k].0 < n
        {
          assert row[k] == (n - 1, js[k]);
        }
      }
      assert forall k :: |before| <= k < |before| + |row| ==> Mesh(points, n)[k] == row[k - |before|];
    }
  }

  /** One step of the neighbour scan at j. */
  lemma NeighboursStep(points: seq<Point>, i: nat, j: nat, room: nat)
    requires i < |points| && j < |points| && room > 0
    ensures Neighbours(points, i, j, room) ==
            if j != i && Near(points[i], points[j]) then [j] + Neighbours(points, i, j + 1, room - 1)
            else Neighbours(points, i, j + 1, room)
  {
  }

  lemma AppendShift(taken: seq<nat>, j: nat, rest: seq<nat>)
    ensures taken + ([j] + rest) == (taken + [j]) + rest
  {
  }

  /** The links point i adds, found by the inner loop of `draw_face_mesh`. */
  method LinksFrom(points: seq<Point>, i: nat) returns (row: seq<(nat, nat)>)
    requires i < |points| && i % 2 == 0
    ensures row == RowLinks(points, i)
  {
    var taken: seq<nat> := [];
    var connections: nat := 0;
    var j := 0;
    while j < |points|
      invariant 0 <= j <= |points| && connections == |taken| < MaxLinks
      invariant taken + Neighbours(points, i, j, MaxLinks - connections) == Neighbours(points, i, 0, MaxLinks)
      decreases |points| - j
    {
      NeighboursStep(points, i, j, MaxLinks - connections);
      if i == j {
        j := j + 1;
        continue;
      }
      var p1, p2 := points[i], points[j];
      var distance := Abs(p1.x - p2.x) + Abs(p1.y - p2.y);
      if distance < LinkDistance {
        ghost var rest := Neighbours(points, i, j + 1, MaxLinks - connections - 1);
        AppendShift(taken, j, rest);
        taken := taken + [j];
        connections := connections + 1;
        if connections > 2 {
          assert rest == [];
          assert taken == Neighbours(points, i, 0, MaxLinks);
          break;
        }
      }
      j := j + 1;
    }
    row := seq(|taken|, k requires 0 <= k < |taken| => (i, taken[k]));
  }

  /** `draw_face_mesh`'s nested loops over the feature points, as the list of lines drawn. */
  method MeshLinks(points: seq<Point>) returns (links: seq<(nat, nat)>)
    ensures links == Mesh(points, |points|)
    ensures forall k :: 0 <= k < |links| ==> LinkRule(points, links[k])
  {
    links := [];
    var i := 0;
    while i < |points|
      invariant 0 <= i <= |points| && links == Mesh(points, i)
    {
      if i % 2 == 0 {
        var row := LinksFrom(points, i);
        links := links + row;
      }
      i := i + 1;
    }
    MeshFollowsRule(points, |points|);
  }
}
