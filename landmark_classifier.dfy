/**
 * The rule-based emotion classifier of Vihar/face_detection.py: a fixed
 * decision list over a few face-mesh landmarks (integer pixel coordinates),
 * and the pairing of detected faces with landmark sets in `process_frame`.
 * Landmark extraction and face detection are inputs; depth (z) is not used
 * by the rules and is not kept.
 */
module LandmarkClassifier {
  import opened FaceCrop

  /** A face-mesh landmark in pixels. */
  datatype Landmark = Landmark(x: int, y: int)

  /** A complete face mesh has this many points. */
  const MeshSize: nat := 468

  /** The mesh indices the rules read. */
  const LeftMouth: nat := 61
  const RightMouth: nat := 291
  const TopLip: nat := 13
  const BottomLip: nat := 14
  const LeftEyebrow: nat := 107
  const RightEyebrow: nat := 336
  const Forehead: nat := 10
  const Chin: nat := 175

  const Neutral: string := "emotion 0"
  const Smile: string := "emotion 1"
  const Surprise: string := "emotion 2"
  const Sad: string := "emotion 3"
  const Anger: string := "emotion 4"
  const Labels: seq<string> := [Neutral, Smile, Surprise, Sad, Anger]

  /** The seven yes/no features the decision list looks at. */
  datatype Features = Features(
    cornersRaised: bool, mouthWide: bool, eyebrowsHigh: bool, mouthOpen: bool,
    cornersDown: bool, eyebrowsLow: bool, eyebrowsClose: bool)

  /**
   * The features of a complete mesh. The mouth centre and the eyebrow
   * height are means, computed with true division.
   */
  function FeaturesOf(face: seq<Landmark>): (f: Features)
    requires |face| >= MeshSize
    ensures f.mouthWide <==> Abs(face[RightMouth].x - face[LeftMouth].x) > 45
    ensures f.mouthOpen <==> Abs(face[BottomLip].y - face[TopLip].y) > 8
    ensures f.eyebrowsClose <==> Abs(face[LeftEyebrow].x - face[RightEyebrow].x) < 90
    // The mean-based features, stated in whole pixels without division.
    ensures var lipSum := face[TopLip].y + face[BottomLip].y;
            f.cornersRaised <==> 2 * face[LeftMouth].y < lipSum - 16 && 2 * face[RightMouth].y < lipSum - 16
    ensures var lipSum := face[TopLip].y + face[BottomLip].y;
            f.cornersDown <==> 2 * face[LeftMouth].y > lipSum + 10 && 2 * face[RightMouth].y > lipSum + 10
    ensures var browSum := face[LeftEyebrow].y + face[RightEyebrow].y;
            f.eyebrowsHigh <==> browSum < 2 * face[Forehead].y - 6
    ensures var browSum := face[LeftEyebrow].y + face[RightEyebrow].y;
            f.eyebrowsLow <==> browSum > 2 * face[Forehead].y + 40
  {
    var mouthWidth := Abs(face[RightMouth].x - face[LeftMouth].x);
    var mouthHeight := Abs(face[BottomLip].y - face[TopLip].y);
    var mouthCentreY := (face[TopLip].y + face[BottomLip].y) as real / 2.0;
    var leftCornerY, rightCornerY := face[LeftMouth].y as real, face[RightMouth].y as real;
    var eyebrowAvgY := (face[LeftEyebrow].y + face[RightEyebrow].y) as real / 2.0;
    var eyebrowDistance := Abs(face[LeftEyebrow].x - face[RightEyebrow].x);
    var eyebrowToForehead := eyebrowAvgY - face[Forehead].y as real;
    Features(
      leftCornerY < mouthCentreY - 8.0 && rightCornerY < mouthCentreY - 8.0,
      mouthWidth > 45,
      eyebrowToForehead < -3.0,
      mouthHeight > 8,
      leftCornerY > mouthCentreY + 5.0 && rightCornerY > mouthCentreY + 5.0,
      eyebrowToForehead > 20.0,
      eyebrowDistance < 90)
  }

  /** The decision list, most specific first. */
  function Decide(f: Features): (e: string)
    ensures e in Labels
  {
    if f.eyebrowsHigh && f.mouthOpen then Surprise
    else if f.cornersDown then Sad
    else if f.cornersRaised && f.mouthWide then Smile
    else if f.eyebrowsLow && f.eyebrowsClose then Anger
    else Neutral
  }

  /** `detect_emotion`: neutral without a face or for an incomplete mesh; otherwise the first face decides. */
  function DetectEmotion(landmarks: seq<seq<Landmark>>): (e: string)
    ensures e in Labels
    ensures |landmarks| == 0 || |landmarks[0]| < MeshSize ==> e == Neutral
  {
    if |landmarks| == 0 then Neutral
    else if |landmarks[0]| < MeshSize then Neutral
    else Decide(FeaturesOf(landmarks[0]))
  }

  /**
   * Raised and lowered mouth corners exclude each other, on every mesh: one
   * needs each corner above the centre by more than 8, the other below it
   * by more than 5.
   */
  lemma CornersExclusive(face: seq<Landmark>)
    requires |face| >= MeshSize
    ensures !(FeaturesOf(face).cornersRaised && FeaturesOf(face).cornersDown)
  {
  }

  /** Likewise high and low eyebrows. */
  lemma EyebrowsExclusive(face: seq<Landmark>)
    requires |face| >= MeshSize
    ensures !(FeaturesOf(face).eyebrowsHigh && FeaturesOf(face).eyebrowsLow)
  {
  }

  /**
   * The priority of the labels: surprise whenever its two features hold;
   * otherwise sadness whenever the corners are down; smile and anger only
   * when no earlier rule fired; and neutral exactly when none fires.
   */
  lemma Priority(f: Features)
    ensures f.eyebrowsHigh && f.mouthOpen ==> Decide(f) == Surprise
    ensures Decide(f) == Sad <==> !(f.eyebrowsHigh && f.mouthOpen) && f.cornersDown
    ensures Decide(f) == Smile <==> !(f.eyebrowsHigh && f.mouthOpen) && !f.cornersDown && f.cornersRaised && f.mouthWide
    ensures Decide(f) == Anger <==>
              !(f.eyebrowsHigh && f.mouthOpen) && !f.cornersDown && !(f.cornersRaised && f.mouthWide) &&
              f.eyebrowsLow && f.eyebrowsClose
    ensures Decide(f) == Neutral <==>
              !(f.eyebrowsHigh && f.mouthOpen) && !f.cornersDown && !(f.cornersRaised && f.mouthWide) &&
              !(f.eyebrowsLow && f.eyebrowsClose)
  {
  }

  /** A smiling mesh never shows sad corners, so on a real face smile needs only its own features and no surprise. */
  lemma SmileOnAFace(face: seq<Landmark>)
    requires |face| >= MeshSize
    ensures var f := FeaturesOf(face);
            DetectEmotion([face]) == Smile <==> !(f.eyebrowsHigh && f.mouthOpen) && f.cornersRaised && f.mouthWide
  {
    CornersExclusive(face);
    Priority(FeaturesOf(face));
  }

  /**
   * A complete mesh with every point at the origin except the ones the rules
   * read: mouth corners, lips, eyebrows and forehead.
   */
  function Mesh(leftMouth: Landmark, rightMouth: Landmark, topLip: Landmark, bottomLip: Landmark,
                leftBrow: Landmark, rightBrow: Landmark, forehead: Landmark): (face: seq<Landmark>)
    ensures |face| == MeshSize
    ensures face[LeftMouth] == leftMouth && face[RightMouth] == rightMouth
    ensures face[TopLip] == topLip && face[BottomLip] == bottomLip
    ensures face[LeftEyebrow] == leftBrow && face[RightEyebrow] == rightBrow && face[Forehead] == forehead
  {
    seq(MeshSize, i =>
      if i == LeftMouth then leftMouth
      else if i == RightMouth then rightMouth
      else if i == TopLip then topLip
      else if i == BottomLip then bottomLip
      else if i == LeftEyebrow then leftBrow
      else if i == RightEyebrow then rightBrow
      else if i == Forehead then forehead
      else Landmark(0, 0))
  }

  /** Every one of the five labels is produced by some mesh. */
  lemma EveryLabelOccurs()
    ensures DetectEmotion([Mesh(Landmark(100, 200), Landmark(160, 200), Landmark(130, 190), Landmark(130, 230),
                                Landmark(100, 90), Landmark(160, 90), Landmark(130, 100))]) == Surprise
    ensures DetectEmotion([Mesh(Landmark(100, 215), Landmark(160, 215), Landmark(130, 200), Landmark(130, 204),
                                Landmark(100, 110), Landmark(160, 110), Landmark(130, 100))]) == Sad
    ensures DetectEmotion([Mesh(Landmark(100, 190), Landmark(160, 190), Landmark(130, 200), Landmark(130, 204),
                                Landmark(100, 110), Landmark(160, 110), Landmark(130, 100))]) == Smile
    ensures DetectEmotion([Mesh(Landmark(110, 202), Landmark(140, 202), Landmark(125, 200), Landmark(125, 204),
                                Landmark(100, 130), Landmark(160, 130), Landmark(130, 100))]) == Anger
    ensures DetectEmotion([Mesh(Landmark(110, 202), Landmark(140, 202), Landmark(125, 200), Landmark(125, 204),
                                Landmark(100, 110), Landmark(160, 110), Landmark(130, 100))]) == Neutral
  {
  }

  /** One entry of `face_data`: the box, its landmark set and the label. */
  datatype FaceData = FaceData(box: Box, landmarks: seq<Landmark>, emotion: string)

  /**
   * The pairing loop of `process_frame`: the i-th box goes with the i-th
   * landmark set, as long as both exist; nothing is paired when either
   * list is empty.
   */
  method PairFaces(faces: seq<Box>, landmarks: seq<seq<Landmark>>) returns (data: seq<FaceData>)
    ensures |data| == if |faces| <= |landmarks| then |faces| else |landmarks|
    ensures |landmarks| == 0 || |faces| == 0 ==> data == []
    ensures forall i :: 0 <= i < |data| ==>
              data[i] == FaceData(faces[i], landmarks[i], DetectEmotion([landmarks[i]]))
  {
    data := [];
    if |landmarks| > 0 && |faces| > 0 {
      var i := 0;
      while i < |faces|
        invariant 0 <= i <= |faces|
        invariant |data| == if i <= |landmarks| then i else |landmarks|
        invariant forall k :: 0 <= k < |data| ==>
                    data[k] == FaceData(faces[k], landmarks[k], DetectEmotion([landmarks[k]]))
      {
        if i < |landmarks| {
          var emotion := DetectEmotion([landmarks[i]]);
          data := data + [FaceData(faces[i], landmarks[i], emotion)];
        }
        i := i + 1;
      }
    }
  }
}
