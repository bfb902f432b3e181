/** The emotion label set and the small helpers of web/lib/emotions.js. */
module Emotions {
  import opened Wrappers
  import opened JsValues

  /** The eight labels every provider and game agrees on, in the source's order. */
  const EMOTIONS: seq<string> := ["happy", "sad", "angry", "frustrated", "surprised", "fear", "disgust", "neutral"]

  /**
   * What `prettyEmotion` shows when there is no label. The file holds the em
   * dash's UTF-8 bytes read as Windows-1252: three characters, not one.
   */
  const Placeholder: string := "\U{00E2}\U{20AC}\U{201D}"

  predicate Distinct<T(==)>(s: seq<T>) {
    forall i, j :: 0 <= i < j < |s| ==> s[i] != s[j]
  }

  lemma EmotionsAreDistinct()
    ensures |EMOTIONS| == 8 && Distinct(EMOTIONS)
  {
  }

  /** `isEmotion`: a string that is one of the labels; any other value is rejected. */
  function IsEmotion(x: JsValue): (b: bool)
    ensures b ==> x.JsString? && |x.s| >= 3
    ensures b <==> exists i :: 0 <= i < |EMOTIONS| && x == JsString(EMOTIONS[i])
  {
    x.JsString? && x.s in EMOTIONS
  }

  /** `clamp01`: NaN and the infinities go to 0, finite numbers are clamped to [0, 1]. */
  function Clamp01(x: Number): (r: real)
    ensures 0.0 <= r <= 1.0
    ensures !x.IsFinite() ==> r == 0.0
    ensures x.IsFinite() && 0.0 <= x.v <= 1.0 ==> r == x.v
    ensures x.IsFinite() && x.v > 1.0 ==> r == 1.0
    ensures x.IsFinite() && x.v < 0.0 ==> r == 0.0
  {
    if !x.IsFinite() then 0.0
    else if x.v < 0.0 then 0.0
    else if x.v > 1.0 then 1.0
    else x.v
  }

  lemma Clamp01Idempotent(x: Number)
    ensures Clamp01(Finite(Clamp01(x))) == Clamp01(x)
  {
  }

  /** `String.prototype.toUpperCase` on one character, for the ASCII letters the labels use. */
  function UpperChar(c: char): (u: char)
    ensures 'a' <= c <= 'z' ==> 'A' <= u <= 'Z' && u as int - c as int == 'A' as int - 'a' as int
    ensures !('a' <= c <= 'z') ==> u == c
  {
    if 'a' <= c <= 'z' then (c as int - 'a' as int + 'A' as int) as char else c
  }

  /** `prettyEmotion`: capitalise the first character; a missing or empty label shows the dash. */
  function PrettyEmotion(name: Option<string>): (r: string)
    ensures (name.None? || name.value == "") ==> r == Placeholder
    ensures name.Some? && name.value != "" ==>
              |r| == |name.value| && r[0] == UpperChar(name.value[0]) && r[1..] == name.value[1..]
  {
    if name.None? || name.value == "" then Placeholder
    else [UpperChar(name.value[0])] + name.value[1..]
  }

  /** `pickRandom`: the element at `Math.floor(r * arr.length)`; undefined for an empty array. */
  function PickRandom<T>(arr: seq<T>, r: real): (x: Option<T>)
    requires IsDraw(r)
    ensures x.Some? <==> |arr| > 0
    ensures x.Some? ==> x.value in arr
  {
    if |arr| == 0 then None else Some(arr[RandomIndex(r, |arr|)])
  }
}
