/** `normalizeReading` of web/providers/base.js: the reading every provider hands to the games. */
module Providers {
  import opened Wrappers
  import opened JsValues

  /** The two fields read from whatever object (or null/undefined) a provider produced. */
  datatype RawReading = RawReading(name: JsValue, confidence: JsValue)

  /** An EmotionReading: label string or null, finite confidence or null, and the provider id. */
  datatype Reading = Reading(name: Option<string>, confidence: Option<real>, provider: string)

  /** The reading seen again as a JavaScript object (null for a missing field). */
  function AsRaw(x: Reading): RawReading {
    RawReading(
      if x.name.Some? then JsString(x.name.value) else JsNull,
      if x.confidence.Some? then JsNumber(Finite(x.confidence.value)) else JsNull)
  }

  /** `normalizeReading(r, providerId)`; `r == None` stands for a null or undefined `r`. */
  function NormalizeReading(r: Option<RawReading>, providerId: string): (n: Reading)
    ensures n.provider == providerId
    ensures n.name.Some? <==> r.Some? && r.value.name.JsString?
    ensures n.name.Some? ==> n.name.value == r.value.name.s
    ensures n.confidence.Some? <==> r.Some? && r.value.confidence.JsNumber? && r.value.confidence.n.IsFinite()
    ensures n.confidence.Some? ==> n.confidence.value == r.value.confidence.n.v
  {
    var name := if r.Some? && r.value.name.JsString? then Some(r.value.name.s) else None;
    var confidence :=
      if r.Some? && r.value.confidence.JsNumber? && r.value.confidence.n.IsFinite()
      then Some(r.value.confidence.n.v) else None;
    Reading(name, confidence, providerId)
  }

  /** A normalised reading is a fixed point of normalisation under its own provider id. */
  lemma NormalizeFixesReadings(x: Reading)
    ensures NormalizeReading(Some(AsRaw(x)), x.provider) == x
  {
  }

  lemma NormalizeIdempotent(r: Option<RawReading>, providerId: string)
    ensures var n := NormalizeReading(r, providerId);
            NormalizeReading(Some(AsRaw(n)), providerId) == n
  {
    NormalizeFixesReadings(NormalizeReading(r, providerId));
  }
}
