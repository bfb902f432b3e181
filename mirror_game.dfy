/**
 * The Mirror game of web/games/mirror.js: a target emotion is shown and a
 * success is counted once the detected label has matched it for 1200 ms.
 * `Date.now()`, `Math.random()` draws and the provider's reading are inputs.
 */
module MirrorGame {
  import opened Wrappers
  import opened JsValues
  import opened Emotions

  const RequiredStableMs: int := 1200

  /** `EMOTIONS.filter((e) => e !== "disgust")`, order kept. */
  function WithoutDisgust(s: seq<string>): (r: seq<string>)
    ensures forall x :: x in r <==> x in s && x != "disgust"
    ensures |r| <= |s|
  {
    if s == [] then []
    else (if s[0] == "disgust" then [] else [s[0]]) + WithoutDisgust(s[1..])
  }

  /** The seven labels other than "disgust", in the order of `EMOTIONS`. */
  const FRIENDLY_TARGETS: seq<string> := ["happy", "sad", "angry", "frustrated", "surprised", "fear", "neutral"]

  /** The targets the game may pick: the filter leaves exactly the seven friendly labels. */
  lemma FriendlyTargets()
    ensures WithoutDisgust(EMOTIONS) == FRIENDLY_TARGETS
  {
  }

  /** A label the game may show as a target: a known emotion other than "disgust". */
  predicate FriendlyTarget(e: string) {
    e in EMOTIONS && e != "disgust"
  }

  /** Any draw picks a friendly target: the list is never empty and holds only friendly labels. */
  lemma FriendlyPick(r: real)
    requires IsDraw(r)
    ensures PickRandom(FRIENDLY_TARGETS, r).Some?
    ensures FriendlyTarget(PickRandom(FRIENDLY_TARGETS, r).value)
  {
    FriendlyTargets();
  }

  /** How long the match has been held, as `render` computes it (a zero `stableSince` is falsy). */
  function StableFor(stableSince: Option<int>, now: int): (held: int)
    ensures stableSince.None? || stableSince == Some(0) ==> held == 0
    ensures stableSince.Some? && stableSince.value != 0 ==> stableSince.value + held == now
    ensures stableSince.Some? && stableSince.value <= now ==> held >= 0
  {
    if stableSince.Some? && stableSince.value != 0 then now - stableSince.value else 0
  }

  /** The displayed progress `Math.min(1, stableFor / requiredStableMs)`. */
  function Progress(stableSince: Option<int>, now: int): (p: real)
    ensures p <= 1.0
    ensures (stableSince.None? || now >= stableSince.value) ==> 0.0 <= p
    ensures p == 1.0 <==> StableFor(stableSince, now) >= RequiredStableMs
  {
    var f := StableFor(stableSince, now) as real / RequiredStableMs as real;
    if f < 1.0 then f else 1.0
  }

  class Mirror {
    var mounted: bool
    var active: bool
    var ticking: bool
    var target: Option<string>
    var streak: nat
    var successes: nat
    var attempts: nat
    var startedAt: int
    var stableSince: Option<int>

    /** Successes and streak rise together; every success was on an earlier target. */
    ghost predicate Valid()
      reads this
    {
      && streak == successes
      && (target.None? ==> attempts == 0 && successes == 0)
      && (target.Some? ==> successes < attempts && FriendlyTarget(target.value))
    }

    /** What `nextTarget` needs: the invariant, except that a just-counted success may equal the attempts. */
    ghost predicate ReadyForTarget()
      reads this
    {
      && streak == successes
      && successes <= attempts
      && (target.None? ==> attempts == 0 && successes == 0)
    }

    constructor ()
      ensures Valid() && !mounted && !active && !ticking && target.None?
      ensures streak == 0 && successes == 0 && attempts == 0 && stableSince.None?
    {
      mounted, active, ticking := false, false, false;
      target := None;
      streak, successes, attempts := 0, 0, 0;
      startedAt := 0;
      stableSince := None;
    }

    method Mount()
      modifies this
      ensures mounted
      ensures active == old(active) && ticking == old(ticking) && target == old(target)
      ensures streak == old(streak) && successes == old(successes) && attempts == old(attempts)
      ensures startedAt == old(startedAt) && stableSince == old(stableSince)
    {
      mounted := true;
    }

    /** `nextTarget`: a new target other than "disgust", the hold timer cleared, one more attempt. */
    method NextTarget(r: real)
      requires IsDraw(r)
      requires ReadyForTarget()
      modifies this
      ensures Valid()
      ensures target.Some? && FriendlyTarget(target.value)
      ensures target == PickRandom(FRIENDLY_TARGETS, r)
      ensures stableSince.None? && attempts == old(attempts) + 1
      ensures mounted == old(mounted) && active == old(active) && ticking == old(ticking)
      ensures streak == old(streak) && successes == old(successes) && startedAt == old(startedAt)
    {
      FriendlyTargets();
      FriendlyPick(r);
      target := PickRandom(WithoutDisgust(EMOTIONS), r);
      stableSince := None;
      attempts := attempts + 1;
    }

    /** `start`: only once mounted; counters reset and the first target drawn. */
    method Start(now: int, r: real)
      requires IsDraw(r)
      requires Valid()
      modifies this
      ensures Valid()
      ensures !old(mounted) ==>
                active == old(active) && ticking == old(ticking) && target == old(target) &&
                streak == old(streak) && successes == old(successes) && attempts == old(attempts) &&
                startedAt == old(startedAt) && stableSince == old(stableSince)
      ensures old(mounted) ==>
                active && ticking && streak == 0 && successes == 0 && attempts == 1 &&
                startedAt == now && stableSince.None? && target == PickRandom(FRIENDLY_TARGETS, r)
      ensures mounted == old(mounted)
    {
      if mounted {
        active := true;
        streak, successes, attempts := 0, 0, 0;
        startedAt := now;
        target := None;
        NextTarget(r);
        ticking := true;
      }
    }

    /** `stop`: the game goes inactive and the ticker is cleared; the counters stay. */
    method Stop()
      modifies this
      ensures !active && !ticking
      ensures mounted == old(mounted) && target == old(target) && stableSince == old(stableSince)
      ensures streak == old(streak) && successes == old(successes) && attempts == old(attempts)
      ensures startedAt == old(startedAt)
    {
      active := false;
      ticking := false;
    }

    /** `onTick` with the provider's current label and the clock. */
    method OnTick(reading: Option<string>, now: int, r: real)
      requires IsDraw(r)
      requires Valid()
      modifies this
      ensures Valid()
      ensures mounted == old(mounted) && active == old(active) && ticking == old(ticking)
      ensures startedAt == old(startedAt)
      ensures !old(active) ==>
                target == old(target) && stableSince == old(stableSince) &&
                streak == old(streak) && successes == old(successes) && attempts == old(attempts)
      ensures old(active) && !(old(target).Some? && reading == old(target)) ==>
                stableSince.None? && target == old(target) &&
                streak == old(streak) && successes == old(successes) && attempts == old(attempts)
      ensures old(active) && old(target).Some? && reading == old(target) ==>
                var since := if old(stableSince).None? then now else old(stableSince).value;
                if now - since >= RequiredStableMs then
                  successes == old(successes) + 1 && streak == old(streak) + 1 &&
                  attempts == old(attempts) + 1 && stableSince.None? &&
                  target == PickRandom(FRIENDLY_TARGETS, r)
                else
                  successes == old(successes) && streak == old(streak) && attempts == old(attempts) &&
                  stableSince == Some(since) && target == old(target)
    {
      if !active {
        return;
      }
      var matches := target.Some? && reading == target;
      if matches {
        if stableSince.None? {
          stableSince := Some(now);
        }
        var stableFor := now - stableSince.value;
        if stableFor >= RequiredStableMs {
          successes := successes + 1;
          streak := streak + 1;
          NextTarget(r);
        }
      } else {
        stableSince := None;
      }
    }
  }

  /** A client: holding the target for 1200 ms scores exactly one success; a mismatch resets the hold. */
  method HoldScenario(r: real)
    requires IsDraw(r)
  {
    var g := new Mirror();
    g.Mount();
    g.Start(1000, r);
    var t := g.target.value;
    g.OnTick(Some(t), 2000, r);
    assert g.successes == 0 && g.stableSince == Some(2000);
    g.OnTick(None, 2500, r);
    assert g.stableSince.None?;
    g.OnTick(Some(t), 3000, r);
    g.OnTick(Some(t), 4200, r);
    assert g.successes == 1 && g.streak == 1 && g.attempts == 2;
  }
}
