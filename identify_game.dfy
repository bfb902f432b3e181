/**
 * The Identify game of web/games/identify.js: each trial shows a target
 * emotion and four distinct label options that include it; a pick scores
 * when it equals the target. Draws of `Math.random()` are inputs.
 */
module IdentifyGame {
  import opened Wrappers
  import opened JsValues
  import opened Emotions

  /** The faces `emotionEmoji` shows (the source's emoji characters). */
  datatype Face = Smiling | Crying | Angry | Persevering | Astonished | Fearful | Nauseated | NeutralFace

  /** `emotionEmoji`: seven labels have their own face; "neutral" and everything else the neutral one. */
  function EmotionEmoji(name: string): (f: Face)
    ensures name !in {"happy", "sad", "angry", "frustrated", "surprised", "fear", "disgust"} ==> f == NeutralFace
    ensures f == NeutralFace ==> name !in {"happy", "sad", "angry", "frustrated", "surprised", "fear", "disgust"}
  {
    match name
    case "happy" => Smiling
    case "sad" => Crying
    case "angry" => Angry
    case "frustrated" => Persevering
    case "surprised" => Astonished
    case "fear" => Fearful
    case "disgust" => Nauseated
    case _ => NeutralFace
  }

  /** The Fisher-Yates draws for an array of length n: one draw per step i = n-1 down to 1. */
  predicate ShuffleDraws(draws: seq<real>, n: nat) {
    |draws| == (if n == 0 then 0 else n - 1) && forall k :: 0 <= k < |draws| ==> IsDraw(draws[k])
  }

  /** `shuffle(arr)`: in place, swapping `arr[i]` with `arr[floor(draw * (i + 1))]` for i from the end. */
  method Shuffle<T>(a: array<T>, draws: seq<real>)
    requires ShuffleDraws(draws, a.Length)
    modifies a
    ensures multiset(a[..]) == old(multiset(a[..]))
  {
    if a.Length == 0 {
      return;
    }
    var i := a.Length - 1;
    while i > 0
      invariant 0 <= i < a.Length
      invariant multiset(a[..]) == old(multiset(a[..]))
    {
      var j := RandomIndex(draws[a.Length - 1 - i], i + 1);
      a[i], a[j] := a[j], a[i];
      i := i - 1;
    }
  }

  /** A distinct sequence holds each value at most once. */
  lemma {:induction false} DistinctCountsAtMostOne<T>(s: seq<T>, x: T)
    requires Distinct(s)
    ensures multiset(s)[x] <= 1
  {
    if s != [] {
      assert s == [s[0]] + s[1..];
      assert Distinct(s[1..]);
      DistinctCountsAtMostOne(s[1..], x);
      if s[0] == x {
        assert x !in s[1..];
        assert multiset(s[1..])[x] == 0;
      }
    }
  }

  /** A value at two positions is counted at least twice. */
  lemma RepeatCountsTwice<T>(t: seq<T>, i: nat, j: nat)
    requires i < j < |t| && t[i] == t[j]
    ensures multiset(t)[t[i]] >= 2
  {
    assert t == t[..i] + [t[i]] + t[i + 1..j] + [t[j]] + t[j + 1..];
  }

  /** A rearrangement of a sequence without repeats has none either. */
  lemma PermutationKeepsDistinct<T>(s: seq<T>, t: seq<T>)
    requires multiset(s) == multiset(t) && Distinct(s)
    ensures Distinct(t)
  {
    forall i, j | 0 <= i < j < |t|
      ensures t[i] != t[j]
    {
      if t[i] == t[j] {
        RepeatCountsTwice(t, i, j);
        DistinctCountsAtMostOne(s, t[i]);
        assert false;
      }
    }
  }

  /**
   * The options of a trial, over any list of distinct labels: the first four
   * entries of a shuffled copy, with one of them (chosen by `replace`)
   * overwritten by the target if it is missing.
   */
  method PickOptions<T(==)>(all: seq<T>, target: T, draws: seq<real>, replace: real) returns (options: seq<T>)
    requires |all| >= 4 && Distinct(all) && target in all
    requires IsDraw(replace) && ShuffleDraws(draws, |all|)
    ensures |options| == 4 && Distinct(options) && target in options
    ensures forall o :: o in options ==> o in all
  {
    var labels := new T[|all|](i requires 0 <= i < |all| => all[i]);
    assert labels[..] == all;
    Shuffle(labels, draws);
    var shuffled := labels[..];
    PermutationKeepsDistinct(all, shuffled);
    PermutationKeepsMembers(all, shuffled);
    options := shuffled[..4];
    if target !in options {
      var k := RandomIndex(replace, |options|);
      options := options[k := target];
      assert options[k] == target;
    }
  }

  /** `shuffle([...EMOTIONS]).slice(0, 4)`, patched to hold the target. */
  method TrialOptions(target: string, draws: seq<real>, replace: real) returns (options: seq<string>)
    requires target in EMOTIONS
    requires IsDraw(replace) && ShuffleDraws(draws, |EMOTIONS|)
    ensures |options| == 4 && Distinct(options) && target in options
    ensures forall o :: o in options ==> o in EMOTIONS
  {
    EmotionsAreDistinct();
    options := PickOptions(EMOTIONS, target, draws, replace);
  }

  lemma PermutationKeepsMembers<T>(s: seq<T>, t: seq<T>)
    requires multiset(s) == multiset(t)
    ensures forall o :: o in t ==> o in s
  {
    forall o | o in t
      ensures o in s
    {
      assert o in multiset(t);
    }
  }

  class Identify {
    var mounted: bool
    var active: bool
    var total: nat
    var correct: nat
    var target: Option<string>
    var options: seq<string>
    var answered: bool
    var trialStartMs: Option<int>

    /** Every point was earned on its own trial; an open trial has not been scored yet. */
    ghost predicate Valid()
      reads this
    {
      && correct <= total
      && (target.Some? && !answered ==> correct < total)
    }

    constructor ()
      ensures Valid() && !mounted && !active && total == 0 && correct == 0 && target.None?
      ensures options == [] && !answered && trialStartMs.None?
    {
      mounted, active := false, false;
      total, correct := 0, 0;
      target := None;
      options := [];
      answered := false;
      trialStartMs := None;
    }

    method Mount()
      requires Valid()
      modifies this
      ensures Valid() && mounted
      ensures active == old(active) && total == old(total) && correct == old(correct)
      ensures target == old(target) && options == old(options) && answered == old(answered)
      ensures trialStartMs == old(trialStartMs)
    {
      mounted := true;
    }

    /** `nextTrial`: only when mounted and active; one more trial with four distinct options holding the target. */
    method NextTrial(now: int, pick: real, draws: seq<real>, replace: real)
      requires correct <= total && (!(mounted && active) ==> Valid())
      requires IsDraw(pick) && IsDraw(replace) && ShuffleDraws(draws, |EMOTIONS|)
      modifies this
      ensures Valid()
      ensures mounted == old(mounted) && active == old(active) && correct == old(correct)
      ensures !(old(mounted) && old(active)) ==>
                total == old(total) && target == old(target) && options == old(options) && answered == old(answered) &&
                trialStartMs == old(trialStartMs)
      ensures old(mounted) && old(active) ==>
                total == old(total) + 1 && target == PickRandom(EMOTIONS, pick) && !answered &&
                |options| == 4 && Distinct(options) && target.value in options &&
                (forall o :: o in options ==> o in EMOTIONS) && trialStartMs == Some(now)
    {
      if !mounted || !active {
        return;
      }
      target := PickRandom(EMOTIONS, pick);
      trialStartMs := Some(now);
      total := total + 1;
      answered := false;

      options := TrialOptions(target.value, draws, replace);
    }

    /** `start`: only when mounted; counters reset and the first trial begins. */
    method Start(now: int, pick: real, draws: seq<real>, replace: real)
      requires Valid()
      requires IsDraw(pick) && IsDraw(replace) && ShuffleDraws(draws, |EMOTIONS|)
      modifies this
      ensures Valid() && mounted == old(mounted)
      ensures old(mounted) ==>
                active && total == 1 && correct == 0 && target == PickRandom(EMOTIONS, pick) && !answered &&
                |options| == 4 && Distinct(options) && target.value in options &&
                (forall o :: o in options ==> o in EMOTIONS) && trialStartMs == Some(now)
      ensures !old(mounted) ==>
                active == old(active) && total == old(total) && correct == old(correct) &&
                target == old(target) && options == old(options) && answered == old(answered) &&
                trialStartMs == old(trialStartMs)
    {
      if !mounted {
        return;
      }
      active := true;
      total := 0;
      correct := 0;
      NextTrial(now, pick, draws, replace);
    }

    method Stop()
      requires Valid()
      modifies this
      ensures Valid() && !active
      ensures mounted == old(mounted) && total == old(total) && correct == old(correct) && target == old(target)
      ensures options == old(options) && answered == old(answered) && trialStartMs == old(trialStartMs)
    {
      active := false;
    }

    /**
     * `onPick(opt)`: ignored when inactive, unmounted, without a target, or after
     * the trial's buttons were disabled by an earlier pick; scores exactly on a match.
     */
    method OnPick(opt: string) returns (ok: bool)
      requires Valid()
      modifies this
      ensures Valid()
      ensures mounted == old(mounted) && active == old(active) && total == old(total)
      ensures target == old(target) && options == old(options) && trialStartMs == old(trialStartMs)
      ensures !old(active) || !old(mounted) || old(target).None? || old(answered) ==>
                !ok && correct == old(correct) && answered == old(answered)
      ensures old(active) && old(mounted) && old(target).Some? && !old(answered) ==>
                answered && ok == (opt == old(target).value) &&
                correct == old(correct) + (if ok then 1 else 0)
    {
      ok := false;
      if !active || !mounted || target.None? || answered {
        return;
      }
      ok := opt == target.value;
      if ok {
        correct := correct + 1;
      }
      answered := true;
    }
  }
}
