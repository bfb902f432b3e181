/**
 * The Calm-down game of web/games/calm.js: a 30 s guided breathing phase
 * (4 s inhale, 4 s exhale) followed by a check-in. `Date.now()` is an input;
 * the 150 ms interval is the `ticking` flag plus the Tick method it calls.
 */
module CalmGame {
  import opened JsValues

  const TotalMs: int := 30000
  const InhaleMs: int := 4000
  const ExhaleMs: int := 4000

  datatype Phase = Idle | Breathing | Check

  /** The string the source keeps in `phase`. */
  function PhaseName(p: Phase): string {
    match p
    case Idle => "idle"
    case Breathing => "breathing"
    case Check => "check"
  }

  /** `phaseLabel`: the pill text for a phase string; anything unknown shows a dash. */
  function PhaseLabel(phase: string): (r: string)
    ensures phase == "idle" ==> r == "Ready"
    ensures phase == "breathing" ==> r == "Breathing"
    ensures phase == "check" ==> r == "Check-in"
    ensures phase !in {"idle", "breathing", "check"} ==> r == "\U{2014}"
  {
    if phase == "idle" then "Ready"
    else if phase == "breathing" then "Breathing"
    else if phase == "check" then "Check-in"
    else "\U{2014}"
  }

  /** `inCycle < inhaleMs` with `inCycle = elapsed % (inhaleMs + exhaleMs)`, JavaScript `%`. */
  function Inhale(elapsed: int): (b: bool)
    ensures elapsed >= 0 ==> (b <==> elapsed % (InhaleMs + ExhaleMs) < InhaleMs)
    ensures elapsed < 0 ==> b
  {
    JsRem(elapsed, InhaleMs + ExhaleMs) < InhaleMs
  }

  /** The breathing steps alternate every 4 s: one inhale plus one exhale later, the step is the same. */
  lemma InhalePeriodic(elapsed: nat)
    ensures Inhale(elapsed + InhaleMs + ExhaleMs) == Inhale(elapsed)
    ensures Inhale(elapsed + InhaleMs) == !Inhale(elapsed)
  {
    var q, r := elapsed / 8000, elapsed % 8000;
    assert elapsed + 8000 == (q + 1) * 8000 + r;
    if r < 4000 {
      assert elapsed + 4000 == q * 8000 + (r + 4000);
    } else {
      assert elapsed + 4000 == (q + 1) * 8000 + (r - 4000);
    }
  }

  /** `Math.max(0, totalMs - elapsed)`. */
  function Remaining(elapsed: int): (r: int)
    ensures r >= 0
    ensures r == 0 <==> elapsed >= TotalMs
    ensures elapsed >= 0 ==> r <= TotalMs
    ensures r > 0 ==> r + elapsed == TotalMs
  {
    if TotalMs - elapsed > 0 then TotalMs - elapsed else 0
  }

  class Calm {
    var mounted: bool
    var active: bool
    var phase: Phase
    var ticking: bool
    var startedAt: int

    constructor ()
      ensures !mounted && !active && phase == Idle && !ticking && startedAt == 0
    {
      mounted, active, phase, ticking, startedAt := false, false, Idle, false, 0;
    }

    method Mount()
      modifies this
      ensures mounted
      ensures active == old(active) && phase == old(phase) && ticking == old(ticking) && startedAt == old(startedAt)
    {
      mounted := true;
    }

    /** `start`: only once mounted; the game becomes active in the idle phase (a running ticker is not cleared). */
    method Start()
      modifies this
      ensures old(mounted) ==> active && phase == Idle
      ensures !old(mounted) ==> active == old(active) && phase == old(phase)
      ensures mounted == old(mounted) && ticking == old(ticking) && startedAt == old(startedAt)
    {
      if !mounted {
        return;
      }
      active := true;
      phase := Idle;
    }

    /** `stop`: inactive and no ticker; the phase is left as it was. */
    method Stop()
      modifies this
      ensures !active && !ticking
      ensures mounted == old(mounted) && phase == old(phase) && startedAt == old(startedAt)
    {
      active := false;
      ticking := false;
    }

    /** `beginBreathing`: ignored unless active; otherwise the breathing phase starts now with a fresh ticker. */
    method BeginBreathing(now: int)
      modifies this
      ensures old(active) ==> phase == Breathing && startedAt == now && ticking
      ensures !old(active) ==> phase == old(phase) && startedAt == old(startedAt) && ticking == old(ticking)
      ensures mounted == old(mounted) && active == old(active)
    {
      if !active {
        return;
      }
      phase := Breathing;
      startedAt := now;
      ticking := true;
    }

    /** One run of the interval callback: after 30 s the phase becomes the check-in. */
    method Tick(now: int)
      requires ticking
      modifies this
      ensures now - startedAt >= TotalMs ==> phase == Check
      ensures now - startedAt < TotalMs ==> phase == old(phase)
      ensures mounted == old(mounted) && active == old(active) && ticking == old(ticking)
      ensures startedAt == old(startedAt)
    {
      var elapsed := now - startedAt;
      if elapsed >= TotalMs {
        phase := Check;
      }
    }

    /** The "Done" button of the check-in screen: back to idle, ticker cleared. */
    method Done()
      requires phase == Check
      modifies this
      ensures phase == Idle && !ticking
      ensures mounted == old(mounted) && active == old(active) && startedAt == old(startedAt)
    {
      phase := Idle;
      ticking := false;
    }
  }

  /** A client: a full session goes idle, breathing, check-in and back to idle. */
  method Session()
  {
    var g := new Calm();
    g.Mount();
    g.Start();
    g.BeginBreathing(1000);
    assert g.phase == Breathing && Inhale(1500 - g.startedAt) && Remaining(1500 - g.startedAt) == 29500;
    g.Tick(20000);
    assert g.phase == Breathing;
    g.Tick(31000);
    assert g.phase == Check && PhaseLabel(PhaseName(g.phase)) == "Check-in";
    g.Done();
    assert g.phase == Idle && !g.ticking;
  }
}
