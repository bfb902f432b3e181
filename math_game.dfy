/**
 * The arithmetic quiz of src/app/games/math-game/page.tsx. React state is the
 * fields of a class; `Math.random()` draws and the parsed answer are inputs.
 */
module MathGame {
  import opened Wrappers
  import opened JsValues

  datatype Operation = Plus | Minus | Times | Divide

  datatype Question = Question(num1: int, num2: int, operation: Operation, answer: int)

  datatype Feedback = NoFeedback | Correct | Wrong(expected: int) | TimeUp

  const PointsPerCorrect: int := 10
  const StreakToLevelUp: nat := 5
  const MaxLevel: int := 3
  const SecondsPerQuestion: int := 30

  /** What the question asks for; division is never generated, so it has no answer here. */
  function Apply(op: Operation, a: int, b: int): (answer: int)
    requires op != Divide
    ensures op == Plus ==> answer - b == a && answer - a == b
    ensures op == Minus ==> answer + b == a
    ensures op == Times ==> (answer == 0 <==> a == 0 || b == 0)
  {
    match op
    case Plus => a + b
    case Minus => a - b
    case Times => a * b
  }

  /** One operand: `Math.floor(Math.random() * span) + low`. */
  function Operand(draw: real, span: nat, low: int): (n: int)
    requires IsDraw(draw) && span > 0
    ensures low <= n < low + span
  {
    RandomIndex(draw, span) + low
  }

  /** `generateQuestion` for the level it sees, given its three draws. */
  function GenerateQuestion(level: int, opDraw: real, draw1: real, draw2: real): (q: Question)
    requires IsDraw(opDraw) && IsDraw(draw1) && IsDraw(draw2)
    ensures q.operation != Divide && q.answer == Apply(q.operation, q.num1, q.num2)
    ensures level == 1 ==> 1 <= q.num1 <= 20 && 1 <= q.num2 <= 20 && q.operation in {Plus, Minus}
    ensures level == 2 ==> 10 <= q.num1 <= 59 && 10 <= q.num2 <= 59 && q.operation in {Plus, Minus}
    ensures level != 1 && level != 2 ==> 1 <= q.num1 <= 20 && 1 <= q.num2 <= 20
    ensures q.operation == Plus <==> (if level == 1 || level == 2 then opDraw > 0.5 else RandomIndex(opDraw, 3) == 0)
  {
    var (op, a, b) :=
      if level == 1 then
        ((if opDraw > 0.5 then Plus else Minus), Operand(draw1, 20, 1), Operand(draw2, 20, 1))
      else if level == 2 then
        ((if opDraw > 0.5 then Plus else Minus), Operand(draw1, 50, 10), Operand(draw2, 50, 10))
      else
        ([Plus, Minus, Times][RandomIndex(opDraw, 3)], Operand(draw1, 20, 1), Operand(draw2, 20, 1));
    Question(a, b, op, Apply(op, a, b))
  }

  /** The score, level and streak that `handleSubmit` updates. */
  datatype Standing = Standing(score: int, level: int, streak: nat)

  /**
   * The standing after one answer. A correct one scores 10 and extends the
   * streak; if the streak before it was at least 5 and the level below 3, the
   * level rises and the streak restarts. A wrong one only resets the streak.
   */
  function Submitted(s: Standing, correct: bool): (r: Standing)
    ensures r.score == s.score + (if correct then PointsPerCorrect else 0)
    ensures r.level == s.level || r.level == s.level + 1
    ensures r.level == s.level + 1 <==> correct && s.streak >= StreakToLevelUp && s.level < MaxLevel
    ensures r.streak == (if correct && r.level == s.level then s.streak + 1 else 0)
  {
    if !correct then s.(streak := 0)
    else if s.streak >= StreakToLevelUp && s.level < MaxLevel then Standing(s.score + PointsPerCorrect, s.level + 1, 0)
    else Standing(s.score + PointsPerCorrect, s.level, s.streak + 1)
  }

  /** The standing after a run of answers, right or wrong. */
  function Run(s: Standing, answers: seq<bool>): Standing
    decreases |answers|
  {
    if answers == [] then s else Run(Submitted(s, answers[0]), answers[1..])
  }

  /** Starting from a level in 1..3, no run of answers leaves that range or lowers the score. */
  lemma {:induction false} RunKeepsLevelInRange(s: Standing, answers: seq<bool>)
    requires 1 <= s.level <= MaxLevel
    ensures 1 <= Run(s, answers).level <= MaxLevel
    ensures Run(s, answers).score >= s.score
    ensures Run(s, answers).level >= s.level
    decreases |answers|
  {
    if answers != [] {
      RunKeepsLevelInRange(Submitted(s, answers[0]), answers[1..]);
    }
  }

  /** From a reset, the level first rises on the sixth answer in a row that is correct. */
  lemma LevelUpOnSixthCorrect()
    ensures Run(Standing(0, 1, 0), [true, true, true, true, true]) == Standing(50, 1, 5)
    ensures Run(Standing(0, 1, 0), [true, true, true, true, true, true]) == Standing(60, 2, 0)
  {
    var five := [true, true, true, true, true];
    assert five[1..] == [true, true, true, true];
    assert five[1..][1..] == [true, true, true];
    assert five[1..][1..][1..] == [true, true];
    assert five[1..][1..][1..][1..] == [true];
    assert five[1..][1..][1..][1..][1..] == [];
    assert Run(Standing(40, 1, 4), [true]) == Standing(50, 1, 5);
    assert Run(Standing(30, 1, 3), [true, true]) == Standing(50, 1, 5);
    assert Run(Standing(20, 1, 2), [true, true, true]) == Standing(50, 1, 5);
    assert Run(Standing(10, 1, 1), [true, true, true, true]) == Standing(50, 1, 5);
    var six := [true] + five;
    assert six[1..] == five;
    assert Run(Standing(50, 1, 5), [true]) == Standing(60, 2, 0);
    RunConcatenates(Standing(0, 1, 0), five, [true]);
    assert five + [true] == six;
  }

  lemma {:induction false} RunConcatenates(s: Standing, first: seq<bool>, rest: seq<bool>)
    ensures Run(s, first + rest) == Run(Run(s, first), rest)
    decreases |first|
  {
    if first != [] {
      assert (first + rest)[1..] == first[1..] + rest;
      RunConcatenates(Submitted(s, first[0]), first[1..], rest);
    } else {
      assert first + rest == rest;
    }
  }

  class Game {
    var score: int
    var level: int
    var question: Question
    var feedback: Feedback
    var streak: nat
    var timeLeft: int

    /** The first render: a level-1 question, then the saved score and level if any. */
    constructor (savedScore: Option<int>, savedLevel: Option<int>, opDraw: real, draw1: real, draw2: real)
      requires IsDraw(opDraw) && IsDraw(draw1) && IsDraw(draw2)
      ensures question == GenerateQuestion(1, opDraw, draw1, draw2) && feedback == NoFeedback
      ensures score == savedScore.GetOr(0) && level == savedLevel.GetOr(1)
      ensures streak == 0 && timeLeft == SecondsPerQuestion
    {
      question := GenerateQuestion(1, opDraw, draw1, draw2);
      feedback := NoFeedback;
      score := savedScore.GetOr(0);
      level := savedLevel.GetOr(1);
      streak := 0;
      timeLeft := SecondsPerQuestion;
    }

    /**
     * `handleSubmit`, with `parsed` the result of `parseFloat` (None for NaN).
     * The follow-up question comes from a timer, modelled by `NewQuestion`.
     */
    method HandleSubmit(parsed: Option<real>)
      modifies this
      ensures Standing(score, level, streak) ==
                Submitted(Standing(old(score), old(level), old(streak)), parsed == Some(old(question.answer) as real))
      ensures feedback == if parsed == Some(old(question.answer) as real) then Correct else Wrong(old(question.answer))
      ensures question == old(question) && timeLeft == old(timeLeft)
    {
      if parsed == Some(question.answer as real) {
        feedback := Correct;
        var priorStreak := streak;
        score := score + PointsPerCorrect;
        streak := priorStreak + 1;
        if priorStreak >= StreakToLevelUp && level < MaxLevel {
          level := level + 1;
          streak := 0;
        }
      } else {
        feedback := Wrong(question.answer);
        streak := 0;
      }
    }

    /** The one-second countdown effect: count down, or report the time is up at zero. */
    method Tick()
      modifies this
      ensures old(timeLeft) > 0 ==> timeLeft == old(timeLeft) - 1 && feedback == old(feedback)
      ensures old(timeLeft) <= 0 ==> timeLeft == old(timeLeft) && feedback == TimeUp
      ensures score == old(score) && level == old(level) && streak == old(streak) && question == old(question)
    {
      if timeLeft > 0 {
        timeLeft := timeLeft - 1;
      } else {
        feedback := TimeUp;
      }
    }

    /**
     * The timer callback after an answer or a time-out: `generateQuestion` and a
     * fresh 30 s. `atLevel` is the level of the render that scheduled it.
     */
    method NewQuestion(atLevel: int, opDraw: real, draw1: real, draw2: real)
      requires IsDraw(opDraw) && IsDraw(draw1) && IsDraw(draw2)
      modifies this
      ensures question == GenerateQuestion(atLevel, opDraw, draw1, draw2) && feedback == NoFeedback
      ensures timeLeft == SecondsPerQuestion
      ensures score == old(score) && level == old(level) && streak == old(streak)
    {
      question := GenerateQuestion(atLevel, opDraw, draw1, draw2);
      feedback := NoFeedback;
      timeLeft := SecondsPerQuestion;
    }

    /**
     * `resetGame`: score 0, level 1, streak 0, 30 s, and a new question, which
     * is generated for the level of the render the button belongs to.
     */
    method ResetGame(opDraw: real, draw1: real, draw2: real)
      requires IsDraw(opDraw) && IsDraw(draw1) && IsDraw(draw2)
      modifies this
      ensures score == 0 && level == 1 && streak == 0 && timeLeft == SecondsPerQuestion
      ensures question == GenerateQuestion(old(level), opDraw, draw1, draw2) && feedback == NoFeedback
    {
      var renderedLevel := level;
      score := 0;
      level := 1;
      streak := 0;
      timeLeft := SecondsPerQuestion;
      question := GenerateQuestion(renderedLevel, opDraw, draw1, draw2);
      feedback := NoFeedback;
    }
  }
}
