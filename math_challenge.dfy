/**
 * The arithmetic recovery screen (components/recovery/MathChallengeRecovery.tsx): three easy
 * products, or five harder sums, differences and products, all to be answered exactly.
 * `Math.random()` is given as the draws it returns, each in [0, 1).
 */
module MathChallenge {
  import opened Wrappers
  import opened Strings
  import JsNumber
  import DurationText

  datatype Difficulty = Easy | Hard

  const TIMES: char := '×'

  /** The three `Math.random()` results one problem consumes: the operator, then the two operands. */
  datatype Draw = Draw(op: real, left: real, right: real)

  predicate ValidDraw(d: Draw) {
    0.0 <= d.op < 1.0 && 0.0 <= d.left < 1.0 && 0.0 <= d.right < 1.0
  }

  /** `Math.floor(r * n)` for a draw `r` in [0, 1): an index below `n`. */
  function Pick(r: real, n: nat): (k: nat)
    requires 0.0 <= r < 1.0 && n > 0
    ensures k < n
  {
    PickInRange(r, n);
    JsNumber.Floor(r * n as real)
  }

  lemma PickInRange(r: real, n: nat)
    requires 0.0 <= r < 1.0 && n > 0
    ensures 0 <= JsNumber.Floor(r * n as real) < n
  {
    JsNumber.FractionOf(r, n as real);
    JsNumber.FloorBelow(r * n as real, n);
  }

  predicate IsOperator(op: char) {
    op == TIMES || op == '+' || op == '-'
  }

  /** The operands and operator `generateProblem` draws. */
  function Operands(difficulty: Difficulty, d: Draw): (r: (nat, char, nat))
    requires ValidDraw(d)
    ensures IsOperator(r.1)
    ensures difficulty == Easy ==> r.1 == TIMES && 2 <= r.0 <= 11 && 2 <= r.2 <= 11
    ensures difficulty == Hard && r.1 == TIMES ==> 5 <= r.0 <= 16 && 5 <= r.2 <= 16
    ensures difficulty == Hard && r.1 != TIMES ==> 20 <= r.0 <= 69 && 10 <= r.2 <= 59
  {
    if difficulty == Easy then (Pick(d.left, 10) + 2, TIMES, Pick(d.right, 10) + 2)
    else
      var op := ['+', '-', TIMES][Pick(d.op, 3)];
      if op == TIMES then (Pick(d.left, 12) + 5, TIMES, Pick(d.right, 12) + 5)
      else (Pick(d.left, 50) + 20, op, Pick(d.right, 50) + 10)
  }

  function Value(left: int, op: char, right: int): int {
    if op == TIMES then left * right else if op == '+' then left + right else left - right
  }

  /** The question as displayed: "a × b", "a + b" or "a - b"; reading it back and working it out gives its value. */
  function Question(left: nat, op: char, right: nat): (q: string)
    ensures IsOperator(op) ==> Evaluate(q) == Some(Value(left, op, right))
  {
    var d := NatToString(left);
    var q := d + " " + [op] + " " + NatToString(right);
    DurationText.PrintedHasNo(left, ' ');
    assert q[|d|] == ' ';
    assert IndexOfChar(q, ' ') == |d|;
    assert q[..|d|] == d;
    assert q[|d| + 1] == op && q[|d| + 2] == ' ';
    assert q[|d| + 3..] == NatToString(right);
    DurationText.ReadNatOfPrinted(left);
    DurationText.ReadNatOfPrinted(right);
    q
  }

  /** Reading a displayed question back and working it out. */
  function Evaluate(q: string): (v: Option<int>)
  {
    var i := IndexOfChar(q, ' ');
    if i == -1 || i + 3 > |q| || q[i + 2] != ' ' || !IsOperator(q[i + 1]) then None
    else match (DurationText.ReadNat(q[..i]), DurationText.ReadNat(q[i + 3..]))
      case (Some(l), Some(r)) => Some(Value(l, q[i + 1], r))
      case _ => None
  }

  datatype Problem = Problem(q: string, a: int)

  /** `generateProblem`: the stored answer is the value of the displayed question. */
  function GenerateProblem(difficulty: Difficulty, d: Draw): (p: Problem)
    requires ValidDraw(d)
    ensures Evaluate(p.q) == Some(p.a)
    ensures difficulty == Easy ==> 4 <= p.a <= 121
    ensures difficulty == Hard ==> -39 <= p.a <= 256
  {
    var (l, op, r) := Operands(difficulty, d);
    ProductBounds(l, r, difficulty);
    Problem(Question(l, op, r), Value(l, op, r))
  }

  lemma ProductBounds(l: nat, r: nat, difficulty: Difficulty)
    ensures 2 <= l <= 11 && 2 <= r <= 11 ==> 4 <= l * r <= 121
    ensures 5 <= l <= 16 && 5 <= r <= 16 ==> 25 <= l * r <= 256
  {
    if 2 <= l <= 11 && 2 <= r <= 11 {
      assert 2 * r <= l * r <= 11 * r;
    }
    if 5 <= l <= 16 && 5 <= r <= 16 {
      assert 5 * r <= l * r <= 16 * r;
    }
  }

  function ProblemCount(difficulty: Difficulty): nat {
    if difficulty == Easy then 3 else 5
  }

  /** The problems of one screen, one per draw. */
  function Problems(difficulty: Difficulty, draws: seq<Draw>): (ps: seq<Problem>)
    requires |draws| == ProblemCount(difficulty)
    requires forall k :: 0 <= k < |draws| ==> ValidDraw(draws[k])
    ensures |ps| == ProblemCount(difficulty)
    ensures forall k :: 0 <= k < |ps| ==> ps[k] == GenerateProblem(difficulty, draws[k])
  {
    seq(|draws|, k requires 0 <= k < |draws| => GenerateProblem(difficulty, draws[k]))
  }

  /** The answers start empty, one per problem. */
  function InitialAnswers(ps: seq<Problem>): (answers: seq<string>)
    ensures |answers| == |ps| && forall k :: 0 <= k < |answers| ==> answers[k] == ""
  {
    seq(|ps|, k => "")
  }

  /** What checking the answers does. */
  datatype Check = Completes | ErrorShown(message: string)

  /** `checkAnswers`: completion iff every answer parses to exactly its problem's value. */
  function CheckAnswers(ps: seq<Problem>, answers: seq<string>): (c: Check)
    requires |answers| == |ps|
    ensures c == Completes <==> forall k :: 0 <= k < |ps| ==> ParseInt(answers[k]) == Some(ps[k].a)
    ensures c.ErrorShown? ==> c.message == "Some answers are incorrect. Try again."
  {
    if forall k :: 0 <= k < |ps| ==> ParseInt(answers[k]) == Some(ps[k].a) then Completes
    else ErrorShown("Some answers are incorrect. Try again.")
  }

  /** Typing every value as `String` prints it completes the challenge. */
  lemma TypedValuesComplete(ps: seq<Problem>, answers: seq<string>)
    requires |answers| == |ps|
    requires forall k :: 0 <= k < |ps| ==> answers[k] == IntToString(ps[k].a)
    ensures CheckAnswers(ps, answers) == Completes
  {
    forall k | 0 <= k < |ps| ensures ParseInt(answers[k]) == Some(ps[k].a) {
      ParseIntRoundTrip(ps[k].a);
    }
  }

  /** The empty answers a screen starts with never complete it. */
  lemma EmptyAnswersFail(ps: seq<Problem>)
    requires |ps| > 0
    ensures CheckAnswers(ps, InitialAnswers(ps)).ErrorShown?
  {
    assert ParseInt(InitialAnswers(ps)[0]) == None;
  }

  /** Editing one answer: only that index changes, and the error is cleared. */
  function Edit(answers: seq<string>, i: nat, text: string): (r: (seq<string>, Option<string>))
    requires i < |answers|
    ensures |r.0| == |answers| && r.0[i] == text && r.1.None?
    ensures forall k :: 0 <= k < |answers| && k != i ==> r.0[k] == answers[k]
  {
    (answers[i := text], None)
  }

  /** A hard difference can be negative: 20 - 59, whose answer has to be typed with its sign. */
  lemma HardDifferenceCanBeNegative()
    ensures GenerateProblem(Hard, Draw(0.5, 0.0, 0.99)).a == -39
  {
    assert Pick(0.5, 3) == 1 by { assert JsNumber.Floor(0.5 * 3.0) == 1; }
    assert Pick(0.0, 50) == 0 by { assert JsNumber.Floor(0.0 * 50.0) == 0; }
    assert Pick(0.99, 50) == 49 by { assert JsNumber.Floor(0.99 * 50.0) == 49; }
    assert Operands(Hard, Draw(0.5, 0.0, 0.99)) == (20, '-', 59);
  }
}
