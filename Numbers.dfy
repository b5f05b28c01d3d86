/** Number practice (app/numbers.tsx). In learn mode the screen shows the
    Bulgarian word of a number from a chosen preset range and checks the
    digits typed for it; in practice mode it shows an addition or
    subtraction problem, with each operand shown as its word, or as digits
    when the table has none, and checks the result typed. Both modes share the score and the count of problems. */
module Numbers {
  import opened Common
  import opened Text

  /** The word table; it is partial (26 to 29, 33 to 39, 41 to 49, ... are missing). */
  function BulgarianNumbers(): map<int, string> { map[
    0 := "нула", 1 := "едно", 2 := "две", 3 := "три", 4 := "четири",
    5 := "пет", 6 := "шест", 7 := "седем", 8 := "осем", 9 := "девет",
    10 := "десет", 11 := "единадесет", 12 := "дванадесет", 13 := "тринадесет",
    14 := "четиринадесет", 15 := "петнадесет", 16 := "шестнадесет",
    17 := "седемнадесет", 18 := "осемнадесет", 19 := "деветнадесет",
    20 := "двадесет", 21 := "двадесет и едно", 22 := "двадесет и две",
    23 := "двадесет и три", 24 := "двадесет и четири", 25 := "двадесет и пет",
    30 := "тридесет", 31 := "тридесет и едно", 32 := "тридесет и две",
    40 := "четиридесет", 50 := "петдесет", 60 := "шестдесет", 70 := "седемдесет",
    80 := "осемдесет", 90 := "деветдесет", 100 := "сто" ] }

  /** The numbers the table spells: 0 to 25, 30 to 32 and the tens from 40 to 100. */
  predicate HasWord(n: int)
  {
    (0 <= n <= 25) || (30 <= n <= 32) || (40 <= n <= 100 && n % 10 == 0)
  }

  /** The table spells exactly the numbers `HasWord` names. */
  lemma TableDomain()
    ensures forall n :: n in BulgarianNumbers() <==> HasWord(n)
  {
  }

  /** No word of the table is empty. */
  lemma TableWordsNonEmpty()
    ensures forall n :: n in BulgarianNumbers() ==> BulgarianNumbers()[n] != ""
  {
  }

  lemma TableSamples()
    ensures BulgarianNumbers()[7] == "седем" && BulgarianNumbers()[10] == "десет"
  {
  }

  /** `BulgarianNumbers()[n] || n.toString()`: the word when the table has one
      (no word is empty, so `||` falls through only on a missing key),
      otherwise the decimal digits. */
  function Word(n: nat): (w: string)
    ensures HasWord(n) ==> w == BulgarianNumbers()[n]
    ensures !HasWord(n) ==> w == NatToString(n) && ParseInt(w) == Some(n)
  {
    TableDomain();
    TableWordsNonEmpty();
    if n in BulgarianNumbers() && BulgarianNumbers()[n] != "" then BulgarianNumbers()[n]
    else
      ParseIntOfNatToString(n, []);
      assert NatToString(n) + [] == NatToString(n);
      NatToString(n)
  }

  // ---------------------------------------------------------------------------
  // Preset ranges and the next number

  /** The keys of `ranges`, in their order. */
  datatype Preset = ZeroToTen | ElevenToTwenty | TwentyOneToFifty | FiftyOneToHundred

  /** The key of the preset in `ranges`, which is also its button label. */
  function Key(p: Preset): string
  {
    match p
    case ZeroToTen => "0-10"
    case ElevenToTwenty => "11-20"
    case TwentyOneToFifty => "21-50"
    case FiftyOneToHundred => "51-100"
  }

  function First(p: Preset): nat
  {
    match p
    case ZeroToTen => 0
    case ElevenToTwenty => 11
    case TwentyOneToFifty => 21
    case FiftyOneToHundred => 51
  }

  function Count(p: Preset): nat
  {
    match p
    case ZeroToTen => 11
    case ElevenToTwenty => 10
    case TwentyOneToFifty => 30
    case FiftyOneToHundred => 50
  }

  /** `Array.from({ length: Count }, (_, i) => i + First)`. */
  function Range(p: Preset): seq<int>
  {
    seq(Count(p), i requires 0 <= i => First(p) + i)
  }

  function Last(p: Preset): int
  {
    First(p) + Count(p) - 1
  }

  /** Each key names its preset's first and last numbers. */
  lemma KeyNamesBounds(p: Preset)
    ensures Key(p) == NatToString(First(p)) + "-" + NatToString(Last(p))
  {
    match p
    case ZeroToTen =>
      assert NatToString(10) == NatToString(1) + [DigitChar(0)];
    case ElevenToTwenty =>
      assert NatToString(11) == NatToString(1) + [DigitChar(1)];
      assert NatToString(20) == NatToString(2) + [DigitChar(0)];
    case TwentyOneToFifty =>
      assert NatToString(21) == NatToString(2) + [DigitChar(1)];
      assert NatToString(50) == NatToString(5) + [DigitChar(0)];
    case FiftyOneToHundred =>
      assert NatToString(51) == NatToString(5) + [DigitChar(1)];
      assert NatToString(100) == NatToString(10) + [DigitChar(0)];
      assert NatToString(10) == NatToString(1) + [DigitChar(0)];
  }

  /** No two presets share a key, so the key held in the state determines the preset. */
  lemma KeysDistinct(p: Preset, q: Preset)
    ensures Key(p) == Key(q) <==> p == q
  {
  }

  /** Each preset is the contiguous run `First(p)..Last(p)`, in increasing order. */
  lemma RangeIsRun(p: Preset)
    ensures |Range(p)| == Count(p) > 0
    ensures Range(p)[0] == First(p) && Range(p)[Count(p) - 1] == Last(p)
    ensures forall i :: 0 <= i < |Range(p)| ==> Range(p)[i] == First(p) + i
    ensures forall x :: x in Range(p) <==> First(p) <= x <= Last(p)
  {
    forall x | First(p) <= x <= Last(p)
      ensures x in Range(p)
    {
      assert Range(p)[x - First(p)] == x;
    }
  }

  /** The presets: 0..10, 11..20, 21..50 and 51..100, of 11, 10, 30 and 50 numbers. */
  lemma Presets()
    ensures (First(ZeroToTen), Last(ZeroToTen), Count(ZeroToTen)) == (0, 10, 11)
    ensures (First(ElevenToTwenty), Last(ElevenToTwenty), Count(ElevenToTwenty)) == (11, 20, 10)
    ensures (First(TwentyOneToFifty), Last(TwentyOneToFifty), Count(TwentyOneToFifty)) == (21, 50, 30)
    ensures (First(FiftyOneToHundred), Last(FiftyOneToHundred), Count(FiftyOneToHundred)) == (51, 100, 50)
  {
  }

  /** Together the presets hold 0..100, and no number is in two of them. */
  lemma PresetsPartition(x: int)
    ensures 0 <= x <= 100 <==>
      x in Range(ZeroToTen) || x in Range(ElevenToTwenty) ||
      x in Range(TwentyOneToFifty) || x in Range(FiftyOneToHundred)
    ensures forall p, q :: x in Range(p) && x in Range(q) ==> p == q
  {
    RangeIsRun(ZeroToTen);
    RangeIsRun(ElevenToTwenty);
    RangeIsRun(TwentyOneToFifty);
    RangeIsRun(FiftyOneToHundred);
    forall p, q | x in Range(p) && x in Range(q)
      ensures p == q
    {
      RangeIsRun(p);
      RangeIsRun(q);
    }
  }

  /** Numbers of the presets the table has no word for, which learn mode shows
      as an empty card. */
  lemma MissingWords()
    ensures 26 in Range(TwentyOneToFifty) && !HasWord(26)
    ensures 55 in Range(FiftyOneToHundred) && !HasWord(55)
  {
    RangeIsRun(TwentyOneToFifty);
    RangeIsRun(FiftyOneToHundred);
  }

  /** `Array.prototype.indexOf`: the first position of `x`, or -1. */
  function IndexOf(s: seq<int>, x: int): (i: int)
    ensures -1 <= i < |s|
    ensures 0 <= i ==> s[i] == x && x !in s[..i]
    ensures i == -1 <==> x !in s
  {
    if s == [] then -1
    else if s[0] == x then 0
    else
      var j := IndexOf(s[1..], x);
      assert s == [s[0]] + s[1..];
      if j == -1 then -1
      else
        assert s[..j + 1] == [s[0]] + s[1..][..j];
        j + 1
  }

  /** Stepping one past the end of a sequence of length `n` wraps to 0. */
  lemma WrapAround(k: int, n: int)
    requires 0 <= k <= n && n > 0
    ensures k % n == if k < n then k else 0
  {
    if k == n {
      assert k % n == 0;
    }
  }

  /** A number's position in a preset is its distance from the first. */
  lemma IndexOfRun(p: Preset, x: int)
    ensures IndexOf(Range(p), x) == if First(p) <= x <= Last(p) then x - First(p) else -1
  {
    RangeIsRun(p);
    var i := IndexOf(Range(p), x);
    if First(p) <= x <= Last(p) {
      assert i != -1;
      assert Range(p)[i] == x;
    }
  }

  /** `getNextNumber`. In random mode, the member `draw` of the range
      (`Math.floor(Math.random() * length)`); otherwise the successor of the
      current number in its range, wrapping from the last to the first, and
      the first when the current number is not in the range at all. */
  function GetNextNumber(p: Preset, current: int, isRandom: bool, draw: nat): (next: int)
    requires isRandom ==> draw < |Range(p)|
    ensures First(p) <= next <= Last(p)
    ensures isRandom ==> next == Range(p)[draw]
    ensures !isRandom && First(p) <= current < Last(p) ==> next == current + 1
    ensures !isRandom && !(First(p) <= current < Last(p)) ==> next == First(p)
  {
    RangeIsRun(p);
    var range := Range(p);
    if isRandom then range[draw]
    else
      var index := IndexOf(range, current);
      IndexOfRun(p, current);
      var k := index + 1;
      WrapAround(k, |range|);
      range[k % |range|]
  }

  /** `k` presses of "Next Number" in sequential mode. */
  function Step(p: Preset, from: int, k: nat): int
  {
    if k == 0 then from else GetNextNumber(p, Step(p, from, k - 1), false, 0)
  }

  /** Sequential mode walks the whole range in order from its first number
      and comes back to it after `Count(p)` steps. */
  lemma {:induction false} SequentialVisitsAll(p: Preset, k: nat)
    requires k <= Count(p)
    ensures Step(p, First(p), k) == if k < Count(p) then First(p) + k else First(p)
  {
    if k > 0 {
      var first, count := First(p), Count(p);
      assert k - 1 < count;
      SequentialVisitsAll(p, k - 1);
      var previous := Step(p, first, k - 1);
      assert previous == first + (k - 1);
      SequentialNext(p, previous);
      assert Step(p, first, k) == GetNextNumber(p, previous, false, 0);
    }
  }

  /** One press in sequential mode from a number of the range. */
  lemma SequentialNext(p: Preset, current: int)
    requires First(p) <= current <= Last(p)
    ensures GetNextNumber(p, current, false, 0) == if current < Last(p) then current + 1 else First(p)
  {
  }

  // ---------------------------------------------------------------------------
  // Arithmetic problems

  datatype Operation = Plus | Minus

  /** What `generateMathProblem` returns: the operands as they are shown,
      the operation and the expected result. */
  datatype Problem = Problem(num1: string, num2: string, operation: Operation, result: int)

  /** The draws `Math.floor(Math.random() * k)` can give: `opDraw` picks the
      operation, `draw1` and `draw2` are the operands less one. */
  predicate ValidDraws(opDraw: nat, draw1: nat, draw2: nat)
  {
    && opDraw < 2
    && (opDraw == 0 ==> draw1 < 50 && draw2 < 100 - (draw1 + 1))
    && (opDraw == 1 ==> draw1 < 100 && draw2 < draw1 + 1)
  }

  /** A problem the screen may show: its result is between 0 and 100. */
  predicate ValidProblem(problem: Problem)
  {
    0 <= problem.result <= 100
  }

  /** `generateMathProblem`. An addition has `num1` in 1..50 and `num2` in
      1..100-num1, so its result is in 2..100; a subtraction has `num1` in
      1..100 and `num2` in 1..num1, so its result is in 0..99 and never
      negative. Operands are shown through `Word`. */
  function GenerateMathProblem(opDraw: nat, draw1: nat, draw2: nat): (problem: Problem)
    requires ValidDraws(opDraw, draw1, draw2)
    ensures ValidProblem(problem)
    ensures problem.operation == if opDraw == 0 then Plus else Minus
    ensures problem.num1 == Word(draw1 + 1) && problem.num2 == Word(draw2 + 1)
    ensures problem.operation == Plus ==>
      && 1 <= draw1 + 1 <= 50 && 1 <= draw2 + 1 <= 100 - (draw1 + 1)
      && problem.result == (draw1 + 1) + (draw2 + 1) && 2 <= problem.result <= 100
    ensures problem.operation == Minus ==>
      && 1 <= draw1 + 1 <= 100 && 1 <= draw2 + 1 <= draw1 + 1
      && problem.result == (draw1 + 1) - (draw2 + 1) && 0 <= problem.result <= 99
  {
    var operation := if opDraw == 0 then Plus else Minus;
    var num1 := draw1 + 1;
    var num2 := draw2 + 1;
    var result := if operation == Plus then num1 + num2 else num1 - num2;
    Problem(Word(num1), Word(num2), operation, result)
  }

  /** Every problem within those bounds can come up. */
  lemma GeneratorCoversBounds(operation: Operation, num1: nat, num2: nat)
    requires operation == Plus ==> 1 <= num1 <= 50 && 1 <= num2 <= 100 - num1
    requires operation == Minus ==> 1 <= num1 <= 100 && 1 <= num2 <= num1
    ensures var opDraw := if operation == Plus then 0 else 1;
      && ValidDraws(opDraw, num1 - 1, num2 - 1)
      && GenerateMathProblem(opDraw, num1 - 1, num2 - 1)
         == Problem(Word(num1), Word(num2), operation,
                    if operation == Plus then num1 + num2 else num1 - num2)
  {
  }

  /** 10 - 7 is shown as "десет - седем" and expects 3. */
  lemma TenMinusSeven()
    ensures ValidDraws(1, 9, 6)
    ensures GenerateMathProblem(1, 9, 6) == Problem("десет", "седем", Minus, 3)
  {
    TableSamples();
  }

  // ---------------------------------------------------------------------------
  // Answer checking

  /** `parseInt(userAnswer) === target`; `NaN` equals nothing. */
  predicate Matches(answer: string, target: int)
  {
    ParseInt(answer) == Some(target)
  }

  /** Typing a number's digits answers it, also with a non-digit tail; an
      answer with no digits answers nothing. */
  lemma MatchesDigits(n: nat, rest: string, other: int)
    requires rest == [] || !IsDigit(rest[0])
    ensures Matches(NatToString(n) + rest, n)
    ensures n != other ==> !Matches(NatToString(n) + rest, other)
    ensures !Matches("", other)
  {
    ParseIntOfNatToString(n, rest);
  }

  /** The state of the screen. */
  class NumbersScreen {
    var problem: Problem
    var userAnswer: string
    var feedback: Feedback
    var score: nat
    var totalProblems: nat
    var numberRange: Preset
    var currentNumber: int
    var isRandom: bool

    /** The number shown belongs to the selected range. */
    ghost predicate NumberInRange()
      reads this`numberRange, this`currentNumber
    {
      currentNumber in Range(numberRange)
    }

    /** The problem shown is one the generator makes. */
    ghost predicate ProblemValid()
      reads this`problem
    {
      ValidProblem(problem)
    }

    /** At most one point per problem counted, the number shown belongs to
        the selected range, and the problem shown is one the generator makes. */
    ghost predicate Valid()
      reads this
    {
      score <= totalProblems && NumberInRange() && ProblemValid()
    }

    /** The check buttons are shown while no feedback is, and enabled with a
        non-empty answer. */
    predicate CheckEnabled()
      reads this
    {
      userAnswer != "" && !feedback.visible
    }

    /** The initial `useState` values; the first problem is generated from
        the given draws. */
    constructor (opDraw: nat, draw1: nat, draw2: nat)
      requires ValidDraws(opDraw, draw1, draw2)
      ensures Valid()
      ensures problem == GenerateMathProblem(opDraw, draw1, draw2)
      ensures userAnswer == "" && feedback == Hidden && score == 0 && totalProblems == 0
      ensures numberRange == ZeroToTen && currentNumber == 0 && !isRandom
    {
      problem := GenerateMathProblem(opDraw, draw1, draw2);
      userAnswer := "";
      feedback := Hidden;
      score := 0;
      totalProblems := 0;
      numberRange := ZeroToTen;
      currentNumber := 0;
      isRandom := false;
      new;
      RangeIsRun(ZeroToTen);
    }

    /** The text field's `onChangeText`. */
    method SetAnswer(text: string)
      requires Valid()
      modifies this`userAnswer
      ensures Valid()
      ensures userAnswer == text
    {
      userAnswer := text;
    }

    /** The random-numbers toggle. */
    method ToggleRandom()
      requires Valid()
      modifies this`isRandom
      ensures Valid()
      ensures isRandom == !old(isRandom)
    {
      isRandom := !isRandom;
    }

    /** A range button: select the preset, start at its first number, hide
        the feedback and clear the answer. */
    method SelectRange(p: Preset)
      requires Valid()
      modifies this`numberRange, this`currentNumber, this`feedback, this`userAnswer
      ensures Valid()
      ensures numberRange == p && currentNumber == First(p)
      ensures feedback == Hidden && userAnswer == ""
    {
      RangeIsRun(p);
      numberRange := p;
      currentNumber := Range(p)[0];
      feedback := Hidden;
      userAnswer := "";
    }

    /** `checkNumberAnswer`: right when the answer parses to the number shown;
        the count of problems always goes up, the score when right. */
    method CheckNumberAnswer()
      requires Valid() && CheckEnabled()
      modifies this`feedback, this`score, this`totalProblems
      ensures Valid()
      ensures feedback == Feedback(true, Matches(userAnswer, currentNumber))
      ensures totalProblems == old(totalProblems) + 1
      ensures score == old(score) + Point(Matches(userAnswer, currentNumber))
    {
      var isCorrect := Matches(userAnswer, currentNumber);
      feedback := Feedback(true, isCorrect);
      score := score + Point(isCorrect);
      totalProblems := totalProblems + 1;
    }

    /** `nextNumber`, the button shown with the feedback: move to the next
        number of the range, clear the answer and hide the feedback. */
    method NextNumber(draw: nat)
      requires Valid() && feedback.visible
      requires isRandom ==> draw < |Range(numberRange)|
      modifies this`currentNumber, this`userAnswer, this`feedback
      ensures Valid()
      ensures currentNumber == GetNextNumber(numberRange, old(currentNumber), isRandom, draw)
      ensures userAnswer == "" && feedback == Hidden
    {
      RangeIsRun(numberRange);
      currentNumber := GetNextNumber(numberRange, currentNumber, isRandom, draw);
      userAnswer := "";
      feedback := Hidden;
    }

    /** `checkMathAnswer`: right when the answer parses to the result. */
    method CheckMathAnswer()
      requires Valid() && CheckEnabled()
      modifies this`feedback, this`score, this`totalProblems
      ensures Valid()
      ensures feedback == Feedback(true, Matches(userAnswer, problem.result))
      ensures totalProblems == old(totalProblems) + 1
      ensures score == old(score) + Point(Matches(userAnswer, problem.result))
    {
      var isCorrect := Matches(userAnswer, problem.result);
      feedback := Feedback(true, isCorrect);
      score := score + Point(isCorrect);
      totalProblems := totalProblems + 1;
    }

    /** `nextProblem`: a fresh problem from the given draws, the answer
        cleared and the feedback hidden. */
    method NextProblem(opDraw: nat, draw1: nat, draw2: nat)
      requires Valid() && feedback.visible
      requires ValidDraws(opDraw, draw1, draw2)
      modifies this`problem, this`userAnswer, this`feedback
      ensures Valid()
      ensures problem == GenerateMathProblem(opDraw, draw1, draw2)
      ensures userAnswer == "" && feedback == Hidden
    {
      problem := GenerateMathProblem(opDraw, draw1, draw2);
      userAnswer := "";
      feedback := Hidden;
    }
  }
}
