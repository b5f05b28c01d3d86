/** Alphabet practice (app/alphabet/index.tsx): the learner picks a range of
    the 30-letter table, optionally randomises the first letter, and types
    the sound of each letter shown; each check shows feedback and, a moment
    later, moves on to the next letter of the range or ends the session. */
module Alphabet {
  import opened Common
  import opened Text
  import opened Shuffle

  datatype Example = Example(word: string, translation: string, pronunciation: string)

  /** One row of the table: the Cyrillic letter, its Latin sound and an example word. */
  datatype Letter = Letter(letter: char, sound: string, example: Example)

  const ALPHABET: seq<Letter> := [
    Letter('А', "a", Example("автобус", "bus", "avtobus")),
    Letter('Б', "b", Example("баба", "grandmother", "baba")),
    Letter('В', "v", Example("вода", "water", "voda")),
    Letter('Г', "g", Example("град", "city", "grad")),
    Letter('Д', "d", Example("дом", "home", "dom")),
    Letter('Е', "e", Example("ехо", "echo", "eho")),
    Letter('Ж', "zh", Example("жена", "woman", "zhena")),
    Letter('З', "z", Example("зъб", "tooth", "zab")),
    Letter('И', "i", Example("име", "name", "ime")),
    Letter('Й', "y", Example("йога", "yoga", "yoga")),
    Letter('К', "k", Example("куче", "dog", "kuche")),
    Letter('Л', "l", Example("луна", "moon", "luna")),
    Letter('М', "m", Example("мама", "mother", "mama")),
    Letter('Н', "n", Example("нос", "nose", "nos")),
    Letter('О', "o", Example("око", "eye", "oko")),
    Letter('П', "p", Example("път", "road", "pat")),
    Letter('Р', "r", Example("риба", "fish", "riba")),
    Letter('С', "s", Example("сън", "dream", "san")),
    Letter('Т', "t", Example("там", "there", "tam")),
    Letter('У', "u", Example("ухо", "ear", "uho")),
    Letter('Ф', "f", Example("филм", "movie", "film")),
    Letter('Х', "h", Example("хляб", "bread", "hlyab")),
    Letter('Ц', "ts", Example("цвят", "color", "tsvyat")),
    Letter('Ч', "ch", Example("час", "hour", "chas")),
    Letter('Ш', "sh", Example("шал", "scarf", "shal")),
    Letter('Щ', "sht", Example("щастие", "happiness", "shtastie")),
    Letter('Ъ', "a", Example("със", "with", "sas")),
    Letter('Ь', "", Example("пять", "five", "pyat")),
    Letter('Ю', "yu", Example("юни", "June", "yuni")),
    Letter('Я', "ya", Example("ягода", "strawberry", "yagoda"))
  ]

  /** The range buttons of the settings panel. */
  const PRESETS: seq<string> := ["0-10", "11-20", "all"]

  /** The table lists its letters in strictly increasing code-point order,
      so no letter occurs twice. */
  lemma LettersIncrease()
    ensures |ALPHABET| == 30
    ensures forall i, j :: 0 <= i < j < |ALPHABET| ==> ALPHABET[i].letter < ALPHABET[j].letter
  {
    assert forall i :: 0 <= i < |ALPHABET| - 1 ==> ALPHABET[i].letter < ALPHABET[i + 1].letter;
    IncreasingFromNeighbours(ALPHABET);
  }

  /** Letters that increase from each row to the next increase throughout. */
  lemma {:induction false} IncreasingFromNeighbours(t: seq<Letter>)
    requires forall i :: 0 <= i < |t| - 1 ==> t[i].letter < t[i + 1].letter
    ensures forall i, j :: 0 <= i < j < |t| ==> t[i].letter < t[j].letter
    decreases |t|
  {
    if |t| > 1 {
      var rest := t[1..];
      assert forall i :: 0 <= i < |rest| ==> rest[i] == t[i + 1];
      IncreasingFromNeighbours(rest);
      forall i, j | 0 <= i < j < |t|
        ensures t[i].letter < t[j].letter
      {
        if 0 < i {
          assert t[i] == rest[i - 1] && t[j] == rest[j - 1];
        } else if 1 < j {
          assert t[1] == rest[0] && t[j] == rest[j - 1];
        }
      }
    }
  }

  /** Every sound in the table is already lower case. */
  lemma SoundsAreLowerCase()
    ensures forall n :: 0 <= n < |ALPHABET| ==> Lower(ALPHABET[n].sound) == ALPHABET[n].sound
  {
    assert forall n :: 0 <= n < |ALPHABET| ==> IsLowerCase(ALPHABET[n].sound);
    forall n | 0 <= n < |ALPHABET|
      ensures Lower(ALPHABET[n].sound) == ALPHABET[n].sound
    {
      LowerOfLowerCase(ALPHABET[n].sound);
    }
  }

  // ---------------------------------------------------------------------------
  // Range selection

  /** `range.split('-').map(Number)` for a range written `<digits>-<digits>`;
      `None` for any other string. */
  function ParseRange(range: string): Option<(nat, nat)>
  {
    var first := LeadingDigits(range);
    if first == [] || |first| == |range| || range[|first|] != '-' then None
    else
      var second := range[|first| + 1..];
      if second == [] || !AllDigits(second) then None
      else Some((DigitsValue(first), DigitsValue(second)))
  }

  /** The range strings the screen can hold: "all" and `<digits>-<digits>`. */
  predicate IsRangeString(range: string)
  {
    range == "all" || ParseRange(range).Some?
  }

  /** A range written from two numbers parses back to those numbers. */
  lemma {:induction false} ParseRangeOfFormat(start: nat, end: nat)
    ensures ParseRange(NatToString(start) + "-" + NatToString(end)) == Some((start, end))
  {
    var a, b := NatToString(start), NatToString(end);
    var r := a + "-" + b;
    assert r == a + ("-" + b);
    LeadingDigitsOfDigits(a, "-" + b);
    assert r[|a|] == '-';
    assert r[|a| + 1..] == b;
  }

  /** `Array.prototype.slice(start, end)` for non-negative bounds: indices are
      clamped to the length and a reversed range is empty. */
  function Slice<T>(t: seq<T>, start: nat, end: nat): (r: seq<T>)
    ensures start <= end <= |t| ==> r == t[start..end]
    ensures start <= |t| < end ==> r == t[start..]
    ensures end <= start || |t| <= start ==> r == []
  {
    var a := if start < |t| then start else |t|;
    var b := if end < |t| then end else |t|;
    if a < b then t[a..b] else []
  }

  /** `getPracticeLetters` over the letter table `table`: the whole table for
      "all", otherwise the slice the range names. */
  function PracticeLetters(table: seq<Letter>, range: string): (letters: seq<Letter>)
    requires IsRangeString(range)
    ensures range == "all" ==> letters == table
    ensures forall start: nat, end: nat ::
      ParseRange(range) == Some((start, end)) && start <= end <= |table| ==>
        letters == table[start..end]
  {
    if range == "all" then table
    else
      var bounds := ParseRange(range).value;
      Slice(table, bounds.0, bounds.1)
  }

  /** Every letter practised is a letter of the table. */
  lemma PracticeLettersFromTable(table: seq<Letter>, range: string)
    requires IsRangeString(range)
    ensures forall i :: 0 <= i < |PracticeLetters(table, range)| ==> PracticeLetters(table, range)[i] in table
  {
  }

  /** For `0 <= s <= e <= 30` the range "s-e" selects `ALPHABET[s..e)`, in
      table order, `e - s` letters. */
  lemma PracticeLettersOfRange(start: nat, end: nat)
    requires start <= end <= |ALPHABET|
    ensures IsRangeString(NatToString(start) + "-" + NatToString(end))
    ensures PracticeLetters(ALPHABET, NatToString(start) + "-" + NatToString(end)) == ALPHABET[start..end]
    ensures |PracticeLetters(ALPHABET, NatToString(start) + "-" + NatToString(end))| == end - start
  {
    ParseRangeOfFormat(start, end);
  }

  lemma NumberedPresetStrings()
    ensures NatToString(0) + "-" + NatToString(10) == "0-10"
    ensures NatToString(11) + "-" + NatToString(20) == "11-20"
  {
    assert NatToString(10) == NatToString(1) + [DigitChar(0)];
    assert NatToString(11) == NatToString(1) + [DigitChar(1)];
    assert NatToString(20) == NatToString(2) + [DigitChar(0)];
  }

  /** Every preset is a range string the screen can hold. */
  lemma PresetsAreRanges()
    ensures forall p :: p in PRESETS ==> IsRangeString(p)
  {
    NumberedPresetStrings();
    ParseRangeOfFormat(0, 10);
    ParseRangeOfFormat(11, 20);
  }

  /** The first preset practises the letters at indices 0 to 9. */
  lemma PresetZeroToTen()
    ensures IsRangeString("0-10")
    ensures PracticeLetters(ALPHABET, "0-10") == ALPHABET[0..10]
  {
    NumberedPresetStrings();
    PracticeLettersOfRange(0, 10);
  }

  /** The second preset practises the letters at indices 11 to 19. */
  lemma PresetElevenToTwenty()
    ensures IsRangeString("11-20")
    ensures PracticeLetters(ALPHABET, "11-20") == ALPHABET[11..20]
  {
    NumberedPresetStrings();
    PracticeLettersOfRange(11, 20);
  }

  /** The letter К is the one at index 10. */
  lemma LetterKAtTen()
    ensures ALPHABET[10].letter == 'К'
  {
  }

  /** К belongs to neither numbered preset: the first stops before it and
      the second starts after it. */
  lemma PresetsSkipK()
    ensures forall i :: 0 <= i < |PracticeLetters(ALPHABET, "0-10")| ==> PracticeLetters(ALPHABET, "0-10")[i].letter != 'К'
    ensures forall i :: 0 <= i < |PracticeLetters(ALPHABET, "11-20")| ==> PracticeLetters(ALPHABET, "11-20")[i].letter != 'К'
  {
    PresetZeroToTen();
    PresetElevenToTwenty();
    AlphabetLettersDistinct();
    LetterKAtTen();
    SliceAvoids(ALPHABET, 0, 10, 10);
    SliceAvoids(ALPHABET, 11, 20, 10);
  }

  predicate DistinctLetters(letters: seq<Letter>)
  {
    forall i, j :: 0 <= i < j < |letters| ==> letters[i].letter != letters[j].letter
  }

  /** In a table without repeated letters, a slice that leaves out position
      `k` does not hold the letter at `k`. */
  lemma SliceAvoids(t: seq<Letter>, start: nat, end: nat, k: nat)
    requires DistinctLetters(t)
    requires start <= end <= |t| && k < |t| && !(start <= k < end)
    ensures forall i :: 0 <= i < end - start ==> t[start..end][i].letter != t[k].letter
  {
    assert forall i :: 0 <= i < end - start ==> t[start..end][i] == t[start + i];
  }

  /** A slice of a table without repeated letters has none either. */
  lemma SliceKeepsDistinctLetters(t: seq<Letter>, start: nat, end: nat)
    requires DistinctLetters(t)
    ensures DistinctLetters(Slice(t, start, end))
  {
    var r := Slice(t, start, end);
    if r != [] {
      assert forall i :: 0 <= i < |r| ==> r[i] == t[start + i];
    }
  }

  /** No letter occurs twice in a selection, so looking a letter up by its
      character finds the position it is at. */
  lemma SelectionLettersDistinct(table: seq<Letter>, range: string)
    requires DistinctLetters(table)
    requires IsRangeString(range)
    ensures DistinctLetters(PracticeLetters(table, range))
  {
    if range != "all" {
      var bounds := ParseRange(range).value;
      SliceKeepsDistinctLetters(table, bounds.0, bounds.1);
    }
  }

  /** The table itself repeats no letter. */
  lemma AlphabetLettersDistinct()
    ensures DistinctLetters(ALPHABET)
  {
    LettersIncrease();
  }

  // ---------------------------------------------------------------------------
  // Answer checking

  /** `userAnswer.toLowerCase() === sound.toLowerCase()`; nothing is trimmed. */
  predicate IsCorrect(answer: string, sound: string)
  {
    Lower(answer) == Lower(sound)
  }

  /** For a sound of the table, the answer is right exactly when it spells
      the sound up to ASCII case. */
  lemma CorrectIffSameUpToCase(answer: string, n: nat)
    requires n < |ALPHABET|
    ensures var l := ALPHABET[n]; IsCorrect(answer, l.sound) <==> Lower(answer) == l.sound
    ensures var l := ALPHABET[n];
      IsCorrect(answer, l.sound) <==>
        |answer| == |l.sound| && forall i :: 0 <= i < |answer| ==> LowerChar(answer[i]) == l.sound[i]
  {
    var l := ALPHABET[n];
    SoundsAreLowerCase();
    LowerEqualIff(answer, l.sound);
    assert forall i :: 0 <= i < |l.sound| ==> LowerChar(l.sound[i]) == Lower(l.sound)[i];
  }

  /** Examples: "YA" and "Ya" are accepted for Я, while a trailing space is not
      trimmed away. */
  lemma CheckExamples()
    ensures ALPHABET[29].letter == 'Я'
    ensures IsCorrect("YA", ALPHABET[29].sound) && IsCorrect("Ya", ALPHABET[29].sound)
    ensures !IsCorrect("ya ", ALPHABET[29].sound)
  {
    assert Lower("YA") == "ya";
    assert Lower("Ya") == "ya";
    assert Lower("ya") == "ya";
  }

  /** The soft sign Ь has the empty sound, and the check button needs a
      non-empty answer: pressed, it never accepts Ь. */
  lemma ButtonNeverAcceptsSoftSign(answer: string)
    requires answer != ""
    ensures ALPHABET[27].letter == 'Ь'
    ensures !IsCorrect(answer, ALPHABET[27].sound)
  {
    assert |Lower(answer)| > 0;
  }

  /** `findIndex(l => l.letter === ch)`: the first position holding the
      letter, or -1. */
  method FindLetter(letters: seq<Letter>, ch: char) returns (index: int)
    ensures -1 <= index < |letters|
    ensures 0 <= index ==> letters[index].letter == ch
    ensures forall j :: 0 <= j < |letters| && (index == -1 || j < index) ==> letters[j].letter != ch
  {
    index := 0;
    while index < |letters|
      invariant 0 <= index <= |letters|
      invariant forall j :: 0 <= j < index ==> letters[j].letter != ch
    {
      if letters[index].letter == ch {
        return;
      }
      index := index + 1;
    }
    index := -1;
  }

  /** In a selection without repeated letters, looking the current letter
      up finds exactly its position. */
  lemma FindsCurrent(letters: seq<Letter>, current: Letter, index: int)
    requires DistinctLetters(letters)
    requires current in letters
    requires -1 <= index < |letters|
    requires 0 <= index ==> letters[index].letter == current.letter
    requires forall j :: 0 <= j < |letters| && (index == -1 || j < index) ==> letters[j].letter != current.letter
    ensures 0 <= index && letters[index] == current
    ensures forall i :: 0 <= i < |letters| && letters[i] == current ==> i == index
  {
    var j :| 0 <= j < |letters| && letters[j] == current;
    assert index != -1 && index <= j;
  }

  /** The letter after the current one, or none after the last: what the
      screen moves to, wherever the current letter occurs. */
  lemma FollowsCurrent(letters: seq<Letter>, current: Letter, index: int, next: Option<Letter>)
    requires 0 <= index < |letters| && letters[index] == current
    requires forall i :: 0 <= i < |letters| && letters[i] == current ==> i == index
    requires next == if index < |letters| - 1 then Some(letters[index + 1]) else None
    ensures next.Some? ==> next.value in letters
    ensures forall i :: 0 <= i < |letters| - 1 && letters[i] == current ==> next == Some(letters[i + 1])
    ensures letters[|letters| - 1] == current <==> next.None?
  {
  }

  // ---------------------------------------------------------------------------
  // The practice session

  /** The practice-mode state of the screen. `current` is
      `currentPracticeLetter` (`null` is `None`: the settings panel is shown). */
  class Practice {
    /** The letter table the screen reads, `ALPHABET`. */
    const alphabet: seq<Letter>
    var practiceRange: string
    var isRandomOrder: bool
    var current: Option<Letter>
    var userAnswer: string
    var feedback: Feedback
    var score: nat
    var attempts: nat

    /** The range is one the screen can hold and the letter shown belongs to it. */
    ghost predicate ShowsSelectedLetter()
      reads this`practiceRange, this`current
    {
      && IsRangeString(practiceRange)
      && (current.Some? ==> current.value in PracticeLetters(alphabet, practiceRange))
    }

    /** The letter shown belongs to the selected range, and at most one point
        is scored per attempt. */
    ghost predicate Valid()
      reads this
    {
      DistinctLetters(alphabet) && ShowsSelectedLetter() && score <= attempts
    }

    /** The check button is enabled only with a letter shown, a non-empty
        answer and no feedback on screen. */
    predicate CheckEnabled()
      reads this
    {
      current.Some? && userAnswer != "" && !feedback.visible
    }

    /** The initial `useState` values. */
    constructor ()
      ensures Valid()
      ensures alphabet == ALPHABET
      ensures practiceRange == "0-10" && !isRandomOrder && current.None?
      ensures userAnswer == "" && feedback == Hidden && score == 0 && attempts == 0
    {
      alphabet := ALPHABET;
      practiceRange := "0-10";
      isRandomOrder := false;
      current := None;
      userAnswer := "";
      feedback := Hidden;
      score := 0;
      attempts := 0;
      new;
      assert NatToString(0) + "-" + NatToString(10) == "0-10";
      ParseRangeOfFormat(0, 10);
      AlphabetLettersDistinct();
    }

    /** A range button of the settings panel, shown while no letter is. */
    method SelectRange(range: string)
      requires Valid() && current.None?
      requires range in PRESETS
      modifies this`practiceRange
      ensures Valid()
      ensures practiceRange == range
    {
      PresetsAreRanges();
      practiceRange := range;
    }

    /** The randomise toggle of the settings panel. */
    method ToggleRandomOrder()
      requires Valid() && current.None?
      modifies this`isRandomOrder
      ensures Valid()
      ensures isRandomOrder == !old(isRandomOrder)
    {
      isRandomOrder := !isRandomOrder;
    }

    /** The text field's `onChangeText`; the field is shown only with a letter. */
    method SetAnswer(text: string)
      requires Valid() && current.Some?
      modifies this`userAnswer
      ensures Valid()
      ensures userAnswer == text
    {
      userAnswer := text;
    }

    /** `initializePractice`: the first letter of the (optionally shuffled)
        selection becomes current, and the answer, feedback and counters are
        reset. Its button is in the settings panel, shown while no letter
        is. `order` is the order the random sort produced. */
    method Start(order: seq<nat>)
      requires Valid() && current.None?
      requires isRandomOrder ==> IsPermutation(order, |PracticeLetters(alphabet, practiceRange)|)
      modifies this`current, this`userAnswer, this`feedback, this`score, this`attempts
      ensures Valid()
      ensures score == 0 && attempts == 0 && userAnswer == "" && feedback == Hidden
      ensures PracticeLetters(alphabet, practiceRange) == [] ==> current.None?
      ensures PracticeLetters(alphabet, practiceRange) != [] ==>
        current.Some? && current.value in PracticeLetters(alphabet, practiceRange)
      ensures PracticeLetters(alphabet, practiceRange) != [] && !isRandomOrder ==>
        current == Some(PracticeLetters(alphabet, practiceRange)[0])
      ensures PracticeLetters(alphabet, practiceRange) != [] && isRandomOrder ==>
        current == Some(PracticeLetters(alphabet, practiceRange)[order[0]])
    {
      var letters := PracticeLetters(alphabet, practiceRange);
      var practiceLetters := if isRandomOrder then Permute(letters, order) else letters;
      if practiceLetters == [] {
        current := None;
      } else {
        current := Some(practiceLetters[0]);
      }
      userAnswer := "";
      feedback := Hidden;
      score := 0;
      attempts := 0;
    }

    /** `checkAnswer`, also reached from the keyboard's submit key, which is
        not guarded: show whether the answer is right, count the attempt and
        score a point when it is. */
    method CheckAnswer()
      requires Valid() && current.Some?
      modifies this`feedback, this`score, this`attempts
      ensures Valid()
      ensures feedback == Feedback(true, IsCorrect(userAnswer, current.value.sound))
      ensures attempts == old(attempts) + 1
      ensures score == old(score) + Point(IsCorrect(userAnswer, current.value.sound))
    {
      var isCorrect := Lower(userAnswer) == Lower(current.value.sound);
      feedback := Feedback(true, isCorrect);
      if isCorrect {
        score := score + 1;
      }
      attempts := attempts + 1;
    }

    /** The check button, which is disabled unless `CheckEnabled()`. */
    method PressCheck()
      requires Valid() && CheckEnabled()
      modifies this`feedback, this`score, this`attempts
      ensures Valid()
      ensures feedback == Feedback(true, IsCorrect(userAnswer, current.value.sound))
      ensures attempts == old(attempts) + 1
      ensures score == old(score) + Point(IsCorrect(userAnswer, current.value.sound))
      ensures !CheckEnabled()
    {
      CheckAnswer();
    }

    /** The callback `checkAnswer` schedules: find the current letter in the
        unshuffled selection and show the one after it, or end the session
        after the last; clear the answer and hide the feedback. */
    method Advance()
      requires Valid() && current.Some?
      modifies this`current, this`userAnswer, this`feedback
      ensures Valid()
      ensures userAnswer == "" && feedback == Hidden
      ensures forall i ::
        (0 <= i < |PracticeLetters(alphabet, practiceRange)| - 1 &&
         PracticeLetters(alphabet, practiceRange)[i] == old(current).value) ==>
          current == Some(PracticeLetters(alphabet, practiceRange)[i + 1])
      ensures
        (|PracticeLetters(alphabet, practiceRange)| > 0 &&
         PracticeLetters(alphabet, practiceRange)[|PracticeLetters(alphabet, practiceRange)| - 1] == old(current).value) ==>
          current.None?
    {
      var letters := PracticeLetters(alphabet, practiceRange);
      var shown := current.value;
      SelectionLettersDistinct(alphabet, practiceRange);
      var index := FindLetter(letters, shown.letter);
      FindsCurrent(letters, shown, index);
      var next: Option<Letter> := None;
      if index < |letters| - 1 {
        next := Some(letters[index + 1]);
      }
      FollowsCurrent(letters, shown, index, next);
      current := next;
      userAnswer := "";
      feedback := Hidden;
    }
  }
}
