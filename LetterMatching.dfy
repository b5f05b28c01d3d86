/** Letter matching (app/letter-matching.tsx): the nine words are shuffled;
    for each word the learner builds its spelling by tapping sound buttons
    (one button per distinct sound of the word), can take picked sounds out
    again, checks the answer and moves on; after the last word the results
    card bands the score. */
module LetterMatching {
  import opened Common
  import opened Shuffle

  datatype Difficulty = Easy | Medium

  /** A word of the game. Only its Latin `sounds` take part in the logic. */
  datatype Word = Word(sounds: seq<string>, translation: string, difficulty: Difficulty)

  /** "майка", the word the guard as written makes unanswerable. */
  function Mayka(): Word
  {
    Word(["m", "a", "y", "k", "a"], "mother", Easy)
  }

  /** The word table, in its declared order. */
  function Words(): (w: seq<Word>)
    ensures |w| == 9
  {
    [ Word(["ya", "g", "o", "d", "a"], "strawberry", Easy),
      Word(["yu", "n", "i"], "June", Easy),
      Word(["sht", "a", "s", "t", "i", "e"], "happiness", Medium),
      Mayka(),
      Word(["p", "r", "i", "ya", "t", "e", "l"], "friend", Medium),
      Word(["zh", "e", "n", "a"], "woman", Easy),
      Word(["sh", "a", "l"], "scarf", Easy),
      Word(["ch", "a", "n", "t", "a"], "bag", Easy),
      Word(["ts", "v", "e", "t", "e"], "flower", Medium) ]
  }

  predicate NoDuplicates<T(==)>(s: seq<T>)
  {
    forall i, j :: 0 <= i < j < |s| ==> s[i] != s[j]
  }

  /** A sequence without duplicates holds each of its elements once. */
  lemma {:induction false} NoDuplicatesCount<T>(s: seq<T>, x: T)
    requires NoDuplicates(s)
    ensures multiset(s)[x] == if x in s then 1 else 0
  {
    if s != [] {
      assert s == [s[0]] + s[1..];
      NoDuplicatesCount(s[1..], x);
      if s[0] == x {
        assert x !in s[1..];
      }
    }
  }

  // ---------------------------------------------------------------------------
  // The pure helpers

  /** `sounds.join('')`. */
  function Join(s: seq<string>): string
  {
    if s == [] then "" else s[0] + Join(s[1..])
  }

  lemma {:induction false} JoinAppend(a: seq<string>, b: seq<string>)
    ensures Join(a + b) == Join(a) + Join(b)
  {
    if a != [] {
      assert (a + b)[0] == a[0] && (a + b)[1..] == a[1..] + b;
      JoinAppend(a[1..], b);
    } else {
      assert a + b == b;
    }
  }

  /** The answer is compared as one string, not sound by sound: different
      selections can spell the same answer. */
  lemma JoinIsNotTokenwise()
    ensures Join(["s", "h"]) == Join(["sh"]) && ["s", "h"] != ["sh"]
  {
    assert Join(["h"]) == "h";
  }

  /** `selectedSounds.filter((_, index) => index !== i)`: exactly the
      element at `i` goes, and the others keep their order; an index outside
      the list removes nothing. */
  function RemoveAt<T>(s: seq<T>, i: int): (r: seq<T>)
    ensures 0 <= i < |s| ==> r == s[..i] + s[i + 1..]
    ensures !(0 <= i < |s|) ==> r == s
  {
    if s == [] then []
    else if i == 0 then s[1..]
    else
      var rest := RemoveAt(s[1..], i - 1);
      assert 0 < i < |s| ==> s[..i] + s[i + 1..] == [s[0]] + (s[1..][..i - 1] + s[1..][i..]);
      [s[0]] + rest
  }

  /** Removing a sound never adds to the selection's multiset. */
  lemma {:induction false} RemoveAtShrinks<T>(s: seq<T>, i: int)
    ensures multiset(RemoveAt(s, i)) <= multiset(s)
    ensures 0 <= i < |s| ==> multiset(RemoveAt(s, i)) + multiset{s[i]} == multiset(s)
  {
    if 0 <= i < |s| {
      assert s == s[..i] + [s[i]] + s[i + 1..];
    }
  }

  /** A selection within a word's sounds stays within them when a sound is taken out. */
  lemma RemoveAtStaysWithin<T>(s: seq<T>, i: int, t: seq<T>)
    requires multiset(s) <= multiset(t)
    ensures multiset(RemoveAt(s, i)) <= multiset(t)
  {
    RemoveAtShrinks(s, i);
    var r := multiset(RemoveAt(s, i));
    forall x
      ensures r[x] <= multiset(t)[x]
    {
      assert r[x] <= multiset(s)[x];
    }
  }

  /** `[...new Set(sounds)]`: each distinct sound once, in the order of its
      first occurrence. */
  function Distinct(s: seq<string>): (r: seq<string>)
    ensures NoDuplicates(r)
    ensures forall x :: x in r <==> x in s
  {
    if s == [] then []
    else
      var rest := Distinct(s[..|s| - 1]);
      assert s == s[..|s| - 1] + [s[|s| - 1]];
      if s[|s| - 1] in rest then rest else rest + [s[|s| - 1]]
  }

  /** `availableSounds`: the distinct sounds in the random order `order`. */
  function AvailableSounds(sounds: seq<string>, order: seq<nat>): seq<string>
    requires IsPermutation(order, |Distinct(sounds)|)
  {
    Permute(Distinct(sounds), order)
  }

  /** One button per distinct sound of the word: every sound of the word
      appears exactly once among the buttons, and nothing else does. */
  lemma AvailableSoundsOnce(sounds: seq<string>, order: seq<nat>, x: string)
    requires IsPermutation(order, |Distinct(sounds)|)
    ensures multiset(AvailableSounds(sounds, order))[x] == if x in sounds then 1 else 0
  {
    PermuteMultiset(Distinct(sounds), order);
    NoDuplicatesCount(Distinct(sounds), x);
  }

  // ---------------------------------------------------------------------------
  // The sound buttons

  /** The guard as the screen writes it: a sound button is disabled while
      feedback is shown or once that sound is in the selection. */
  predicate SoundEnabledAsWritten(selected: seq<string>, target: seq<string>, feedbackVisible: bool, sound: string)
  {
    sound in target && !feedbackVisible && sound !in selected
  }

  /** Under the guard as written, the selection never holds a sound twice. */
  lemma AsWrittenKeepsNoDuplicates(selected: seq<string>, target: seq<string>, sound: string)
    requires NoDuplicates(selected)
    requires SoundEnabledAsWritten(selected, target, false, sound)
    ensures NoDuplicates(selected + [sound])
  {
  }

  /** Taking out one sound keeps a selection free of duplicates. */
  lemma RemoveAtKeepsNoDuplicates<T>(s: seq<T>, i: int)
    requires NoDuplicates(s)
    ensures NoDuplicates(RemoveAt(s, i))
    ensures forall k :: 0 <= k < |RemoveAt(s, i)| ==> RemoveAt(s, i)[k] in s
  {
    var r := RemoveAt(s, i);
    if 0 <= i < |s| {
      forall a | 0 <= a < |r|
        ensures r[a] == s[if a < i then a else a + 1]
      {
      }
      forall a, b | 0 <= a < b < |r|
        ensures r[a] != r[b]
      {
        var a', b' := if a < i then a else a + 1, if b < i then b else b + 1;
        assert a' < b' && r[a] == s[a'] && r[b] == s[b'];
      }
    }
  }

  /** A tap on the sound buttons of one word: a sound button or the remove
      mark of the picked sound at an index. */
  datatype Tap = Pick(sound: string) | Remove(index: int)

  /** The selection after a series of taps on one word, starting from the
      empty selection the word begins with, under the guard as written: a
      disabled button does nothing, and an enabled one appends while the
      selection is shorter than the word. Feedback is taken as hidden, which
      only enables more taps. */
  function AsWrittenSelection(target: seq<string>, taps: seq<Tap>): seq<string>
    decreases |taps|
  {
    if taps == [] then []
    else
      var selected := AsWrittenSelection(target, taps[..|taps| - 1]);
      match taps[|taps| - 1]
      case Pick(sound) =>
        if SoundEnabledAsWritten(selected, target, false, sound) && |selected| < |target|
        then selected + [sound] else selected
      case Remove(index) => RemoveAt(selected, index)
  }

  /** Every selection the screen as written can reach holds each sound at
      most once, and only sounds of the word. */
  lemma {:induction false} AsWrittenSelectionValid(target: seq<string>, taps: seq<Tap>)
    ensures NoDuplicates(AsWrittenSelection(target, taps))
    ensures forall i :: 0 <= i < |AsWrittenSelection(target, taps)| ==> AsWrittenSelection(target, taps)[i] in target
    decreases |taps|
  {
    if taps != [] {
      var selected := AsWrittenSelection(target, taps[..|taps| - 1]);
      AsWrittenSelectionValid(target, taps[..|taps| - 1]);
      match taps[|taps| - 1]
      case Pick(sound) =>
        if SoundEnabledAsWritten(selected, target, false, sound) && |selected| < |target| {
          AsWrittenKeepsNoDuplicates(selected, target, sound);
        }
      case Remove(index) =>
        RemoveAtKeepsNoDuplicates(selected, index);
    }
  }

  /** The letter `c` occurs in the sounds only as the one-letter sound
      `[c]` (as "a" in "чанта", whose "ch" has no "a"). */
  predicate SpelledAlone(s: seq<string>, c: char)
  {
    forall i :: 0 <= i < |s| && c in s[i] ==> s[i] == [c]
  }

  /** A letter spelled only by its own one-letter sound occurs in the join
      as often as that sound occurs in the list. */
  lemma {:induction false} JoinLetterCount(s: seq<string>, c: char)
    requires SpelledAlone(s, c)
    ensures multiset(Join(s))[c] == multiset(s)[[c]]
  {
    if s != [] {
      assert s == [s[0]] + s[1..];
      assert SpelledAlone(s[1..], c) by {
        forall i | 0 <= i < |s[1..]| && c in s[1..][i]
          ensures s[1..][i] == [c]
        {
          assert s[1..][i] == s[i + 1];
        }
      }
      JoinLetterCount(s[1..], c);
      if c in s[0] {
        assert s[0] == [c];
      } else {
        assert multiset(s[0])[c] == 0;
      }
    }
  }

  /** In a list of one-letter sounds every letter is spelled by its own sound alone. */
  lemma OneLetterSoundsSpellAlone(s: seq<string>, c: char)
    requires forall i :: 0 <= i < |s| ==> |s[i]| == 1
    ensures SpelledAlone(s, c)
  {
    forall i | 0 <= i < |s| && c in s[i]
      ensures s[i] == [c]
    {
      assert s[i] == [s[i][0]];
    }
  }

  /** A list holding a value at two positions holds it at least twice. */
  lemma {:induction false} HeldTwice<T>(s: seq<T>, i: int, j: int)
    requires 0 <= i < j < |s| && s[i] == s[j]
    ensures multiset(s)[s[i]] >= 2
  {
    assert s == s[..i] + [s[i]] + s[i + 1..j] + [s[j]] + s[j + 1..];
  }

  /** Under the guard as written, a selection spells a letter it spells
      only by that letter's own sound at most once. */
  lemma AsWrittenSpellsLettersOnce(selected: seq<string>, c: char)
    requires NoDuplicates(selected)
    requires SpelledAlone(selected, c)
    ensures multiset(Join(selected))[c] <= 1
  {
    JoinLetterCount(selected, c);
    NoDuplicatesCount(selected, [c]);
  }

  /** Under the guard as written, a word that spells some letter twice, and
      only by that letter's own sound, can never be answered correctly. */
  lemma AsWrittenRepeatedLetterUnanswerable(selected: seq<string>, target: seq<string>, c: char)
    requires NoDuplicates(selected)
    requires forall i :: 0 <= i < |selected| ==> selected[i] in target
    requires SpelledAlone(target, c)
    requires multiset(Join(target))[c] >= 2
    ensures Join(selected) != Join(target)
  {
    forall i | 0 <= i < |selected| && c in selected[i]
      ensures selected[i] == [c]
    {
      var k :| 0 <= k < |target| && target[k] == selected[i];
    }
    AsWrittenSpellsLettersOnce(selected, c);
  }

  /** Whatever taps the screen as written allows on such a word, the
      selection never spells it. */
  lemma AsWrittenRepeatedLetterNeverSpelled(target: seq<string>, c: char, taps: seq<Tap>)
    requires SpelledAlone(target, c)
    requires multiset(target)[[c]] >= 2
    ensures Join(AsWrittenSelection(target, taps)) != Join(target)
  {
    JoinLetterCount(target, c);
    AsWrittenSelectionValid(target, taps);
    AsWrittenRepeatedLetterUnanswerable(AsWrittenSelection(target, taps), target, c);
  }

  /** "майка" is spelled by five one-letter sounds, two of them "a". */
  lemma MaykaSpelling()
    ensures Join(Mayka().sounds) == "mayka"
    ensures multiset(Join(Mayka().sounds))['a'] == 2
    ensures forall k :: 0 <= k < |Mayka().sounds| ==> |Mayka().sounds[k]| == 1
  {
    assert Join(["a"]) == "a";
    assert Join(["k", "a"]) == "ka";
    assert Join(["y", "k", "a"]) == "yka";
    assert Join(["a", "y", "k", "a"]) == "ayka";
    assert multiset("mayka")['a'] == 2;
    var target := Mayka().sounds;
    forall k | 0 <= k < |target|
      ensures |target[k]| == 1
    {
      assert k == 0 || k == 1 || k == 2 || k == 3 || k == 4;
    }
  }

  /** Exactly three words of the table repeat a sound: "майка" and "чанта"
      repeat "a", "цвете" repeats "e". */
  lemma WordsWithRepeatedSound()
    ensures forall k :: 0 <= k < |Words()| ==>
      (NoDuplicates(Words()[k].sounds) <==> !(k == 3 || k == 7 || k == 8))
  {
    var w := Words();
    assert w[3].sounds[1] == w[3].sounds[4];
    assert w[7].sounds[1] == w[7].sounds[4];
    assert w[8].sounds[2] == w[8].sounds[4];
  }

  lemma MaykaInTable()
    ensures Words()[3] == Mayka()
  {
  }

  /** The word "майка" (the fourth of the table) has the sound "a" twice,
      but the guard as written lets "a" be picked once; so no selection the
      screen allows spells "mayka", and this word can never be answered
      correctly. */
  lemma AsWrittenMaykaUnanswerable(selected: seq<string>)
    requires NoDuplicates(selected)
    requires forall i :: 0 <= i < |selected| ==> selected[i] in Mayka().sounds
    ensures Join(selected) != Join(Mayka().sounds)
  {
    MaykaSpelling();
    OneLetterSoundsSpellAlone(Mayka().sounds, 'a');
    AsWrittenRepeatedLetterUnanswerable(selected, Mayka().sounds, 'a');
  }

  /** Whatever taps the screen as written allows on "майка", the selection
      never spells it. */
  lemma AsWrittenMaykaNeverSpelled(taps: seq<Tap>)
    ensures Join(AsWrittenSelection(Mayka().sounds, taps)) != Join(Mayka().sounds)
  {
    AsWrittenSelectionValid(Mayka().sounds, taps);
    AsWrittenMaykaUnanswerable(AsWrittenSelection(Mayka().sounds, taps));
  }

  /** "чанта" (the eighth word) needs the sound "a" twice, and its "ch" has
      no "a"; whatever taps the screen as written allows, the selection
      never spells it. */
  lemma AsWrittenChantaNeverSpelled(taps: seq<Tap>)
    ensures Join(AsWrittenSelection(Words()[7].sounds, taps)) != Join(Words()[7].sounds)
  {
    var t := Words()[7].sounds;
    assert t == ["ch", "a", "n", "t", "a"];
    HeldTwice(t, 1, 4);
    assert SpelledAlone(t, 'a') by {
      forall i | 0 <= i < |t| && 'a' in t[i]
        ensures t[i] == ['a']
      {
        assert i == 1 || i == 4 by {
          assert 'a' !in t[0] && 'a' !in t[2] && 'a' !in t[3];
        }
      }
    }
    AsWrittenRepeatedLetterNeverSpelled(t, 'a', taps);
  }

  /** "цвете" (the ninth word) needs the sound "e" twice, and its "ts" has
      no "e"; whatever taps the screen as written allows, the selection
      never spells it. */
  lemma AsWrittenTsveteNeverSpelled(taps: seq<Tap>)
    ensures Join(AsWrittenSelection(Words()[8].sounds, taps)) != Join(Words()[8].sounds)
  {
    var t := Words()[8].sounds;
    assert t == ["ts", "v", "e", "t", "e"];
    HeldTwice(t, 2, 4);
    assert SpelledAlone(t, 'e') by {
      forall i | 0 <= i < |t| && 'e' in t[i]
        ensures t[i] == ['e']
      {
        assert i == 2 || i == 4 by {
          assert 'e' !in t[0] && 'e' !in t[1] && 'e' !in t[3];
        }
      }
    }
    AsWrittenRepeatedLetterNeverSpelled(t, 'e', taps);
  }

  /** Every word of the table that repeats a sound can never be answered on
      the screen as written, whatever the taps. */
  lemma AsWrittenRepeatsNeverSpelled(k: int, taps: seq<Tap>)
    requires 0 <= k < |Words()| && !NoDuplicates(Words()[k].sounds)
    ensures Join(AsWrittenSelection(Words()[k].sounds, taps)) != Join(Words()[k].sounds)
  {
    WordsWithRepeatedSound();
    if k == 3 {
      MaykaInTable();
      AsWrittenMaykaNeverSpelled(taps);
    } else if k == 7 {
      AsWrittenChantaNeverSpelled(taps);
    } else {
      AsWrittenTsveteNeverSpelled(taps);
    }
  }

  /** The guard as evidently intended: a sound button stays enabled until
      the sound has been picked as often as the word has it. */
  predicate SoundEnabled(selected: seq<string>, target: seq<string>, feedbackVisible: bool, sound: string)
  {
    !feedbackVisible && multiset(selected)[sound] < multiset(target)[sound]
  }

  /** Every pick the guard as written allows, the corrected guard allows
      too, so what is proved for the corrected guard holds for those picks. */
  lemma AsWrittenImpliesCorrected(selected: seq<string>, target: seq<string>, feedbackVisible: bool, sound: string)
    requires SoundEnabledAsWritten(selected, target, feedbackVisible, sound)
    ensures SoundEnabled(selected, target, feedbackVisible, sound)
  {
  }

  /** Under the corrected guard, picking the word's next sound in order is
      always allowed; `CorrectedSpellsEveryWord` builds the whole word from
      this step. */
  lemma {:induction false} CorrectedGuardAdmitsTarget(target: seq<string>, k: nat)
    requires k < |target|
    ensures SoundEnabled(target[..k], target, false, target[k])
    ensures target[..k] + [target[k]] == target[..k + 1]
  {
    assert target == target[..k] + [target[k]] + target[k + 1..];
  }

  /** Under the corrected guard the selection stays within the word's
      sounds, counted with multiplicity, and so is never longer than it. */
  lemma {:induction false} CorrectedGuardKeepsSubMultiset(selected: seq<string>, target: seq<string>, sound: string)
    requires multiset(selected) <= multiset(target)
    requires SoundEnabled(selected, target, false, sound)
    ensures multiset(selected + [sound]) <= multiset(target)
    ensures |selected| < |target|
  {
    var rest := multiset(target) - multiset(selected);
    assert multiset(target) == multiset(selected) + rest;
    assert sound in rest;
  }

  /** The selection after a series of taps on one word under the corrected
      guard, as `Game.SelectSound` and `Game.RemoveSound` apply them,
      starting from the empty selection; feedback is taken as hidden. */
  function CorrectedSelection(target: seq<string>, taps: seq<Tap>): seq<string>
    decreases |taps|
  {
    if taps == [] then []
    else
      var selected := CorrectedSelection(target, taps[..|taps| - 1]);
      match taps[|taps| - 1]
      case Pick(sound) =>
        if SoundEnabled(selected, target, false, sound) && |selected| < |target|
        then selected + [sound] else selected
      case Remove(index) => RemoveAt(selected, index)
  }

  /** Every selection reachable under the corrected guard stays within the
      word's sounds, counted with multiplicity. */
  lemma {:induction false} CorrectedSelectionWithin(target: seq<string>, taps: seq<Tap>)
    ensures multiset(CorrectedSelection(target, taps)) <= multiset(target)
    decreases |taps|
  {
    if taps != [] {
      var selected := CorrectedSelection(target, taps[..|taps| - 1]);
      CorrectedSelectionWithin(target, taps[..|taps| - 1]);
      match taps[|taps| - 1]
      case Pick(sound) =>
        if SoundEnabled(selected, target, false, sound) && |selected| < |target| {
          CorrectedGuardKeepsSubMultiset(selected, target, sound);
        }
      case Remove(index) =>
        RemoveAtStaysWithin(selected, index, target);
    }
  }

  /** One pick per sound, in the order given. */
  function Picks(sounds: seq<string>): (taps: seq<Tap>)
    ensures |taps| == |sounds|
    ensures forall i :: 0 <= i < |sounds| ==> taps[i] == Pick(sounds[i])
  {
    if sounds == [] then [] else Picks(sounds[..|sounds| - 1]) + [Pick(sounds[|sounds| - 1])]
  }

  /** Under the corrected guard, tapping the first `k` sounds of the word in
      order selects exactly those sounds. */
  lemma {:induction false} PicksInOrderSelectPrefix(target: seq<string>, k: nat)
    requires k <= |target|
    ensures CorrectedSelection(target, Picks(target[..k])) == target[..k]
  {
    if k > 0 {
      var taps := Picks(target[..k]);
      assert target[..k][..k - 1] == target[..k - 1];
      assert taps[..k - 1] == Picks(target[..k - 1]);
      PicksInOrderSelectPrefix(target, k - 1);
      CorrectedGuardAdmitsTarget(target, k - 1);
    }
  }

  /** Under the corrected guard every word can be answered correctly: tapping
      its sounds in order spells it. */
  lemma CorrectedSpellsEveryWord(target: seq<string>)
    ensures Join(CorrectedSelection(target, Picks(target))) == Join(target)
  {
    PicksInOrderSelectPrefix(target, |target|);
    assert target[..|target|] == target;
  }

  // ---------------------------------------------------------------------------
  // Results

  datatype Band = KeepLearning | GreatJob | Perfect

  /** The results message: perfect for a full score, "great job" from 70 %
      (`score >= n * 0.7`, in integers `10 * score >= 7 * n`), otherwise
      "keep learning". */
  function ResultBand(score: nat, total: nat): Band
  {
    if score == total then Perfect
    else if 10 * score >= 7 * total then GreatJob
    else KeepLearning
  }

  function Rank(b: Band): nat
  {
    match b
    case KeepLearning => 0
    case GreatJob => 1
    case Perfect => 2
  }

  /** For the nine words: 9 is perfect, 7 and 8 are "great job", up to 6 is
      "keep learning". */
  lemma BandsForNineWords(score: nat)
    requires score <= |Words()|
    ensures ResultBand(score, |Words()|) == Perfect <==> score == 9
    ensures ResultBand(score, |Words()|) == GreatJob <==> 7 <= score <= 8
    ensures ResultBand(score, |Words()|) == KeepLearning <==> score <= 6
  {
  }

  /** A higher score never gets a lower band. */
  lemma BandMonotone(score: nat, better: nat, total: nat)
    requires score <= better <= total
    ensures Rank(ResultBand(score, total)) <= Rank(ResultBand(better, total))
  {
  }

  // ---------------------------------------------------------------------------
  // The game

  /** The state of the screen. */
  class Game {
    /** The word table the screen reads, `WORDS`. */
    const table: seq<Word>
    var words: seq<Word>
    var currentWordIndex: nat
    var selectedSounds: seq<string>
    var isComplete: bool
    var score: nat
    var feedback: Feedback
    var showNextButton: bool
    /** The order the last shuffle put the table in. */
    ghost var shuffle: seq<nat>

    /** `words[currentWordIndex]`. */
    function CurrentWord(): Word
      requires currentWordIndex < |words|
      reads this
    {
      words[currentWordIndex]
    }

    /** The sounds of the current word. */
    function Target(): seq<string>
      requires currentWordIndex < |words|
      reads this
    {
      CurrentWord().sounds
    }

    /** The words are the table in the order of the last shuffle. */
    ghost predicate Shuffled()
      reads this`words, this`shuffle
    {
      IsPermutation(shuffle, |table|) && words == Permute(table, shuffle)
    }

    /** The words are a shuffle of the table and the index stays within
        them; the selection uses the current word's sounds at most as often
        as it has them; the next button shows exactly with the feedback; at
        most one point was scored per word checked; and the game completes
        only on the last word, with its feedback shown. */
    ghost predicate Valid()
      reads this
    {
      && Shuffled()
      && |table| == 9
      && currentWordIndex < |words|
      && multiset(selectedSounds) <= multiset(Target())
      && showNextButton == feedback.visible
      && score <= currentWordIndex + Point(feedback.visible)
      && (isComplete ==> feedback.visible && currentWordIndex == |words| - 1)
    }

    /** Mounting the screen: the initial state, with the words shuffled by
        the effect into the order `order`. */
    constructor (order: seq<nat>)
      requires IsPermutation(order, |Words()|)
      ensures Valid()
      ensures table == Words()
      ensures words == Permute(Words(), order)
      ensures currentWordIndex == 0 && selectedSounds == [] && !isComplete && score == 0
      ensures feedback == Hidden && !showNextButton
    {
      table := Words();
      words := Permute(Words(), order);
      currentWordIndex := 0;
      selectedSounds := [];
      isComplete := false;
      score := 0;
      feedback := Hidden;
      showNextButton := false;
      shuffle := order;
    }

    /** `handleSoundSelect`, from a sound button that the (corrected) guard
        enables: append the sound while the selection is shorter than the word. */
    method SelectSound(sound: string)
      requires Valid() && !isComplete
      requires SoundEnabled(selectedSounds, Target(), feedback.visible, sound)
      modifies this`selectedSounds
      ensures Valid()
      ensures selectedSounds ==
        if |old(selectedSounds)| < |Target()| then old(selectedSounds) + [sound] else old(selectedSounds)
      ensures |selectedSounds| <= |Target()|
    {
      CorrectedGuardKeepsSubMultiset(selectedSounds, Target(), sound);
      if |selectedSounds| < |Target()| {
        selectedSounds := selectedSounds + [sound];
      }
    }

    /** `handleSoundRemove`, from the remove mark of a picked sound (shown
        during a game, also while feedback is). */
    method RemoveSound(index: int)
      requires Valid() && !isComplete
      modifies this`selectedSounds
      ensures Valid()
      ensures selectedSounds == RemoveAt(old(selectedSounds), index)
    {
      RemoveAtStaysWithin(selectedSounds, index, Target());
      selectedSounds := RemoveAt(selectedSounds, index);
    }

    /** `checkAnswer`, whose button shows while no feedback is and some sound
        is picked: right when the picked sounds spell the word's; a point
        when right; feedback and the next button appear. */
    method CheckAnswer()
      requires Valid() && !isComplete
      requires !feedback.visible && |selectedSounds| > 0
      modifies this`score, this`feedback, this`showNextButton
      ensures Valid()
      ensures feedback == Feedback(true, Join(selectedSounds) == Join(Target()))
      ensures score == old(score) + Point(Join(selectedSounds) == Join(Target()))
      ensures showNextButton
    {
      var isCorrect := Join(selectedSounds) == Join(Target());
      score := score + Point(isCorrect);
      feedback := Feedback(true, isCorrect);
      showNextButton := true;
    }

    /** `handleNext`, from the next button: the next word with a cleared
        selection and hidden feedback, or, on the last word, the results. */
    method HandleNext()
      requires Valid() && !isComplete && showNextButton
      modifies this`currentWordIndex, this`selectedSounds, this`feedback, this`showNextButton, this`isComplete
      ensures Valid()
      ensures old(currentWordIndex) < |words| - 1 ==>
        && currentWordIndex == old(currentWordIndex) + 1
        && selectedSounds == [] && feedback == Hidden && !showNextButton && !isComplete
      ensures old(currentWordIndex) == |words| - 1 ==>
        && isComplete
        && currentWordIndex == old(currentWordIndex) && selectedSounds == old(selectedSounds)
        && feedback == old(feedback) && showNextButton
    {
      if currentWordIndex < |words| - 1 {
        currentWordIndex := currentWordIndex + 1;
        selectedSounds := [];
        feedback := Hidden;
        showNextButton := false;
      } else {
        isComplete := true;
      }
    }

    /** `resetGame` ("Play Again", on the results card): reshuffle the table
        into `order` and start over. */
    method ResetGame(order: seq<nat>)
      requires Valid() && isComplete
      requires IsPermutation(order, |table|)
      modifies this
      ensures Valid()
      ensures words == Permute(table, order)
      ensures currentWordIndex == 0 && selectedSounds == [] && !isComplete && score == 0
      ensures feedback == Hidden && !showNextButton
    {
      words := Permute(table, order);
      currentWordIndex := 0;
      selectedSounds := [];
      isComplete := false;
      score := 0;
      feedback := Hidden;
      showNextButton := false;
      shuffle := order;
    }
  }

  /** The game always plays each word of the table exactly once. */
  lemma GameWordsAreTheTable(g: Game)
    requires g.Valid()
    ensures multiset(g.words) == multiset(g.table)
  {
    PermuteMultiset(g.table, g.shuffle);
  }

  /** When the results show, the score is at most the number of words, so
      the band is taken over a real fraction. */
  lemma CompletedScoreBounded(g: Game)
    requires g.Valid() && g.isComplete
    ensures g.score <= |g.words| == |g.table| == 9
  {
  }
}
