# Bulgarian quiz screens in Dafny

This project models the quiz logic of three screens of a Bulgarian-learning
app, and proves properties of that model.

- **Alphabet practice.** The learner picks a range of the 30-letter table and
  may randomise the first letter. They type the Latin sound of each letter
  shown. Each check shows feedback, counts the attempt and scores a point
  when the answer matches the sound up to case. A moment later the screen
  moves to the next letter of the range, or ends the session after the last
  one.
- **Number practice.** Learn mode shows the Bulgarian word of a number from
  one of four preset ranges. The learner types its digits, and "Next Number"
  moves on sequentially (wrapping) or at random. Practice mode shows an
  addition or subtraction problem and checks the result typed. Each operand
  is shown as its table word, or as its digits when the table has no word
  for it. Answers are read with `parseInt`. Both modes share a score
  and a problem count.
- **Letter matching.** The nine words are shuffled. For each word the
  learner taps sound buttons to build its spelling and can remove picked
  sounds. They check the answer, which compares the concatenations, and
  move on. After the last word, a results card bands the score at 100% and
  70%.

Each screen is one module holding one class. The class fields are the
component's state. Its methods are the handlers. A `requires` clause stands
for each UI guard: a disabled button, or a control that is only rendered in
some states. The pure helpers are functions, and lemmas state their
properties. Three shared modules support the screens:

- `Common`: option values, the feedback banner and the one-point rule.
- `Shuffle`: a random-comparator sort, modelled as an index permutation
  chosen by the caller. Applying it keeps the multiset of elements.
- `Text`: ASCII `toLowerCase`, a decimal `parseInt`, and `toString`.

Randomness enters as parameters. `Math.floor(Math.random() * k)` is a draw
`< k`. A `sort(() => Math.random() - 0.5)` is an index permutation.

Two facts about the code shape the model:

- **No trimming.** The alphabet screen compares the `toLowerCase()` of the
  answer with the `toLowerCase()` of the sound and trims neither
  (app/alphabet/index.tsx:110). `CheckExamples` shows that `"ya "` is
  rejected.
- **Banding thresholds.** The letter-matching results card bands at 100% and
  70%, with no third band (app/letter-matching.tsx:199-201). The 80% and 60%
  bands belong to the test tab (app/(tabs)/test.tsx:214-216), which is not
  part of this model.

## Model

| member | source | states |
|---|---|---|
| Shuffle.Permute | app/letter-matching.tsx:48 | the list read through an index permutation, the shape of a shuffled copy; `PermuteMultiset` states that it keeps every element |
| Shuffle.PermuteMultiset | app/letter-matching.tsx:48 | a shuffle keeps the length and every element with its multiplicity |
| Shuffle.FirstIsMember | app/alphabet/index.tsx:101-102 | the first element of a non-empty shuffle is an element of the input |
| Text.LowerChar | app/alphabet/index.tsx:110 | lower-casing a character yields no capital; capitals move up by 32 code points, to their small letters; other characters are unchanged |
| Text.UpperChar | app/alphabet/index.tsx:110 | upper-casing a small letter gives a capital that lower-cases back to it |
| Text.Lower | app/alphabet/index.tsx:110 | `toLowerCase` keeps the length and lower-cases every position |
| Text.LowerOfLowerCase | app/alphabet/index.tsx:110 | a string without capitals is its own lower-case form |
| Text.LowerEqualIff | app/alphabet/index.tsx:110 | two strings lower-case to the same string iff they have equal length and agree position by position up to case |
| Text.LowerIgnoresUpperCasing | app/alphabet/index.tsx:110 | upper-casing any letters of an answer does not change whether it matches |
| Text.LeadingDigits | app/numbers.tsx:95 | `parseInt` reads the longest digit prefix: a prefix, all digits, followed by a non-digit or the end |
| Text.SkipSpaces | app/numbers.tsx:95 | leading white space is dropped: the result is a suffix, everything dropped is white space, and it starts with a non-space |
| Text.ParseInt | app/numbers.tsx:95 | `parseInt` in base 10: optional leading white space and sign, then the longest digit prefix, or `NaN` (`None`) without one; `ParseIntOfNatToString`, `ParseIntOfNegative` and `ParseIntNoDigits` state its results |
| Text.NatToString | app/numbers.tsx:60-61 | `toString` of a non-negative number is a non-empty digit string with no leading zero whose value is the number |
| Text.ParseIntOfNatToString | app/numbers.tsx:95 | `parseInt` of the digits of `n`, followed by anything that does not start with a digit, is `n` |
| Text.ParseIntOfNegative | app/numbers.tsx:95 | a minus sign followed by digits parses to the negated value |
| Text.ParseIntNoDigits | app/numbers.tsx:95 | an answer with no sign, space or digit in front (the empty answer among them) is `NaN` |
| Alphabet.LettersIncrease | app/alphabet/index.tsx:24-55 | the table has 30 rows whose letters strictly increase, so none repeats |
| Alphabet.SoundsAreLowerCase | app/alphabet/index.tsx:24-55 | every sound of the table is already lower case |
| Alphabet.AlphabetLettersDistinct | app/alphabet/index.tsx:24-55 | no letter occurs twice in the table |
| Alphabet.LetterKAtTen | app/alphabet/index.tsx:35 | the row at index 10 is К |
| Alphabet.ParseRange | app/alphabet/index.tsx:95 | splits a range string at `-` into its two numbers; `ParseRangeOfFormat` states that it undoes writing a range |
| Alphabet.ParseRangeOfFormat | app/alphabet/index.tsx:95 | a range written as two numbers joined by `-` splits back into those two numbers |
| Alphabet.Slice | app/alphabet/index.tsx:96 | `slice` clamps both bounds to the length and gives the empty list for a reversed range |
| Alphabet.PracticeLetters | app/alphabet/index.tsx:91-97 | "all" gives the table unchanged; "s-e" with s ≤ e ≤ length gives the rows from s up to e, in table order |
| Alphabet.PracticeLettersFromTable | app/alphabet/index.tsx:91-97 | every letter practised is a row of the table |
| Alphabet.PracticeLettersOfRange | app/alphabet/index.tsx:95-96 | for 0 ≤ s ≤ e ≤ 30 the range "s-e" selects `ALPHABET[s..e)`, which has e − s letters |
| Alphabet.SelectionLettersDistinct | app/alphabet/index.tsx:91-97 | a selection from a table without repeated letters has none either |
| Alphabet.PresetsAreRanges | app/alphabet/index.tsx:197 | each preset button holds a range string the screen can parse |
| Alphabet.PresetZeroToTen | app/alphabet/index.tsx:197 | the preset "0-10" practises the rows at indices 0 to 9 |
| Alphabet.PresetElevenToTwenty | app/alphabet/index.tsx:197 | the preset "11-20" practises the rows at indices 11 to 19 |
| Alphabet.PresetsSkipK | app/alphabet/index.tsx:197 | neither numbered preset contains the letter К |
| Alphabet.IsCorrect | app/alphabet/index.tsx:110 | the answer is right when its lower-case form equals the sound's; `CorrectIffSameUpToCase` and `CheckExamples` state what that accepts |
| Alphabet.CorrectIffSameUpToCase | app/alphabet/index.tsx:110 | an answer is right iff its lower-case form is the sound, i.e. it has the sound's length and matches it letter by letter up to case |
| Alphabet.CheckExamples | app/alphabet/index.tsx:110 | "YA" and "Ya" are accepted for Я; "ya " (trailing space) is rejected |
| Alphabet.ButtonNeverAcceptsSoftSign | app/alphabet/index.tsx:282-285 | Ь has the empty sound, so the check button (which needs a non-empty answer) can never accept it |
| Alphabet.FindLetter | app/alphabet/index.tsx:120 | `findIndex`: the first position holding the letter, or -1 when no position holds it |
| Alphabet.FindsCurrent | app/alphabet/index.tsx:120 | in a selection without repeated letters, the lookup finds the current letter's unique position |
| Alphabet.FollowsCurrent | app/alphabet/index.tsx:122-126 | the letter after the current one is a member of the selection; there is none exactly when the current letter is the last |
| Alphabet.Practice.constructor | app/alphabet/index.tsx:64-70 | initial state: range "0-10", sequential order, no letter shown, empty answer, hidden feedback, zero score and attempts |
| Alphabet.Practice.SelectRange | app/alphabet/index.tsx:197-204 | a preset button, shown only with no letter on screen, stores its range |
| Alphabet.Practice.ToggleRandomOrder | app/alphabet/index.tsx:219-221 | the toggle flips random order |
| Alphabet.Practice.SetAnswer | app/alphabet/index.tsx:256 | typing, possible only while a letter is shown, replaces the answer |
| Alphabet.Practice.Start | app/alphabet/index.tsx:99-107 | the start button, shown only with no letter on screen, resets score, attempts, answer and feedback; the first letter is the selection's first (or `order[0]`-th when random), a member of it; an empty selection shows none |
| Alphabet.Practice.CheckAnswer | app/alphabet/index.tsx:109-116 | the feedback shows whether the answer matches the sound; attempts grow by 1 and score by 1 iff right, keeping score ≤ attempts |
| Alphabet.Practice.CheckEnabled | app/alphabet/index.tsx:285 | the check button is enabled with a letter shown, a non-empty answer and no feedback; `PressCheck` states what pressing it does |
| Alphabet.Practice.PressCheck | app/alphabet/index.tsx:282-285 | the button works only with a letter, a non-empty answer and no feedback shown, and disables itself once feedback is shown |
| Alphabet.Practice.Advance | app/alphabet/index.tsx:118-130 | the letter at position i < n−1 of the unshuffled selection is followed by the one at i+1; after the last the session ends; answer cleared, feedback hidden |
| Numbers.BulgarianNumbers | app/numbers.tsx:5-42 | the number-to-word table; `TableDomain`, `TableWordsNonEmpty` and `TableSamples` state its keys and words |
| Numbers.TableDomain | app/numbers.tsx:5-42 | the word table is defined exactly for 0–25, 30–32 and the tens 40–100 |
| Numbers.TableWordsNonEmpty | app/numbers.tsx:5-42 | no word of the table is empty |
| Numbers.TableSamples | app/numbers.tsx:5-42 | 7 is "седем" and 10 is "десет" |
| Numbers.Word | app/numbers.tsx:60-61 | an operand shows as its table word when there is one, otherwise as its digits, which parse back to it |
| Numbers.Range | app/numbers.tsx:79-82 | the numbers of a preset, in order; `RangeIsRun` and `Presets` state which they are |
| Numbers.RangeIsRun | app/numbers.tsx:78-83 | each preset is the increasing contiguous run from its first to its last number, and nothing else |
| Numbers.KeyNamesBounds | app/numbers.tsx:78-83 | a preset's key, which is also its button label, is its first and last number joined by `-` |
| Numbers.KeysDistinct | app/numbers.tsx:78-83 | two presets have the same key exactly when they are the same preset |
| Numbers.Presets | app/numbers.tsx:78-83 | the presets are 0..10, 11..20, 21..50 and 51..100, holding 11, 10, 30 and 50 numbers |
| Numbers.PresetsPartition | app/numbers.tsx:78-83 | together the presets hold exactly 0..100, and no number is in two presets |
| Numbers.MissingWords | app/numbers.tsx:155-156 | 26 and 55 lie in presets but have no word, so learn mode shows them as an empty card |
| Numbers.IndexOf | app/numbers.tsx:90 | `indexOf`: the first position of the value, or -1 exactly when it is absent |
| Numbers.IndexOfRun | app/numbers.tsx:90 | a number's position in a preset is its distance from the first number, or -1 outside it |
| Numbers.GetNextNumber | app/numbers.tsx:85-92 | the next number is always in the range: the drawn member in random mode, otherwise the successor, wrapping from last to first, and the first number when the current one is outside the range |
| Numbers.SequentialNext | app/numbers.tsx:90-91 | from a number of the range, sequential mode moves to the next one, and after the last to the first |
| Numbers.SequentialVisitsAll | app/numbers.tsx:85-92 | starting from the first number, k presses reach first + k, and after Count presses the walk is back at the first |
| Numbers.GenerateMathProblem | app/numbers.tsx:44-65 | addition: num1 ∈ 1..50, num2 ∈ 1..100−num1, result ∈ 2..100; subtraction: num1 ∈ 1..100, num2 ∈ 1..num1, result ∈ 0..99, never negative; operands shown through `Word` |
| Numbers.GeneratorCoversBounds | app/numbers.tsx:49-56 | every pair of operands within those bounds can be drawn, and yields its sum or difference |
| Numbers.TenMinusSeven | app/numbers.tsx:53-61 | 10 − 7 is shown as "десет", "седем" and expects 3 |
| Numbers.Matches | app/numbers.tsx:94-112 | an answer is right when `parseInt` of it gives the expected number; `MatchesDigits` states which answers those are |
| Numbers.MatchesDigits | app/numbers.tsx:95 | typing a number's digits (with any non-digit tail) answers that number and no other; the empty answer answers nothing |
| Numbers.NumbersScreen.constructor | app/numbers.tsx:68-76 | initial state: a generated problem, empty answer, hidden feedback, zero counters, range "0-10" at 0, sequential |
| Numbers.NumbersScreen.SetAnswer | app/numbers.tsx:164 | typing replaces the answer |
| Numbers.NumbersScreen.ToggleRandom | app/numbers.tsx:149 | the toggle flips random mode |
| Numbers.NumbersScreen.SelectRange | app/numbers.tsx:132-137 | a range button selects the preset, starts at its first number, hides feedback and clears the answer |
| Numbers.NumbersScreen.CheckEnabled | app/numbers.tsx:170-174 | a check button (the same guard at app/numbers.tsx:236-240) is enabled with a non-empty answer and no feedback shown; both check handlers require it |
| Numbers.NumbersScreen.CheckNumberAnswer | app/numbers.tsx:94-99 | right iff the answer parses to the number shown; the problem count grows by 1, the score by 1 iff right |
| Numbers.NumbersScreen.NextNumber | app/numbers.tsx:101-105 | moves to `GetNextNumber` of the range, clears the answer and hides feedback; the number stays in the range |
| Numbers.NumbersScreen.CheckMathAnswer | app/numbers.tsx:107-112 | right iff the answer parses to the result; the problem count grows by 1, the score by 1 iff right |
| Numbers.NumbersScreen.NextProblem | app/numbers.tsx:114-118 | a fresh generated problem, answer cleared, feedback hidden |
| LetterMatching.Words | app/letter-matching.tsx:21-31 | the table has nine words |
| LetterMatching.WordsWithRepeatedSound | app/letter-matching.tsx:21-31 | exactly the fourth, eighth and ninth words (майка, чанта, цвете) repeat a sound; every other word has distinct sounds |
| LetterMatching.Join | app/letter-matching.tsx:65 | the spelling of a list of sounds, `join('')`; `JoinAppend` and `JoinIsNotTokenwise` state its properties |
| LetterMatching.JoinAppend | app/letter-matching.tsx:65 | joining two lists of sounds one after the other is the concatenation of their joins |
| LetterMatching.JoinIsNotTokenwise | app/letter-matching.tsx:65 | ["s","h"] and ["sh"] spell the same answer although they are different selections |
| LetterMatching.RemoveAt | app/letter-matching.tsx:61 | removing index i takes out exactly element i and keeps the others in order; an index outside the list changes nothing |
| LetterMatching.RemoveAtShrinks | app/letter-matching.tsx:61 | a removal takes exactly that one sound out of the selection's multiset |
| LetterMatching.RemoveAtStaysWithin | app/letter-matching.tsx:60-62 | a selection within the word's sounds stays within them after a removal |
| LetterMatching.Distinct | app/letter-matching.tsx:95 | `new Set` keeps every sound of the word, adds none, and repeats none |
| LetterMatching.AvailableSounds | app/letter-matching.tsx:95 | the word's sounds without repeats, in a shuffled order; `AvailableSoundsOnce` states which appear |
| LetterMatching.AvailableSoundsOnce | app/letter-matching.tsx:95 | each sound of the word appears exactly once among the buttons, whatever their order, and nothing else does |
| LetterMatching.SoundEnabledAsWritten | app/letter-matching.tsx:159 | the guard as written: a sound of the word is enabled while the feedback is hidden and the sound is not yet in the selection |
| LetterMatching.AsWrittenKeepsNoDuplicates | app/letter-matching.tsx:159 | a pick under the guard as written keeps a selection without repeated sounds free of them |
| LetterMatching.RemoveAtKeepsNoDuplicates | app/letter-matching.tsx:60-62 | a removal keeps a selection without repeated sounds free of them, and adds no sound |
| LetterMatching.AsWrittenSelection | app/letter-matching.tsx:54-62 | the selection reached from the empty one by a sequence of picks and removals on the screen as written, picks gated by the guard at app/letter-matching.tsx:159; `AsWrittenSelectionValid` states its invariant |
| LetterMatching.AsWrittenSelectionValid | app/letter-matching.tsx:54-62 | every selection reachable on the screen as written holds each sound at most once, and only sounds of the word |
| LetterMatching.AsWrittenSpellsLettersOnce | app/letter-matching.tsx:159 | under that guard a selection spells at most once any letter that only the letter's own one-letter sound spells |
| LetterMatching.AsWrittenRepeatedLetterUnanswerable | app/letter-matching.tsx:155-159 | under that guard no selection answers a word that spells some letter twice, only by that letter's own one-letter sound |
| LetterMatching.AsWrittenRepeatedLetterNeverSpelled | app/letter-matching.tsx:155-159 | on the screen as written, no tap sequence ever spells such a word |
| LetterMatching.MaykaSpelling | app/letter-matching.tsx:25 | "майка" joins to "mayka", whose letter "a" occurs twice; each of its sounds is one letter |
| LetterMatching.MaykaInTable | app/letter-matching.tsx:25 | "майка" is the fourth word of the table |
| LetterMatching.AsWrittenMaykaUnanswerable | app/letter-matching.tsx:155-159 | no selection the guard as written allows spells "mayka" |
| LetterMatching.AsWrittenMaykaNeverSpelled | app/letter-matching.tsx:155-159 | whatever taps are made on the screen as written, the selection never spells "mayka", so "майка" can never be answered right |
| LetterMatching.AsWrittenChantaNeverSpelled | app/letter-matching.tsx:159 | "чанта" needs "a" twice, its "ch" has no "a", and no tap sequence on the screen as written spells it |
| LetterMatching.AsWrittenTsveteNeverSpelled | app/letter-matching.tsx:159 | "цвете" needs "e" twice, its "ts" has no "e", and no tap sequence on the screen as written spells it |
| LetterMatching.AsWrittenRepeatsNeverSpelled | app/letter-matching.tsx:21-31 | every word of the table that repeats a sound can never be answered on the screen as written, whatever the taps |
| LetterMatching.SoundEnabled | app/letter-matching.tsx:155-159 | the corrected guard: a sound is enabled while the feedback is hidden and it has been picked fewer times than the word holds it |
| LetterMatching.AsWrittenImpliesCorrected | app/letter-matching.tsx:159 | every sound the guard as written enables is also enabled by the corrected guard |
| LetterMatching.CorrectedGuardAdmitsTarget | app/letter-matching.tsx:155-159 | under the corrected guard, the next sound of the word in order is always enabled, so each word can be spelled |
| LetterMatching.CorrectedSelection | app/letter-matching.tsx:54-62 | the selection reached from the empty one by picks under the corrected guard and removals, as the class applies them; `CorrectedSelectionWithin` states its invariant |
| LetterMatching.CorrectedSelectionWithin | app/letter-matching.tsx:54-62 | every selection reachable under the corrected guard stays within the word's sounds, counted with multiplicity |
| LetterMatching.PicksInOrderSelectPrefix | app/letter-matching.tsx:54-58 | under the corrected guard, tapping the first k sounds of the word in order selects exactly those sounds |
| LetterMatching.CorrectedSpellsEveryWord | app/letter-matching.tsx:64-66 | under the corrected guard, tapping a word's sounds in order spells the word, so every word can be answered correctly |
| LetterMatching.CorrectedGuardKeepsSubMultiset | app/letter-matching.tsx:54-58 | under the corrected guard the selection stays within the word's sounds, counted with multiplicity, so it stays shorter than the word before each pick |
| LetterMatching.ResultBand | app/letter-matching.tsx:199-201 | the results message: perfect at 100%, "great job" from 70%, otherwise "keep learning"; `BandsForNineWords` and `BandMonotone` state its bands |
| LetterMatching.BandsForNineWords | app/letter-matching.tsx:199-201 | for nine words: 9 is perfect, 7 and 8 are "great job", 6 or less is "keep learning" (each both ways) |
| LetterMatching.BandMonotone | app/letter-matching.tsx:199-201 | a higher score never gets a lower band |
| LetterMatching.Game.constructor | app/letter-matching.tsx:35-50 | mounting shuffles the table into the words and starts at the first word with an empty selection, no score and hidden feedback |
| LetterMatching.Game.CurrentWord | app/letter-matching.tsx:52 | the word at the current index of the shuffled words |
| LetterMatching.Game.SelectSound | app/letter-matching.tsx:54-58 | an enabled sound is appended while the selection is shorter than the word, otherwise nothing changes; the selection never gets longer than the word |
| LetterMatching.Game.RemoveSound | app/letter-matching.tsx:60-62 | during a game, the selection loses exactly the element at the index |
| LetterMatching.Game.CheckAnswer | app/letter-matching.tsx:64-71 | right iff the joined selection equals the joined word; score grows by 1 iff right; feedback and the next button are shown |
| LetterMatching.Game.HandleNext | app/letter-matching.tsx:73-82 | before the last word: next index, cleared selection, hidden feedback and next button; on the last word: complete, with nothing else changed; the index stays within the words |
| LetterMatching.Game.ResetGame | app/letter-matching.tsx:84-92 | from the results card, a fresh shuffle of the table, the first word, an empty selection, not complete, score 0, hidden feedback |
| LetterMatching.GameWordsAreTheTable | app/letter-matching.tsx:47-50 | the words played are always a permutation of the table |
| LetterMatching.CompletedScoreBounded | app/letter-matching.tsx:196-201 | when the results show, the score is at most the number of words, nine |

## Left out

- Rendering, styles, animations, gradients, icons, navigation and audio buttons: they carry no logic.
- The alphabet screen's learn mode (`selectedLetter`, the letter grid): display state only, with no rule to prove.
- The learn/practice mode switch of both screens (`currentMode` at app/alphabet/index.tsx:348, `mode` at app/numbers.tsx:302). The mode chooses which handlers are rendered, and switching it resets nothing (app/numbers.tsx:285, app/numbers.tsx:293, app/alphabet/index.tsx:313, app/alphabet/index.tsx:331). The model has no mode, so every handler of a screen can run in either mode. For example, `Numbers.NumbersScreen.CheckMathAnswer` can run while learn mode would be shown.
- The 1500 ms `setTimeout` of the alphabet check: it is modelled as a separate `Advance` call. Timing, cancellation and unmount races are not modelled.
- A second check before `Advance` runs (possible from the keyboard's submit key) is allowed by `CheckAnswer`. It schedules a second callback, which captured the same current letter (app/alphabet/index.tsx:118-126). When it fires, it sets the same next letter again and clears the answer and feedback a second time, which can wipe an answer already typed for that letter. The model has no timer queue, so this case is not modelled.
- React state batching and stale closures (`setScore(score + 1)`): each handler is modelled as one atomic state change.
- `Math.random` is replaced by draw parameters with bound preconditions. A random-comparator `sort` is replaced by an index permutation. The model does not capture the sort's actual distribution.
- `toLowerCase` covers ASCII only. Every sound in the tables is ASCII, and non-ASCII answers are compared unchanged.
- `Text.Lower`: JavaScript lower-cases some non-ASCII characters to ASCII letters, for example U+212A KELVIN SIGN to "k". The source therefore accepts that sign as the answer for К, and the model rejects it.
- `parseInt` covers base 10 only, skipping ASCII white space. Radix prefixes, Unicode white space and values too large for a double are not modelled.
- `Number()` of a malformed range string: `PracticeLetters` requires a range that is "all" or `<digits>-<digits>`, the only kind the screen stores.
- The `0.7` floating-point comparison of the banding is written as the equivalent integer comparison `10 * score >= 7 * n`.
- The letter-matching first render, before the mount effect has shuffled the words, and the `WORDS[0]` fallback of `currentWord`: the model shuffles in the constructor, so the index is always within the words.
- `LetterMatching.Game.SelectSound` requires the corrected guard `SoundEnabled`, as the rest of the model uses the corrected behaviour. The class therefore admits a repeated pick, such as "a" twice on "майка", which the source's disabled button forbids. The screen as written is modelled on values by `AsWrittenSelection`, with `AsWrittenSelectionValid` and `AsWrittenMaykaNeverSpelled`. `AsWrittenImpliesCorrected` shows that every pick the source allows, the class allows too.
- The order of the available-sound buttons: only which sounds appear, and how often, is stated.
- The unused `COMPOUND_SOUNDS` map, the mis-encoded Cyrillic word literals, the example words, pronunciations and colours: none of them takes part in any rule.
- `app/index.tsx` and `app/_layout.tsx` are not part of this model.

## Findings

| source | as written | input that shows it | evidently intended | confidence | as-written member | corrected member |
|---|---|---|---|---|---|---|
| app/letter-matching.tsx:159 | a sound button is disabled once that sound is anywhere in the selection, so each sound can be picked at most once | the word "майка" (sounds m, a, y, k, a) needs "a" twice, and no selection the guard allows holds it twice; "чанта" and "цвете" also repeat a sound ("a" and "e") | a sound stays enabled until it has been picked as often as the word contains it | not executed | LetterMatching.AsWrittenRepeatsNeverSpelled | LetterMatching.CorrectedSpellsEveryWord |

`LetterMatching.SoundEnabledAsWritten` is the guard as written. `LetterMatching.AsWrittenRepeatedLetterNeverSpelled` proves that, over every sequence of picks and removals, it blocks a word that spells some letter twice where only that letter's own one-letter sound spells it. `LetterMatching.AsWrittenRepeatsNeverSpelled` applies this to the three words of the table that repeat a sound, "майка", "чанта" and "цвете". `LetterMatching.SoundEnabled` is the corrected guard, and `LetterMatching.Game.SelectSound` uses it. `LetterMatching.CorrectedSpellsEveryWord` proves that under it tapping a word's sounds in order spells the word.
