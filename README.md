# CompletaLaFrase: the fill-in-the-blank exercise engine

This project models the exercise engine of the "Completa la frase" screen of an
assisted-reading trainer, and proves properties of the model. A lesson has three parts:

- a sentence (`oracion`) in which `_` marks a blank;
- an answer key of the same shape (the lesson's `audio` string, read character by character);
- a designer letter list (`letrasDisponibles`) and a required letter list (`letrasCorrectas`).

The engine works in five steps:

1. It counts the required letters into a frequency map.
2. It pads the designer list into the pool of letters offered to the learner.
3. When the learner picks a letter, it finds every blank whose answer-key character is that letter.
4. It writes the letter into all those blanks at once, when the frequency map allows it.
5. It drops the letter from the pool under the code's own rule. Once no `_` is left, the forward button
   moves to the next lesson (rebuilding map, slots and pool), or, on the last lesson, sends the
   completion report.

Modules, one per part of `components/CompletaLaFrase/CompletaLaFrase.tsx`:

- `Letters` (letters.dfy): the JavaScript array operations the engine uses. These are
  `Array(n).fill`, `a[i] = v` (which grows a JavaScript array past its end) and `filter`.
- `Frequency` (frequency.dfy): `calculateLetterFrequency`. The map is a JavaScript object, so it keeps
  its keys in insertion order.
- `LetterPool` (pool.dfy): `generateAvailableLetters`.
- `Blanks` (blanks.dfy): `getAllPlaceholderIndices`.
- `Sentence` (sentence.dfy): `getUpdatedSentence` and the completion test of `isComplete`.
- `Lessons` (lessons.dfy): the lesson records and the selection of the "CP" exercises out of
  the fetched list.
- `Session` (session.dfy): the screen's state as the class `CompletaLaFrase`. Its fields are
  `lessons`, `currentLessonIndex`, `selectedLetters`, `availableLetters`, `letterFrequency`,
  the id of the exercise, and the completion reports issued. Its methods are the per-lesson reset
  effect, `handleLetterSelect`, `handleNextLesson` and the disabled-unless-complete forward button.
- `Scenario` (scenario.dfy): a client that plays the lesson `C_S_` / `CASA` through the class.

Each loop of the source (`forEach`, `for`) is a method with a `for` loop. Each method is proved
equal to a recursive specification function, and the properties are lemmas about those functions.

Modelling choices:

- The slots (`selectedLetters`) are a `seq<string>` indexed by sentence position, and `""` marks
  an empty slot. The array starts with one `""` per blank. Writing past its end grows it, and
  JavaScript fills the gap with holes. The model writes `""` for those holes. Every use the code
  makes of the array treats a hole as `""`. The one exception is counting the letter `""`, and
  that letter never matches a blank, so no state can tell the two apart.
- `oracion.split("_").length - 1` is modelled as the number of `_` characters
  (`Session.BlankCount`). This is the same number, because the separator is one character.
- The pool is not decremented once per filled slot, and placed letters plus offered letters are
  not conserved. The code removes every copy of the letter at once (line 182), and only when
  `currentCount + 1 === maxCount` (line 181). Because one pick fills every matching blank, a
  letter required twice stays on offer after filling both its blanks. `Scenario.CasaPickA`
  shows this.
- `isComplete` reads the render-local `sentenceActual`. The model instead states completion as a
  predicate of the current state (`CompletaLaFrase.IsComplete`), which is the value the button
  effect at lines 162-165 sees.

## Model

| member | source | states |
|---|---|---|
| `Letters.SetSlot` | components/CompletaLaFrase/CompletaLaFrase.tsx:175-178 | `a[i] = v` replaces element i; past the end the array grows to i + 1 with empty slots in the gap |
| `Letters.Repeat` | components/CompletaLaFrase/CompletaLaFrase.tsx:154 | `Array(n).fill(letter)` has length n and holds the letter at every position |
| `Letters.Without` | components/CompletaLaFrase/CompletaLaFrase.tsx:182 | the filter never lengthens the pool, and a letter remains in it exactly when it was there and is not one of the removed letters |
| `Letters.RepeatCount` | components/CompletaLaFrase/CompletaLaFrase.tsx:152-155 | `Array(n).fill(letter)` holds n copies of that letter and none of any other |
| `Letters.WithoutCount` | components/CompletaLaFrase/CompletaLaFrase.tsx:182 | filtering a letter out leaves no copy of it and every other letter's count unchanged |
| `Letters.WithoutAppend` | components/CompletaLaFrase/CompletaLaFrase.tsx:182 | filtering distributes over concatenation; the remaining letters keep their relative order |
| `Letters.WithoutWithout` | components/CompletaLaFrase/CompletaLaFrase.tsx:182 | filtering a letter out of an already filtered pool equals filtering both sets out of the original at once |
| `Letters.WithoutNothing` | components/CompletaLaFrase/CompletaLaFrase.tsx:159 | a pool from which nothing was removed is the pool as built |
| `Frequency.CalculateLetterFrequency` | components/CompletaLaFrase/CompletaLaFrase.tsx:131-137 | the loop builds the counter `LetterFrequency`; each letter's lookup equals its number of occurrences in the list (0 when absent) |
| `Frequency.FrequencyCounts` | components/CompletaLaFrase/CompletaLaFrase.tsx:131-137 | a letter is a key exactly when it occurs in the list, and its value is its number of occurrences |
| `Frequency.FrequencyWellFormed` | components/CompletaLaFrase/CompletaLaFrase.tsx:132-135 | the insertion-ordered key list has no repeats and lists exactly the object's keys |
| `Frequency.SumCountsChange` | components/CompletaLaFrase/CompletaLaFrase.tsx:134 | raising one letter's count changes the sum over a duplicate-free key list by that amount, if the letter is listed, and not otherwise |
| `Frequency.FrequencySum` | components/CompletaLaFrase/CompletaLaFrase.tsx:131-137 | the counts add up to the length of `letrasCorrectas` |
| `LetterPool.GenerateAvailableLetters` | components/CompletaLaFrase/CompletaLaFrase.tsx:139-160 | the loop builds `PaddedPool`; the designer list is an unchanged prefix of the pool, and every appended letter is a key of the map |
| `LetterPool.PadFromPrefix` | components/CompletaLaFrase/CompletaLaFrase.tsx:142-157 | padding only appends: the starting list is an untouched prefix, and every appended element is one of the walked keys |
| `LetterPool.PadFromCount` | components/CompletaLaFrase/CompletaLaFrase.tsx:146-157 | over distinct keys, each key ends with max(count already in the list, required count), and every other letter keeps its count |
| `LetterPool.PoolForLesson` | components/CompletaLaFrase/CompletaLaFrase.tsx:68-74 | for a lesson, the pool starts with `letrasDisponibles` unchanged, appends only required letters, and holds each letter max(designer count, required count) times |
| `LetterPool.PoolSufficient` | components/CompletaLaFrase/CompletaLaFrase.tsx:146-156 | every required letter is in the pool at least as often as it is required |
| `Blanks.GetAllPlaceholderIndices` | components/CompletaLaFrase/CompletaLaFrase.tsx:201-213 | the result is strictly ascending and holds exactly the positions that are a blank and whose answer-key character equals the letter |
| `Blanks.IndicesBelowSpec` | components/CompletaLaFrase/CompletaLaFrase.tsx:204-211 | after scanning the first n positions, the collected indices are ascending and are exactly the qualifying positions below n |
| `Blanks.PlaceholderIndicesSpec` | components/CompletaLaFrase/CompletaLaFrase.tsx:201-213 | the matched positions are ascending and exact, and the result is empty exactly when no position qualifies |
| `Sentence.Chars` | components/CompletaLaFrase/CompletaLaFrase.tsx:231 | `split("")` gives one one-character string per character of the sentence, in order |
| `Sentence.JoinContains` | components/CompletaLaFrase/CompletaLaFrase.tsx:238 | a character occurs in the joined sentence exactly when it occurs in one of its parts |
| `Sentence.GetUpdatedSentence` | components/CompletaLaFrase/CompletaLaFrase.tsx:230-241 | the loop builds the joined overlay `Join(Overlay(oracion, slots))` of the placed letters on the sentence's characters |
| `Sentence.OverlayFirstAt` | components/CompletaLaFrase/CompletaLaFrase.tsx:231-236 | with no more slots than characters, the overlay has the sentence's length and shows slot k when it is filled and the sentence's character otherwise |
| `Sentence.JoinSingles` | components/CompletaLaFrase/CompletaLaFrase.tsx:238 | joining one-character parts gives a string with one character per part, in order |
| `Sentence.ShownSentence` | components/CompletaLaFrase/CompletaLaFrase.tsx:230-241 | under the slot invariant, the shown sentence has the sentence's length and shows the answer-key letter at each filled blank and the original character elsewhere |
| `Sentence.CompleteIff` | components/CompletaLaFrase/CompletaLaFrase.tsx:197-199 | the shown sentence has no `_` exactly when every blank holds a placed letter other than `_` |
| `Lessons.CPLessonsAppend` | components/CompletaLaFrase/CompletaLaFrase.tsx:102-112 | the selected lessons of a concatenated list are the concatenation of the selected lessons of its parts |
| `Lessons.CPLessonsMember` | components/CompletaLaFrase/CompletaLaFrase.tsx:102-112 | a lesson is selected exactly when it belongs to the `Ejercicios` of some entry of type "CP" |
| `Lessons.LastCPNone` | components/CompletaLaFrase/CompletaLaFrase.tsx:104-111 | the flatMap callback leaves no exercise id behind exactly when no entry is "CP" |
| `Lessons.LastCPSome` | components/CompletaLaFrase/CompletaLaFrase.tsx:104-111 | the exercise id left behind is that of a "CP" entry after which no entry is "CP" |
| `Lessons.LastCPOfLessons` | components/CompletaLaFrase/CompletaLaFrase.tsx:108-115 | when at least one lesson is selected, a "CP" entry exists to supply the exercise id |
| `Session.PlaceLetter` | components/CompletaLaFrase/CompletaLaFrase.tsx:175-178 | the write loop over a copy of the slots is proved equal to `PlaceAll`; `PlaceAllAt` gives its meaning |
| `Session.PlaceAllAt` | components/CompletaLaFrase/CompletaLaFrase.tsx:175-178 | after the placing loop, every target position holds the letter, the other slots keep their value, new slots in the gap are empty, and the array grows only up to the last target |
| `Session.PlaceMatchesKeepsFit` | components/CompletaLaFrase/CompletaLaFrase.tsx:172-179 | placing a letter at its matching blanks keeps every filled slot on a blank with its answer-key letter, and never clears or changes a filled slot |
| `Session.SelectionKeepsComplete` | components/CompletaLaFrase/CompletaLaFrase.tsx:175-179 | once the sentence is complete, placing any letter at its matching blanks keeps it complete |
| `Session.BlankCountBound` | components/CompletaLaFrase/CompletaLaFrase.tsx:70-72 | the number of slots the reset creates is at most the sentence's length |
| `Session.EmptySlotsFit` | components/CompletaLaFrase/CompletaLaFrase.tsx:70-72 | the reset's all-empty slot array satisfies the slot invariant |
| `Session.CompletaLaFrase.constructor` | components/CompletaLaFrase/CompletaLaFrase.tsx:102-116 | the session starts at lesson 0 of the flattened "CP" lessons, with the last "CP" exercise's id, no report, and the first lesson freshly set up |
| `Session.CompletaLaFrase.StartLesson` | components/CompletaLaFrase/CompletaLaFrase.tsx:65-76 | the reset leaves one empty slot per blank, the current lesson's frequency map and its full padded pool, and changes nothing else |
| `Session.CompletaLaFrase.UpdatedSentence` | components/CompletaLaFrase/CompletaLaFrase.tsx:230-241 | the shown sentence has the lesson's length, shows the answer-key letter at each filled blank and the sentence's character elsewhere, and has no `_` exactly when the session is complete |
| `Session.CompletaLaFrase.HandleLetterSelect` | components/CompletaLaFrase/CompletaLaFrase.tsx:167-195 | a letter already placed as often as the map allows, or one with no matching blank, changes nothing; otherwise it is written into every matching blank at once, and all its copies leave the pool exactly when `currentCount + 1 == maxCount`; the index, map and reports are unchanged; the invariant is kept (completion is never lost: `SelectionKeepsComplete`) |
| `Session.CompletaLaFrase.HandleNextLesson` | components/CompletaLaFrase/CompletaLaFrase.tsx:215-228 | before the last lesson, the index grows by exactly one and the new lesson is freshly set up with no report; on the last lesson, the index and exercise state stay, exactly one report `{idEjercicio, completado: true, puntuacion: 10}` is appended, and the screen leaves for the completion screen |
| `Session.CompletaLaFrase.PressNext` | components/CompletaLaFrase/CompletaLaFrase.tsx:378-382 | while the sentence is incomplete the disabled button changes nothing; when complete it acts as `handleNextLesson`; the index never decreases |
| `Scenario.CasaStart` | components/CompletaLaFrase/CompletaLaFrase.tsx:65-76 | the lesson `C_S_` / `CASA` with designer letters A, S, X and required letters A, A starts with two empty slots and the pool A, S, X, A |
| `Scenario.CasaPickA` | components/CompletaLaFrase/CompletaLaFrase.tsx:167-183 | one pick of A fills both blanks and completes the sentence, and A stays in the pool because the placed count jumps from 0 to 2 |
| `Scenario.CasaPickAAgain` | components/CompletaLaFrase/CompletaLaFrase.tsx:168-171 | a second pick of A is rejected and changes nothing |

## Left out

- Fetching the lessons (lines 83-127) and the bearer token are left out, because they are network and storage calls.
  The model starts from the already parsed exercise list. A failed fetch is not modelled.
- What `completarEjercicio` sends (lines 253-284) is reduced to one appended `Report` record per call, because the
  call itself is network I/O. The username read from storage, the token check and the POST itself are left out, and its
  failure is not modelled.
- An empty lesson list: the constructor requires at least one selected lesson. With none,
  the source leaves `lessons` empty and the screen throws when it renders `lessons[0].oracion`.
- A lesson without an `audio` string makes `getAllPlaceholderIndices` throw. The model's `Lesson` always
  carries a string.
- Audio playback is left out (`handleStartReading`, `detenerAudio`, `goBack`, the mount effect at lines
  60-63, and the `audios` URL list), because these are foreign media calls. The same goes for `Speech.speak`,
  `Speech.stop` and `Vibration.vibrate`.
- The render-local `sentenceActual` read by `isComplete` inside `handleLetterSelect` (line 190) is
  left out, because it only decides whether the "Correcto" message is spoken.
- Rendering, navigation other than the completion flag, and styles (lines 296-549) are left out.
- React's asynchronous state updates are left out. Each handler is one atomic step, and the reset effect that follows an index
  change runs inside `HandleNextLesson`.
- JavaScript key ordering: `Object.keys` lists integer-like keys (such as "1") first, in
  ascending order. The model uses plain insertion order. This changes only the order of the appended
  letters, not the pool's prefix or counts.
- A letter that names an inherited property of a plain object (such as "constructor")
  makes `letterMap[letter]` return a function. The model treats every letter as an ordinary key.
- `split("")` works on UTF-16 code units. The model works on Dafny characters.
- The `sound` state and the other components are outside this model: the narrated reading lessons
  (`app/Dislexia/[id].tsx`), the login screen, the completion screen and the route wrappers.
- The code does no validation of lesson data at load time, so neither does the model.
