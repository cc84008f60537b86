# Bingo generator engine in Dafny

This project models the deterministic engine of `bingo-gen.js`, the
browser bingo card and call-list generator, and proves properties of it:

- **`SeededRandom`** is a Park–Miller "minimal standard" Lehmer generator.
  Its state is multiplied by 16807 modulo 2^31 − 1 on every draw. On top of
  the generator sit `randint`, an in-place Fisher–Yates `shuffle`, and
  `sampleRange`, which shuffles the whole range and keeps a prefix.
- **`BingoCard`** draws five columns B, I, N, G, O from one generator and
  makes the centre cell free. Its `getWinType` scans rows, then columns,
  then both diagonals, and reports the first complete line.
- **`CallList`** is the numbers 1..75 shuffled once. The letter rule
  announces each number with its column's letter.

Modules, in dependency order:

- `Lehmer`: the generator's arithmetic as functions of its state. This
  covers the truncated remainder of JavaScript's `%`, seed normalisation,
  one step, the value a draw returns, and `Math.floor(next() * n)` as an
  exact integer.
- `Shuffling`: pure specifications of `shuffle` (`ShuffleFrom`, `Shuffled`)
  and `sampleRange` (`Sample`). They are written as functions from a
  generator state to the state left behind and the list produced.
- `Rng`: the class `SeededRandom`. Its `seed` field is updated by every
  draw, and `Shuffle` works in place on an `array`. The constructor,
  `Next`, `NextScaled` and `RandInt` are proved against `Lehmer.Normalize`,
  `Step`, `Fraction` and `Index`. `Shuffle` and `SampleRange` are proved
  against `Shuffled` and `Sample` in `Shuffling`.
- `Layout`: the card as data, `data[column][row]`. It holds the free marker,
  the column ranges [15c + 1, 15c + 15] and the well-formedness predicate.
- `WinCheck`: `getWinType` as a function of the grid and the called numbers.
- `Calls`: the class `CallList` and the letter rule.
- `Cards`: the card a state generates, the class `BingoCard`, and the win
  boundaries along a call list.

Some behaviours of the code are worth stating outright:

- For seed 1 the first state is 16807, and `next()` returns
  (16807 − 1) / 2147483646 (`Lehmer.SeedOneFirstDraw`).
- `sampleRange` never fails when `count` exceeds the range size. It
  returns the whole shuffled range, and the draw count is the same
  whatever `count` is (`Shuffling.SampleFacts`).
- `checkWin` neither clamps nor validates `numbersCalled`. It takes
  `slice(0, numbersCalled)` of the call order with JavaScript's slice
  semantics: a negative end counts from the back, and an end past the
  length stops at the length (`Shuffling.SliceTo`).

## Model

| member | source | states |
|---|---|---|
| Lehmer.TruncRem | bingo-gen.js:4 | JavaScript's `%` by 2147483647: the result is strictly between −2147483647 and 2147483647 and has the dividend's sign |
| Lehmer.TruncRemIsRemainder | bingo-gen.js:4 | the truncated remainder differs from the dividend by a multiple of 2147483647 |
| Lehmer.Normalize | bingo-gen.js:3-6 | the normalised seed lies in [0, 2147483646], and it is a valid state (in [1, 2147483646]) exactly when the seed is not degenerate |
| Lehmer.NormalizeFacts | bingo-gen.js:3-6 | every seed ≥ 0 gives a valid state; a multiple of 2147483647 (0 included) gives 2147483646; a seed in (0, 2147483647) is kept; a negative seed gives its truncated remainder plus 2147483646 |
| Lehmer.SevenCancels | bingo-gen.js:9 | since 2147483647 ≡ 1 (mod 7), if 2147483647 divides 7t then it divides t; this is why 16807 = 7^5 never sends a valid state to 0 |
| Lehmer.Step | bingo-gen.js:9 | one multiplication step keeps the state in [1, 2147483646] |
| Lehmer.Fraction | bingo-gen.js:10 | the value `next()` returns from a valid state lies in [0, 1) |
| Lehmer.Index | bingo-gen.js:15-21 | `Math.floor(next() * n)` as an exact integer; no contract of its own, see Lehmer.IndexInRange and Lehmer.IndexIsFloor |
| Lehmer.IndexInRange | bingo-gen.js:15 | the scaled draw for n ≥ 1 lies in [0, n) |
| Lehmer.IndexIsFloor | bingo-gen.js:10 | the exact integer index equals the floor of the real value of `next()` times n |
| Lehmer.Iterate | bingo-gen.js:8-11 | k draws keep the state valid |
| Lehmer.IterateAdd | bingo-gen.js:8-11 | a draws followed by b draws are a + b draws, which is how draw counts add up across calls |
| Lehmer.SeedOneFirstDraw | bingo-gen.js:3-11 | seed 1 is kept as state 1, its first draw gives state 16807, and `next()` returns 16806 / 2147483646 |
| Shuffling.Swap | bingo-gen.js:22 | the destructuring swap exchanges positions i and j, leaves every other position alone, and preserves the multiset and distinctness |
| Shuffling.ShuffleFrom | bingo-gen.js:19-25 | the loop from index i down to 1 keeps the state valid and the length unchanged |
| Shuffling.ShuffleFromFacts | bingo-gen.js:19-25 | the loop from index i makes exactly max(i, 0) draws, preserves the multiset, and keeps distinct elements distinct |
| Shuffling.Shuffled | bingo-gen.js:19-25 | the whole `shuffle` loop, from the last index down; no contract of its own, see Shuffling.ShuffledIsPermutation |
| Shuffling.ShuffledIsPermutation | bingo-gen.js:19-25 | `shuffle` returns a permutation (same length, same multiset, same members both ways), makes exactly max(length − 1, 0) draws, and leaves lists of length 0 or 1 unchanged |
| Shuffling.Range | bingo-gen.js:29 | `Array.from({length: max - min + 1}, (_, i) => i + min)` has max(max − min + 1, 0) distinct elements, and x is a member exactly when min ≤ x ≤ max |
| Shuffling.SliceTo | bingo-gen.js:31 | `slice(0, end)` is a prefix of length min(end, length) for end ≥ 0, and of length max(length + end, 0) for negative end |
| Shuffling.SliceToGrows | bingo-gen.js:127 | for end ≥ 0, the prefix up to end is a prefix of the prefix up to end + 1 |
| Shuffling.Sample | bingo-gen.js:28-32 | `sampleRange` leaves a valid state behind |
| Shuffling.SampleFacts | bingo-gen.js:28-32 | `sampleRange` makes max − min draws whatever count is, and returns min(count, range size) distinct values (count ≥ 0), all in [min, max] |
| Rng.SeededRandom.constructor | bingo-gen.js:3-6 | the new generator's state is the normalised seed and is valid |
| Rng.SeededRandom.Next | bingo-gen.js:8-11 | `next()` advances the state by one step, keeps it valid, and returns a value in [0, 1) computed from the new state |
| Rng.SeededRandom.NextScaled | bingo-gen.js:21 | `Math.floor(this.next() * n)` is one draw and equals the exact index, which lies in [0, n) for n ≥ 1, so the swap partner of index i lies in [0, i] |
| Rng.SeededRandom.RandInt | bingo-gen.js:14-16 | `randint` is one draw and returns a value in [min, max] whenever min ≤ max |
| Rng.SeededRandom.Shuffle | bingo-gen.js:19-25 | the in-place shuffle leaves the state and array that `Shuffled` specifies: a permutation of the old contents after max(length − 1, 0) draws |
| Rng.SeededRandom.SampleRange | bingo-gen.js:28-32 | the method returns what `Sample` specifies: distinct values in [min, max], after max − min draws |
| WinCheck.LineCell | bingo-gen.js:142-196 | the k-th cell of each of the twelve scanned lines lies on the 5×5 grid |
| WinCheck.Marked | bingo-gen.js:147-148 | a cell counts as called when it is the centre (skipped by all four scans, also at lines 163-164, 177-178 and 190-191) or its number is among the called numbers; no contract of its own, see WinCheck.NothingCalledNoWin and Cards.AllCalledRowOne |
| WinCheck.LineComplete | bingo-gen.js:143-152 | the flag loop of one line (and the loops at lines 159-168, 173-182 and 186-195): every cell of the line is marked; no contract of its own, see WinCheck.FirstComplete and WinCheck.MoreCalledWinsEarlier |
| WinCheck.FirstComplete | bingo-gen.js:142-198 | the line returned is complete and no earlier line is; when none is returned, no line from `from` on is complete |
| WinCheck.Label | bingo-gen.js:153-196 | a win's place in the priority order is its line's scan position (rows 1–5, then columns B–O), except that both diagonals report the single label 'Diagonal' at position 10; column labels carry the column's letter |
| WinCheck.WinType | bingo-gen.js:138-199 | null when no numbers are called; otherwise null exactly when no line is complete, and else the label of a complete line before which no line is complete |
| WinCheck.RowOneFirst | bingo-gen.js:142-154 | a complete first row is reported as 'Row 1', whatever else is complete |
| WinCheck.NothingCalledNoWin | bingo-gen.js:138-199 | with an empty (non-null) list of called numbers no line is complete |
| WinCheck.MoreCalledWinsEarlier | bingo-gen.js:142-198 | calling more numbers keeps a win a win, and the reported win can only move earlier in the priority order |
| Calls.CallOrder | bingo-gen.js:215-216 | 1..75 shuffled once on a fresh generator; no contract of its own, see Calls.CallOrderIsPermutation |
| Calls.CallOrderIsPermutation | bingo-gen.js:215-216 | the call order holds each of 1..75 exactly once and takes exactly 74 draws |
| Calls.Letter | bingo-gen.js:230-234 | the letter of a number in [15c + 1, 15c + 15] is column c's letter; below 1 it is B and above 75 it is O |
| Calls.CallList.constructor | bingo-gen.js:204-217 | the list is the call order of the normalised seed, a permutation of 1..75, and leaves the generator 74 draws on |
| Cards.CardFrom | bingo-gen.js:48-57 | the five samples B, I, N, G, O on one generator with the centre of N made free; no contract of its own, see Cards.CardIsWellFormed |
| Cards.SampledColumn | bingo-gen.js:48-52 | a sample of five from column c's range is five distinct numbers of [15c + 1, 15c + 15] and takes 14 draws |
| Cards.ColumnsFormCard | bingo-gen.js:54-57 | five such columns, with the middle of N replaced by the free marker, form a well-formed card |
| Cards.CardIsWellFormed | bingo-gen.js:45-57 | every generated card is well formed (5×5, column c distinct numbers in [15c + 1, 15c + 15], only the centre free), and generation takes exactly 70 draws |
| Cards.CardFromColumns | bingo-gen.js:48-57 | proof helper for the BingoCard constructor: CardFrom unfolded for five given samples, with CardIsWellFormed's conclusions restated for it |
| Cards.BingoCard.constructor | bingo-gen.js:38-59 | the card holds the grid that the normalised seed generates; the grid is well formed; the generator is 70 draws on; no numbers are called yet |
| Cards.BingoCard.CheckWin | bingo-gen.js:126-128 | the called numbers are `slice(0, numbersCalled)` of the call order, and the win is `getWinType` of them; 0 calls give no win; all 75 calls give 'Row 1' on a well-formed card |
| Cards.AllCalledRowOne | bingo-gen.js:142-154 | when every number 1..75 is called, a well-formed card wins 'Row 1' |
| Cards.NoCallsNoWin | bingo-gen.js:127-139 | with `numbersCalled` 0 no card wins |
| Cards.FullCallListWinsRowOne | bingo-gen.js:127-154 | with 75 or more numbers of a full call order called, a well-formed card wins 'Row 1' |
| Cards.OneMoreCallKeepsWin | bingo-gen.js:127-198 | if a card wins after k calls it still wins after k + 1, with a win no later in the priority order |

## Left out

- The unseeded path (`Math.random()` for an absent or `'random'` seed) is nondeterministic. The constructors take an integer seed.
- Seed parsing (`parseInt` of form strings, `NaN` seeds) is JavaScript coercion, so the seed is an integer parameter. A `NaN` or non-numeric `numbersCalled` is left out for the same reason.
- Lehmer.Fraction, Lehmer.Index: double rounding is not modelled. `(seed - 1) / 2147483646` is an exact real, and `Math.floor(next() * n)` is the exact integer floor. Rare divergences from IEEE rounding are outside the model.
- Rng.SeededRandom.constructor: a seed whose truncated remainder is −2147483646 leaves state 0, which the generator never leaves. Such seeds are excluded by a precondition (`ValidSeed`) and not modelled further.
- Rng.SeededRandom.Shuffle: `shuffle` also returns the array it was given. The model only changes the array in place, because every caller ignores the return value.
- Calls.CallList.constructor: the default `numbersCalled = 75` is not modelled; the count is a parameter, and only `CallList.toString`, which is left out, reads it.
- Text and HTML rendering is presentation only: the card's `header`/`row`/`toString`, the highlighting, the win message built in `checkWin`, and the lines of `CallList.toString` apart from the letter rule.
- `generateCardSheet` is layout over unseeded cards.
- The DOM event handlers, `showResults` and `copyResults` are browser I/O.
- Cells of the grid are a datatype (`Number` or `Free`) rather than a mixed array of numbers and the string `'X'`. Values in a column cannot therefore be confused with the free marker.
