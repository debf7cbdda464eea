# aoc2024, days 1 to 6, in Dafny

A model of the six Advent of Code 2024 solvers of the `aoc2024` crate
(`src/day1.rs` to `src/day6.rs`), with proofs of what each solver computes.
Every solver takes the puzzle text and returns one number.

- `text.dfy` (module `Text`) holds the parts of Rust's string library the
  solvers use, written as functions on sequences: `str::lines`,
  `str::split`, `str::split_once`, `split_whitespace` /
  `split_ascii_whitespace`, `position`, and the integer tokens that
  `str::parse` accepts. Each comes with the round trip that fixes its
  meaning.
- `day1.dfy`: the two location lists. `Part1` is a method with the `push`
  loop of the source. It is proved to compute `Distance`, the summed
  distance of the sorted columns. `Distance` is zero exactly when both
  columns hold the same multiset. It is symmetric in the columns and does
  not depend on the order of the lines.
- `day2.dfy`: report safety, pure. The source's verdict
  (sorted either way, gaps 1..=3) is proved equal to "climbs or falls by 1
  to 3 at every step". It is proved unchanged by reversal and true for
  short reports. The count is at most the number of lines.
- `day3.dfy`: the `read_memory` byte scanner, imperative. The class
  `Memory` holds the two 3-slot digit arrays and the scalar locals.
  `Memory.Feed` is the loop body, proved to follow the pure step function
  `Step`. `ReadMemory` is the loop, proved to compute `Run`.
  - The invariant `Inv` is kept by every step. It says both lengths stay
    within 0..=3 and a `)` after a `y` digit always has an `x` digit, so
    the panic arms cannot be reached.
  - Reading `mul(X,Y)` with operands below 1000, outside a parse, adds
    X*Y (nothing under `do_do` while disabled).
  - Part 2 never exceeds part 1.
  - `don't` clears the enable flag, and `do` followed by anything but `n`
    sets it.
  - `day3_samples.dfy` follows the scanner through the two sample inputs
    of the tests and proves the results 161 and 48, and shows that
    `mul(1,2,3)` adds 23.
- `day4.dfy`: the word search. The class `DirectionalChars` is the cursor,
  and its `Next` is proved to follow the pure `Advance`.
  - The cursor has closed forms for its position and its items, and the
    overflow flag sticks.
  - The `take(4)` word spells "XMAS" exactly when the four bytes along
    the straight line do.
  - Each cell scores the number of such lines, at most 8, and only an
    'X' scores.
  - `day4_samples.dfy` counts the lines cell by cell in the sample grid
    of the tests and proves the answer 18.
- `day5.dfy`: page-ordering rules, pure.
  - `Parse` reads back what `Format` writes.
  - `CheckRule` returns `None` exactly when a page is missing; otherwise
    it compares first positions.
  - A rule that does not apply never rejects an update. With
    non-negative pages, an extra rule never raises the answer.
  - `day5_samples.dfy` takes the rules and updates of the test input and
    proves the answer 143: each update gets its verdict against the 21
    rules.
- `day6.dfy`: the patrol. The class `Traverser` holds the walker's fields.
  `Progress`, `TurnWhileBlocked` and `Next` are proved to follow the pure
  `ProgressOf`, `TurnLoop` and `NextOf`. `Collect` drives `next` and is
  proved to compute `Walk`.
  - Every item yielded lies inside the buffer and is never a '#'.
  - The walk starts on the '^'.
  - The count of distinct indices is at most the number of items and
    at most the size of the map.
  - `day6_samples.dfy` follows the walk over the sample map of the tests
    one `next` call at a time and proves the answer 41.

Inputs are taken as `string` (days 1, 2 and 5) or as bytes (days 3, 4
and 6), as each source file reads them. Integers are unbounded.

## Model

| member | source | states |
|---|---|---|
| Text.IndexOf | src/day6.rs:48 | the index of the first occurrence, or the length when there is none; nothing before it matches |
| Text.Lines | src/day1.rs:5 | no line holds a '\n', and there are at most as many lines as characters |
| Text.LinesUnlines | src/day1.rs:5 | `lines` gives back every list of lines without '\n' or a final '\r' that was written one per line |
| Text.LinesUnlinesCRLF | src/day1.rs:5 | `lines` also gives back such a list written with "\r\n" line endings |
| Text.LinesFinalNewline | src/day5.rs:21 | a final '\n' adds no empty line |
| Text.LastLine | src/day5.rs:21 | a text without '\n' is one line, with or without a final '\n' |
| Text.IndexOfAfterPrefix | src/day5.rs:22 | the first occurrence lies after a prefix that does not contain the element |
| Text.Split | src/day5.rs:37 | `split` yields at least one piece and no piece holds the separator |
| Text.SplitJoin | src/day5.rs:37 | splitting pieces joined by a separator they lack gives the pieces back |
| Text.JoinSplit | src/day5.rs:37 | joining the pieces of a split gives the text back |
| Text.SplitOnce | src/day5.rs:24 | `None` exactly when the separator is missing; otherwise the two halves around its first occurrence |
| Text.SplitOnceJoin | src/day5.rs:24 | `split_once` on `a + sep + b` with `sep` not in `a` returns `(a, b)` |
| Text.Words | src/day1.rs:6 | every word is non-empty and holds no separator character |
| Text.WordsUnwords | src/day2.rs:7 | splitting words joined by spaces gives the words back |
| Text.WordsSkipsSpaces | src/day2.rs:7 | leading separators do not change the words |
| Text.ParseNatToString | src/day2.rs:8 | the decimal spelling of every `n` is a `usize` token that parses back to `n` |
| Text.ParseIntToString | src/day1.rs:7 | the decimal spelling of every integer is a signed token that parses back to it |
| Day1.Column | src/day1.rs:5-9 | one entry per line, in line order, each the line's left (or right) number |
| Day1.Insert | src/day1.rs:10-11 | inserting into an ascending list keeps it ascending and adds exactly that element |
| Day1.Sort | src/day1.rs:10-11 | an ascending permutation of the input |
| Day1.SortedUnique | src/day1.rs:10-11 | two ascending lists with the same multiset are equal, so any sort gives the same columns |
| Day1.SumAbsDiff | src/day1.rs:12 | the zipped sum of absolute differences is non-negative and zero exactly when the lists are equal |
| Day1.SumAbsDiffSymmetric | src/day1.rs:12 | swapping the two lists leaves the sum unchanged |
| Day1.Distance | src/day1.rs:10-12 | the summed distance of the sorted columns is non-negative |
| Day1.Part1 | src/day1.rs:2-13 | the push loop builds both columns of the lines, and the result is `Distance` of those columns |
| Day1.ColumnSnoc | src/day1.rs:5-8 | one more line pushes one more entry at the end of each column |
| Day1.ZeroIffSameMultiset | src/day1.rs:10-12 | the answer is zero exactly when the two columns hold the same numbers, each as often |
| Day1.SwapColumns | src/day1.rs:10-12 | swapping the left and right columns leaves the answer unchanged |
| Day1.ColumnPermutation | src/day1.rs:5-9 | lines that are a permutation of each other give columns that are |
| Day1.ReorderLines | src/day1.rs:2-13 | reordering the input lines leaves the answer unchanged |
| Day2.IsSafe | src/day2.rs:13-19 | a safe report never has two equal neighbours, although `is_sorted` alone allows them |
| Day2.Reverse | src/day2.rs:13 | element `i` of the reversal is element `n-1-i` of the report |
| Day2.SortedReverse | src/day2.rs:13 | the reversed report is sorted exactly when the report is non-increasing |
| Day2.SafeIffSteps | src/day2.rs:13-19 | a report counts exactly when every step climbs by 1 to 3, or every step falls by 1 to 3 |
| Day2.ShortReportIsSafe | src/day2.rs:13-19 | a report of zero or one number always counts |
| Day2.ReverseReverse | src/day2.rs:13 | reversing twice gives the report back |
| Day2.UpReversed | src/day2.rs:13-19 | a report that climbs by 1 to 3 falls by 1 to 3 when reversed |
| Day2.DownReversed | src/day2.rs:13-19 | a report that falls by 1 to 3 climbs by 1 to 3 when reversed |
| Day2.SafeReversed | src/day2.rs:13-19 | reading a report backwards gives the same verdict |
| Day2.ParseAll | src/day2.rs:9-11 | one number per token, each the token's value |
| Day2.CountSafe | src/day2.rs:3-21 | the count is the number of lines whose report is safe, and at most the number of lines |
| Day2.Part1 | src/day2.rs:1-22 | the number of safe lines of the input, at most the number of lines |
| Day3.ParseDigit | src/day3.rs:2-13 | accepts exactly a digit with room left; then stores `byte - '0'` at the old length and adds one; otherwise changes nothing |
| Day3.ParseDigitInto | src/day3.rs:2-13 | the in-place write on the array does what `ParseDigit` says |
| Day3.OperandIsDecimal | src/day3.rs:35-54 | each arm of the length match is the decimal value of the first `len` stored digits |
| Day3.ReadOperand | src/day3.rs:35-54 | reading the array with length 1, 2 or 3 gives the operand; the panic arm is unreachable |
| Day3.Step | src/day3.rs:29-140 | keeps `Inv` (lengths within 0..=3, an `x` digit before any `y` digit); a ')' with a `y` digit buffered adds `Operand(x)*Operand(y)` (0 when disabled under `do_do`) and resets; a parse starts only on 'm' with empty buffers; the flag is cleared only by "don't" |
| Day3.ParsingStep | src/day3.rs:30-95 | inside a parse the step keeps `Inv`, adds only on a completing ')', continues only on bytes of `mul(X,Y)`, and leaves the flags alone |
| Day3.Complete | src/day3.rs:31-70 | a ')' with a `y` digit adds the `if`'s amount for the two operands and clears both lengths, `found_comma` and `prev`; any other byte changes nothing; the parse flag, enable flags and digit slots never change |
| Day3.Recognise | src/day3.rs:72-95 | the parse goes on only on a digit, ',', 'u', 'l' or '('; the sum, the enable flags and `prev` are left alone |
| Day3.TrackDos | src/day3.rs:97-131 | only the two enable flags change; `mul_enabled` changes only after "do", "don" or "don'" while a word is read, is cleared only by the 't' of "don't", and after 'd' a word starts exactly on 'o' |
| Day3.RecogniseStep | src/day3.rs:72-95 | the `match prev` keeps `Inv`, leaves the sum and flags alone, and always stops after ')' |
| Day3.IdleStep | src/day3.rs:96-135 | outside a parse the step keeps `Inv` and the sum; the flag changes only after "do", "don" or "don'" |
| Day3.RunFrom | src/day3.rs:29-141 | folding the step over the bytes keeps `Inv` and never lowers the sum |
| Day3.Run | src/day3.rs:16-143 | the state after the whole input satisfies `Inv` |
| Day3.RunFromSnoc | src/day3.rs:29-141 | one more byte is one more step at the end |
| Day3.RunFromAppend | src/day3.rs:29-141 | scanning two pieces in turn is scanning their concatenation |
| Day3.SumNeverDecreases | src/day3.rs:55-61 | the sum after a prefix is at most the sum after the whole input |
| Day3.DecimalOfStored | src/day3.rs:2-13 | the values `parse_digit` stores for the digits of a spelling read back, most significant first, as the spelled number |
| Day3.ShortSpelling | src/day3.rs:35-54 | a number below 1000 is spelled with one to three digits, so it fits in a 3-slot buffer |
| Day3.WrittenPrefix | src/day3.rs:2-13 | storing digits one slot at a time from `len` on leaves the earlier slots and puts the stored values after them |
| Day3.StepXDigit | src/day3.rs:76-85 | a digit after '(' or after an `x` digit, with room left, is stored in `x` and nothing else changes but `prev` |
| Day3.StepYDigit | src/day3.rs:80-92 | a digit after ',' or after a `y` digit, with room left, is stored in `y` and nothing else changes but `prev` |
| Day3.StepComma | src/day3.rs:80-88 | a ',' after an `x` digit keeps the parse going and changes only `prev` |
| Day3.StepSecondComma | src/day3.rs:80-88 | a ',' after a `y` digit also keeps the parse going and changes only `prev`, so later digits are appended to `y` |
| Day3.StepClose | src/day3.rs:31-71 | a ')' with a `y` digit buffered adds `Added` of the two operands and resets the parse |
| Day3.ReadXDigits | src/day3.rs:76-88 | a run of digits after '(' fills `x` with their values, from the current length on |
| Day3.ReadYDigits | src/day3.rs:80-92 | a run of digits after ',' fills `y` with their values, from the current length on |
| Day3.ReadMulPrefix | src/day3.rs:72-79 | "mul(" outside a parse starts one with both lengths 0 and `prev` = '(' |
| Day3.ReadMulOpen | src/day3.rs:29-95 | outside a parse, `mul(X,` with X below 1000 leaves X's digits in `x`, reading back as X, and the parse waiting for Y |
| Day3.ReadMulOperands | src/day3.rs:29-95 | then Y's digits, with Y below 1000, are left in `y`, reading back as Y |
| Day3.ReadMul | src/day3.rs:29-95 | outside a parse, `mul(X,Y)` with X and Y below 1000 adds X*Y (0 under `do_do` while disabled), as the 'm' leaves the flag, and resets the parse |
| Day3.Memory.constructor | src/day3.rs:17-27 | zeroed buffers, lengths 0, not parsing, multiplication enabled |
| Day3.Memory.CompleteMul | src/day3.rs:31-71 | on a ')' with a `y` digit adds the product as the three-way `if` has it and resets; otherwise changes nothing |
| Day3.Memory.RecogniseByte | src/day3.rs:72-95 | updates the flags and the digit arrays as the `match prev` does |
| Day3.Memory.TrackDosByte | src/day3.rs:97-134 | follows "do" / "don't", starts a parse on 'm' and zeroes both lengths |
| Day3.Memory.Feed | src/day3.rs:30-140 | one pass of the closure over the arrays and locals is `Step` on their contents |
| Day3.ReadMemory | src/day3.rs:16-143 | the loop over the input returns the sum of `Run` |
| Day3.Part1 | src/day3.rs:145-148 | the sum of `Run` without `do_do` |
| Day3.Part2 | src/day3.rs:150-153 | the sum of `Run` with `do_do` |
| Day3.CompleteDoDo | src/day3.rs:55-61 | a completion under `do_do` adds at most what it adds without |
| Day3.RecogniseSameButSum | src/day3.rs:72-95 | the recogniser does not look at the sum |
| Day3.TrackDosSameButSum | src/day3.rs:97-131 | the do/don't tracking does not look at the sum |
| Day3.StepDoDo | src/day3.rs:29-140 | one step with and without `do_do` keeps two states that differ only in the sum, and adds no more with it |
| Day3.RunDoDo | src/day3.rs:29-141 | the same over any run of bytes |
| Day3.Part2AtMostPart1 | src/day3.rs:145-153 | part 2 never exceeds part 1, and the scanners agree on everything but the sum |
| Day3.Part1IgnoresEnable | src/day3.rs:55-61 | without `do_do` a completed `mul(x,y)` adds x*y whatever the enable flag says |
| Day3.IdleStepIs | src/day3.rs:96-135 | outside a parse a step is the do/don't tracking alone |
| Day3.ReadD | src/day3.rs:96-135 | a 'd' ends any parse and is remembered as `prev` |
| Day3.ReadDo | src/day3.rs:98-105 | after "do", from any state, the scanner is reading a marker |
| Day3.ReadDon | src/day3.rs:106-111 | after "don", from any state, the scanner is still reading a marker |
| Day3.ReadDonQuote | src/day3.rs:112-117 | after "don'", from any state, the scanner is still reading a marker |
| Day3.DontDisables | src/day3.rs:118-128 | "don't" clears the enable flag, from any state |
| Day3.DoEnables | src/day3.rs:106-111 | "do" followed by anything but 'n' sets the enable flag |
| Day3.DonEnables | src/day3.rs:112-117 | "don" followed by anything but '\'' sets the enable flag |
| Day3.DonQuoteEnables | src/day3.rs:118-128 | "don'" followed by anything but 't' sets the enable flag |
| Day3Samples.SamplePart1 | src/day3.rs:169-172 | the first sample input gives 161 for part 1 |
| Day3Samples.SampleTwoPart2 | src/day3.rs:179-182 | the second sample input gives 48 for part 2 |
| Day3Samples.ExtraComma | src/day3.rs:80-92 | `mul(1,2,3)` adds 23, with or without `do_do`: the second ',' keeps the parse and the 3 joins the 2 in `y` |
| Day4.Ordinal | src/day4.rs:7-17 | each direction's place in the declaration order |
| Day4.DirectionsListed | src/day4.rs:7-17 | the iteration visits each of the eight directions exactly once |
| Day4.LineLen | src/day4.rs:65 | the stride is the position of the first '\n' plus one |
| Day4.MovementVec | src/day4.rs:66-75 | the table moves at most one column, and up, down or not by one stride; the column stays exactly for Up and Down, and the row stays exactly for Left and Right |
| Day4.StepInGrid | src/day4.rs:66-75 | a step moves one row and one column in the compass direction; each diagonal is the sum of its two parts |
| Day4.OppositeStep | src/day4.rs:66-75 | opposite directions step by opposite amounts |
| Day4.Get | src/day4.rs:43 | `get` is the byte there inside the buffer and `None` past its end |
| Day4.Advance | src/day4.rs:39-60 | once overflowed, `None` and no change; otherwise yields `get(current_index)` and moves by the delta, or sets the flag and stays when that goes below 0 |
| Day4.AfterClosedForm | src/day4.rs:43-53 | before any underflow, after `k` calls the cursor sits at `i + k*delta` |
| Day4.AfterLast | src/day4.rs:39-60 | `k+1` calls are `k` calls and one more |
| Day4.ItemClosedForm | src/day4.rs:43-53 | before any underflow, the `k`-th item from `i` is `get(i + k*delta)` |
| Day4.OverflowSticky | src/day4.rs:40-42 | once `has_overflowed` is set, every later call yields `None` |
| Day4.UnderflowYieldsLast | src/day4.rs:43-58 | an underflowing step still yields the current byte, and the next call yields `None` |
| Day4.DirectionalChars.constructor | src/day4.rs:64-82 | the cursor starts at `i`, not overflowed, with the table's movement vector for the stride |
| Day4.DirectionalChars.Next | src/day4.rs:39-60 | the new fields and the item are what `Advance` says |
| Day4.Word | src/day4.rs:93-97 | `take(n)` yields at most `n` bytes |
| Day4.TakeWord | src/day4.rs:93-97 | calling `next` up to `n` times collects `Word` of the cursor's starting state and leaves the cursor in `WordEnd` of it |
| Day4.WordEnd | src/day4.rs:93-97 | an overflowed cursor stays where it is through `take(n)` |
| Day4.WordEndAfter | src/day4.rs:93-97 | `take(n)` makes one more `next` call than the bytes it yields when it stops early, and exactly `n` calls otherwise |
| Day4.WordIsXmas | src/day4.rs:93-98 | the word is "XMAS" exactly when the four bytes along the straight line are 'X', 'M', 'A', 'S' |
| Day4.WordFrom | src/day4.rs:93-97 | `direction_iter(i, d).take(4)` gives `Word` from `i` with the direction's step |
| Day4.CountHits | src/day4.rs:91-100 | at most one hit per direction tried |
| Day4.CellScore | src/day4.rs:89-103 | a cell scores at most 8, and only an 'X' scores |
| Day4.Score | src/day4.rs:86-106 | the cells scanned so far score at most 8 per 'X' among them |
| Day4.Part1 | src/day4.rs:85-106 | the answer is at most 8 per 'X' in the input |
| Day4.HitsAreLines | src/day4.rs:91-100 | the directions whose word matches are the directions with a straight "XMAS" |
| Day4.NonXHasNoLines | src/day4.rs:90-103 | a cell that is not 'X' starts no straight "XMAS" |
| Day4.CellScoreCountsLines | src/day4.rs:89-104 | each cell scores the number of directions in which a straight "XMAS" starts there |
| Day4.ScoreCountsLines | src/day4.rs:86-106 | the cells scanned so far score the straight "XMAS" lines that start among them, one per start cell and direction |
| Day4.Part1CountsLines | src/day4.rs:85-106 | the answer is the number of (cell, direction) pairs along which the grid reads "XMAS" |
| Day4Samples.SamplePart1 | src/day4.rs:111-131 | the sample grid of the tests gives 18 |
| Day5.ParseInts | src/day5.rs:36-39 | one number per token, each the token's value |
| Day5.ParseRules | src/day5.rs:23-30 | one rule per line, each the line split at the bar character |
| Day5.ParseUpdates | src/day5.rs:35-41 | one update per line, each the line split at ',' |
| Day5.RuleCount | src/day5.rs:22 | the number of lines before the first empty line; the line after them is empty |
| Day5.ParseLines | src/day5.rs:19-43 | the rules are the lines before the first empty line, the updates every line after it |
| Day5.RuleLineRoundTrip | src/day5.rs:24-28 | a written rule line parses back to the rule |
| Day5.UpdateLineRoundTrip | src/day5.rs:36-39 | a written update line parses back to the update |
| Day5.ParseSections | src/day5.rs:19-43 | rule lines, an empty line and update lines parse to those rules and updates |
| Day5.Parse | src/day5.rs:18-43 | on the lines of the input, one rule per line before the first empty line and one update per line after it |
| Day5.ParseFormat | src/day5.rs:19-43 | `parse` reads back every input that `Format` writes |
| Day5.CheckRule | src/day5.rs:47-52 | `None` exactly when a page is missing; otherwise whether the first `before` is ahead of the first `after` |
| Day5.CheckRuleAhead | src/day5.rs:47-52 | where both pages occur, the rule holds exactly when `before` occurs ahead of the first `after` |
| Day5.AllRulesHold | src/day5.rs:60-63 | valid exactly when no rule returns `Some(false)` |
| Day5.InapplicableRule | src/day5.rs:63 | a rule that does not apply never changes the verdict, wherever it stands |
| Day5.MoreRulesFewerValid | src/day5.rs:59-64 | an extra rule can only reject updates |
| Day5.MiddleIsCentral | src/day5.rs:66-70 | the page at `len/2` has as many pages before it as after, or one more before |
| Day5.Middle | src/day5.rs:65-71 | `get(len/2)` is one of the pages, or 0 for an update without pages |
| Day5.SumValidMiddles | src/day5.rs:56-72 | the filtered sum is 0 when no update is valid, and never negative when no page is |
| Day5.SumValidMiddlesIsPipeline | src/day5.rs:56-72 | the one-pass sum equals filtering the valid updates, taking their middle pages, and summing those |
| Day5.Part1 | src/day5.rs:54-73 | the answer is the sum of the middle pages of exactly the updates every rule admits |
| Day5.SumAppend | src/day5.rs:56-72 | the answer over two lists of updates is the sum of the answers |
| Day5.MoreRulesSmallerSum | src/day5.rs:56-72 | with non-negative pages an extra rule never raises the answer |
| Day5Samples.Verdict0 | src/day5.rs:107 | the first sample update keeps every sample rule that applies to it |
| Day5Samples.Verdict1 | src/day5.rs:108 | the second sample update keeps every sample rule that applies to it |
| Day5Samples.Verdict2 | src/day5.rs:109 | the third sample update keeps every sample rule that applies to it |
| Day5Samples.Verdict3 | src/day5.rs:110 | the fourth sample update breaks the rule 97 before 75 |
| Day5Samples.Verdict4 | src/day5.rs:111 | the fifth sample update breaks the rule 29 before 13 |
| Day5Samples.Verdict5 | src/day5.rs:112 | the sixth sample update breaks the rule 29 before 13 |
| Day5Samples.Share0 | src/day5.rs:107 | the first sample update adds its middle page 61 |
| Day5Samples.Share1 | src/day5.rs:108 | the second sample update adds its middle page 53 |
| Day5Samples.Share2 | src/day5.rs:109 | the third sample update adds its middle page 29 |
| Day5Samples.Share3 | src/day5.rs:110 | the fourth sample update adds nothing |
| Day5Samples.Share4 | src/day5.rs:111 | the fifth sample update adds nothing |
| Day5Samples.Share5 | src/day5.rs:112 | the sixth sample update adds nothing |
| Day5Samples.SumOfSix | src/day5.rs:56-72 | the answer over six updates is the sum of their shares |
| Day5Samples.SamplePart1 | src/day5.rs:124-127 | the rules and updates of the test input give 143 |
| Day6.GetVecUnit | src/day6.rs:11-19 | each direction moves along one axis only: one column for Left and Right, one stride for Up and Down |
| Day6.Clock | src/day6.rs:4-9 | each direction's place in the clockwise order from Up |
| Day6.Rotate | src/day6.rs:22-29 | a rotation moves one place clockwise |
| Day6.FourTurns | src/day6.rs:22-29 | four rotations are the identity and no fewer are |
| Day6.FourMovesCancel | src/day6.rs:12-19 | one move in each of the four directions ends where it started |
| Day6.FirstLineLen | src/day6.rs:47 | the first line of `lines` holds no '\n' and ends at the end of the input, at the first '\n', or at a "\r\n" whose '\r' it drops; a '\r' it keeps last is not followed by '\n' |
| Day6.LineLen | src/day6.rs:47 | the stride is one past the first '\n', or one less when a '\r' stands right before it |
| Day6.TurnLoopOk | src/day6.rs:72-86 | the loop ends in a pose where the walker stands on a '#' only if its next step leaves the buffer, and returns the byte under the walker, never a '#' |
| Day6.TurnOut | src/day6.rs:74-79 | a turn whose step leaves the buffer returns `None` with the new direction and `current_idx` unchanged |
| Day6.TurnOn | src/day6.rs:74-80 | a turn whose step stays inside moves `current_idx` before the '#' test, and the loop goes on from there |
| Day6.TurnDone | src/day6.rs:72-86 | the loop returns the first byte it lands on that is not '#' |
| Day6.ProgressOf | src/day6.rs:63-94 | keeps `move_amt` matching the direction and the walker inside; what it returns is the byte under the walker and never a '#' |
| Day6.ProgressStops | src/day6.rs:64-70 | a step below 0, past the end or onto a '\n' returns `None` and moves nothing |
| Day6.ProgressStraight | src/day6.rs:88-92 | any other byte but '#' is stepped onto and returned with its index |
| Day6.ProgressTurns | src/day6.rs:71-86 | after a '#' the walker makes one to four quarter turns |
| Day6.TurnsMade | src/day6.rs:72-85 | the loop ends after at least one and at most the remaining of four turns |
| Day6.ProgressNoneIsFinal | src/day6.rs:63-94 | once `progress` returns `None` it returns `None` again and moves nothing |
| Day6.TurnNoneIsFinal | src/day6.rs:72-85 | when the loop returns `None` the walker's next step leaves the buffer |
| Day6.Start | src/day6.rs:46-61 | starts on the first '^', facing Up with `move_amt` = -stride, with `('^', start)` to yield first |
| Day6.NextOf | src/day6.rs:107-111 | yields the buffered item and keeps the walker well formed |
| Day6.WalkAfterNext | src/day6.rs:107-111 | after one `next` the yielded item moves from the rest of the walk to the items collected |
| Day6.WalkFuel | src/day6.rs:116-118 | more fuel never changes a walk that has ended |
| Day6.Walk | src/day6.rs:107-118 | a walk that ends within the fuel yields at most that many items, the buffered item first, and nothing when no item is buffered |
| Day6.WalkOn | src/day6.rs:107-111 | what follows one `next` call, if it ends within the fuel, is at most that many items |
| Day6.WalkItems | src/day6.rs:116-118 | each item of a finished walk is the byte at its index, inside the buffer, never a '#' |
| Day6.Indices | src/day6.rs:118-121 | the set of yielded indices: every index yielded, and nothing else |
| Day6.DistinctAtMostItems | src/day6.rs:119-121 | there are no more distinct indices than items |
| Day6.Part1 | src/day6.rs:114-124 | a count comes back exactly when the walk ends within the fuel; it is at most the items yielded and at most the size of the map |
| Day6.Part1Counts | src/day6.rs:114-124 | a walk that ends starts on the '^', so the count is at least 1 |
| Day6.WalkAvoidsObstacles | src/day6.rs:116-118 | every yielded index lies inside the buffer, holds the byte yielded with it, and is never a '#' |
| Day6.Traverser.constructor | src/day6.rs:46-61 | the fields are the starting walker of `Start` |
| Day6.Traverser.Progress | src/day6.rs:63-94 | the new pose and the result are what `ProgressOf` says; `next_item` is untouched |
| Day6.Traverser.TurnWhileBlocked | src/day6.rs:72-86 | the `while` loop ends, in the pose and with the result of `TurnLoop` |
| Day6.Traverser.Next | src/day6.rs:107-111 | returns the old `next_item` and buffers what `progress` returns, as `NextOf` says |
| Day6.Collect | src/day6.rs:116-118 | calling `next` until `None`, within the fuel, collects `Walk` from the start |
| Day6Samples.SamplePart1 | src/day6.rs:137-155 | the sample map of the tests gives 41: the walk ends after 45 items over 41 distinct indices |

## Behaviour of the code that the model keeps

- Day 6, the turning loop (`src/day6.rs:72-85`): `current_idx` moves onto
  every cell the loop lands on, '#' included, before the next test. Four
  quarter moves add up to zero, so after four turns the walker would be
  back on the cell it stood on before the first '#', and that cell is no
  '#'. The loop therefore always ends within four turns. `TurnLoop` carries
  `decreases 4 - turns` and `TurnWhileBlocked` is proved to terminate. A
  walker boxed in on all four sides does not spin in this loop. The walk as
  a whole can still go round forever, so only `Walk` has a fuel bound.
- Day 6, also in the turning loop: a step after a turn that lands on a
  '\n' does not end the walk. The loop stops only on '#', so the '\n' and
  its index are yielded, and the walk goes on from there.
- Day 3: a second 'm' in the middle of a parse (as in `mmul(2,3)`) ends
  the parse without starting a new one, so that multiplication is not
  counted.
- Day 3, a second ',' (`src/day3.rs:80-88`): after a `y` digit a ','
  keeps the parse going, and the digits after it are appended to `y`
  while it has room. So `mul(1,2,3)` adds 1*23 and `mul(1,2,)` adds 1*2
  (`StepSecondComma`, `ExtraComma`).
- Day 5: `check_rule` compares the `(index, page)` pairs that
  `find_position` returns, which comes down to comparing the indices.

## Left out

- `src/lib.rs`, the `#[aoc]` / `#[aoc_generator]` attributes and the
  `get_input` tests hold no logic of their own or read files from disk.
- The `part2` functions of days 5 and 6 return 0, and day 4 has none.
- A diagonal "X-MAS" matcher and a trapped-walker guard are not in the code.
- Panics on malformed input (`unwrap` of `parse`, `split_once`, `position`,
  the first line) are preconditions: `IsPairLine`, `IsReportLine`,
  `WellFormed`, `Scannable`, and the '^' and non-empty input of
  `Traverser`. The error paths are not modelled.
- Machine widths (`usize`, `isize`, `i32`) are unbounded integers. The
  underflow tests of `checked_sub` and `checked_add_signed` are kept. No
  overflow of `sum` or of the final `try_into` is modelled.
- `Vec::sort` in place is a functional insertion sort, `Sort`.
  `SortedUnique` shows the result does not depend on the algorithm.
- `sorted().dedup().count()` is the size of the set of indices, and
  `EnumIter` is the list `DIRECTIONS`.
- Day 4's stride counts characters (`chars().position`) and its indices
  are byte indices. The model works on bytes, which agree for ASCII input.
- Day 3 operands with other lengths than 1..=3 (the panic arms) are a
  precondition of `Operand` and an `assert false` in `ReadOperand`.
  They are proved unreachable.
- Day 6 `Walk`, `Part1` and `Collect`: these need fuel, and return `None`
  when the walk has not ended within it.
- Day5Samples.SamplePart1: starts from the rules and updates of the test
  input rather than its text. `ParseFormat` proves that `parse` reads
  back any such list, but the equality of the sample text with `Format`
  of it is not proved.
- Concurrency does not arise: every solver is sequential.
