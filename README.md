# wolang parser, modelled in Dafny

wolang is a small notation for interval workouts. A line such as
`2x 1min @200W, 30s @120W` becomes a list of `Interval` and `Set` nodes. An
Interval is a duration in seconds plus an intensity (watts, or a fraction of
FTP). A Set is a repeat count and its children.

The project models the whole pipeline in `lib/parser.js`, in its own form:

- **Tokenizer** (`tokenizer.dfy`, class `Tokenizing.Tokenizer`). This is a cursor
  over the text that updates `cursor`, `line`, `column` and `currentIndent` in
  place.
  - Every call of `Next` is proved equal to a reference step `Lexer.NextSpec`.
  - NextSpec is a pure function over the tokenizer state (`lexer.dfy`). It
    covers INDENT/DEDENT at line starts, the prioritised rule table, skipped
    whitespace and comments, and end of input.
  - The regular expressions of the rule table are written out as matchers over
    ASCII text.
- **TokenQueue** (`queue.dfy`, class `Queueing.TokenQueue`). This is the
  look-ahead buffer between the tokenizer and the parser, with its `queue`,
  `index` and stack of `tests`.
  - A speculative `test(func)` is split into `BeginTest`, the body, and
    `EndTest` on the body's `Result`.
  - A ghost record `pulled` holds everything ever taken from the tokenizer.
    Contracts use it to name "the token this call consumed".
- **Parser** (`parser.dfy`, class `Parsing.Parser`). This is recursive descent
  over the queue, with one method per grammar symbol.
  - Each method states which tokens it consumes and what value it returns, as
    ghost functions of the pulled record: `IsDuration`/`DurationAt`,
    `IsPower`, `IsPercentFTP`/`FractionAt`, `IsInterval`/`IntervalAt`, `IsRepeat`/`RepeatAt` and so on. A ghost `Reading` records how a block was read. A line of Intervals is read at a list of boundaries (`ParsedLine`). The Sets of an INDENT block are read one after another, each from its start up to the next one's, and each Set's own block is read the same way, recursively (`SetRead`, `BlockRead`, `SetsChain`). So every node returned, down to the Intervals of the innermost Set, is tied to the tokens it was read from. `BlockUnique` proves that a block is read from a given position in one way only.
  - Failure is specified as well. A record `b` is *later* than `a` (`Later`) when it is the same run of the tokenizer, pulled at least as far without a lexical error. Each method that can fail states that no reading starts where it started, in its own record or any later one (`NoLine`, `NoSet`, `NoSets`, `NoBlock`, and for single tokens `DurationRefused`, `IntensityRefused`, `IntervalRefused`). Once the tokenizer has answered with an error there is no later record but the current one (`LaterHalted`). So `Parse` fails exactly when no record of the text's tokens has a reading from the first token.
  - Termination of the mutually recursive Set/Block descent is proved by a
    lexicographic measure. Its parts are the characters left, the indentation
    gap and the tokens pulled but not yet consumed.
- **Tokens, errors and nodes** (`syntax.dfy`). These are datatypes. The
  exceptions become an `Error` datatype inside a `Result`. `IsSyntax` separates
  the four syntax errors, which a test catches, from `RangeError` and
  `TypeError`, which propagate.
- **Numbers** (`numbers.dfy`). These are the exact values `Number()` gives INT
  and FLOAT texts, as `nat` and `real`.

Behaviour reproduced as the code has it:

- **Advancing the cursor** counts at most one `\n` per advance. The column
  becomes the number of characters after that first `\n`.
- **DEDENTs at the end of input** are only produced when the text ends with a
  line break (`Lexer.EndOfText`).
- **`Numeric` at the end of input** builds its error from the missing token.
  That is a `TypeError`, which no test catches.
- **A repeat count of `0x`** becomes 1.
- **An empty annotation** is dropped.
- **`eat` with no kinds** never succeeds.
- **A successful inner test** inside an outer one sets the index back to the
  inner test's mark.
- **A non-syntax error** raised inside a test leaves its mark on the stack.

## Model

| member | source | states |
|---|---|---|
| Syntax.MakeInterval | lib/parser.js:378-381 | The Interval builder keeps duration and intensity, and has an annotation exactly when it was given a non-empty one. |
| Syntax.SplicedKeepsWorkout | lib/parser.js:437-443 | Splicing keeps every node normal (Sets repeat at least twice), and a once-repeated Set unrolls to the same workout as its children. |
| Syntax.SpliceStep | lib/parser.js:440-444 | One step of the Block loop keeps the flattened list normal and describing the same workout as the unflattened list of Sets parsed. |
| Syntax.UnrollAppend | lib/parser.js:440-444 | The workout of two node lists in a row is the workout of the first followed by that of the second. |
| Syntax.FlattenedSnoc | lib/parser.js:440-443 | Pushing one more Set onto the Block's list extends the flattened list by that Set spliced. |
| Syntax.FlattenedKeepsWorkout | lib/parser.js:437-444 | The list the Block loop builds from the Sets it parsed is normal and describes the same workout as those Sets. |
| Lexer.Span | lib/parser.js:160 | Counts the longest prefix satisfying a predicate, and the next character fails it. |
| Lexer.MatchComment | lib/parser.js:81 | Optional spaces, `#`, then the rest of the line up to a line terminator; matches exactly when `#` follows the leading spaces. |
| Lexer.MatchLineBreak | lib/parser.js:83 | Matches one character exactly when the text starts with `\r` or `\n`. |
| Lexer.MatchChar | lib/parser.js:86-92 | Matches one character exactly when the text starts with it (for `x` ignoring case). |
| Lexer.MatchWatts | lib/parser.js:91 | Matches exactly when the text starts with `w`/`W`: 4 or 5 characters for `watt`/`watts`, otherwise 1. |
| Lexer.MatchSeconds | lib/parser.js:93 | Matches exactly when the text starts with `s`/`S`, at most 7 characters. |
| Lexer.MatchMinutes | lib/parser.js:94 | Matches exactly when the text starts with `min` ignoring case, 3 to 7 characters. |
| Lexer.MatchHours | lib/parser.js:95 | Matches exactly when the text starts with `hour` or `hr` ignoring case, 2 to 5 characters. |
| Lexer.MatchWattsLongest | lib/parser.js:91 | The W rule takes the longest of `w`, `watt`, `watts` the text starts with, ignoring case, and matches nothing when it starts with none. |
| Lexer.MatchSecondsLongest | lib/parser.js:93 | The SEC rule takes the longest of `s`, `sec`, `secs`, `second`, `seconds` the text starts with, ignoring case, and nothing when none. |
| Lexer.MatchMinutesLongest | lib/parser.js:94 | The MIN rule takes the longest of `min`, `mins`, `minute`, `minutes` the text starts with, ignoring case, and nothing when none. |
| Lexer.MatchHoursLongest | lib/parser.js:95 | The HR rule takes the longest of `hr`, `hrs`, `hour`, `hours` the text starts with, ignoring case, and nothing when none. |
| Lexer.MatchDecimal | lib/parser.js:97 | A match is digits, a point and digits, not followed by a digit; there is no match only when the text does not start with digits followed by a point. |
| Lexer.MatchDigits | lib/parser.js:98 | A match is a maximal non-empty run of digits; no match exactly when the text does not start with a digit. |
| Lexer.MatchQuoted | lib/parser.js:100-101 | A match runs from the quote to the next equal quote with none between; there is no match only when the text does not open with the quote or has no closing one. |
| Lexer.MatchLen | lib/parser.js:79-102 | The length a table rule matches never exceeds the text. |
| Lexer.FirstMatchFrom | lib/parser.js:184-187 | A hit found from index `i` on names a rule at or after `i` and that rule's non-zero match length. |
| Lexer.FirstMatch | lib/parser.js:184-187 | A hit names a rule of the table and the non-zero length that rule matches. |
| Lexer.FirstMatchFromIsFirst | lib/parser.js:184-187 | Every rule before the hit misses, and there is no hit exactly when every rule misses. |
| Lexer.FirstMatchIsFirst | lib/parser.js:184-205 | The rule taken is the first in priority order that matches; no rule is taken exactly when none matches. |
| Lexer.RulePriorities | lib/parser.js:79-102 | The rule table in the source's order: only the comment rule and the other-whitespace rule yield no token, the comment rule comes before the line break, and FLOAT comes before INT, so `1.5` is never read as INT `1`. |
| Lexer.LineStartOf | lib/parser.js:231-235 | The line start found is at or before the position and is a line start. |
| Lexer.LineStartIsLast | lib/parser.js:231-235 | No line start lies between the one found and the position: it is the nearest. |
| Lexer.PastOneCharacter | lib/parser.js:136-148 | Advancing one character leaves the cursor at a line start (`atLineStart`, lines 223-225) exactly when that character is `\n`; it is then on the next line at column 0. |
| Lexer.AfterIndent | lib/parser.js:241-243 | The text after the current indentation of the cursor's line is a suffix of the source. |
| Lexer.IndexOf | lib/parser.js:141-142 | An index found lies inside the text. |
| Lexer.IndexOfFirst | lib/parser.js:141-142 | The index found holds the character and none comes before it; nothing is found exactly when the character is absent. |
| Lexer.Advance | lib/parser.js:136-148 | Advancing moves the cursor by the length and keeps the text and the indentation. |
| Lexer.AdvanceLines | lib/parser.js:139-145 | Without a `\n` the line stays and the column grows by the length; otherwise the line grows by exactly one and the column counts the characters after the first `\n`. |
| Lexer.NextSpec | lib/parser.js:151-209 | One step keeps the state valid (indentation even), keeps the text and never moves the cursor back. |
| Lexer.Lex | lib/parser.js:180-208 | Rule matching keeps the state valid and never moves the cursor back. |
| Lexer.LexHit | lib/parser.js:187-203 | Handling a matched rule keeps the state valid and never moves the cursor back. |
| Lexer.NextProgress | lib/parser.js:151-209 | A step never moves the tokenizer back, and one that yields a token (INDENT and DEDENT included) moves it strictly forward: the token stream is finite. |
| Lexer.LineStartProgress | lib/parser.js:155-178 | The same progress fact for a step that starts at a line start. |
| Lexer.LexProgress | lib/parser.js:183-205 | The same progress fact for rule matching, through any skipped matches. |
| Lexer.EndMeansExhausted | lib/parser.js:180-181 | End of input is reported only with the cursor at the end and no indentation left open at a line start. |
| Lexer.LexEndMeansExhausted | lib/parser.js:180-181 | The same for rule matching once the indentation is settled. |
| Lexer.ExhaustedIsFixed | lib/parser.js:181 | An exhausted tokenizer answers end of input and does not change. |
| Lexer.EndIsSticky | lib/parser.js:181 | Once `next()` has returned end of input, the next call returns it again and leaves the state unchanged. |
| Lexer.EndOfText | lib/parser.js:155-181 | At the end of the text, an open indentation yields a DEDENT only when the text ends with a line break; otherwise the answer is end of input. |
| Lexer.ErrorIsSticky | lib/parser.js:151-209 | After a lexical error, calling `next()` again raises the same error from the same state, with the cursor before the end. |
| Lexer.LexErrorIsSticky | lib/parser.js:183-208 | The same for rule matching once the indentation is settled. |
| Lexer.RuleOfKind | lib/parser.js:97-101 | Only the decimal, digit and quote rules yield FLOAT, INT and STRING. |
| Lexer.HitShape | lib/parser.js:97-101 | The text a rule matches has the shape of its kind: INT digits, FLOAT `\d+\.\d*`, STRING quoted. |
| Lexer.NextWellFormed | lib/parser.js:151-209 | Every token a step yields is well formed; a NEWLINE's text is non-empty. |
| Lexer.LexWellFormed | lib/parser.js:183-204 | The same for rule matching. |
| Lexer.TokenHasKind | lib/parser.js:200-201 | A match that yields a token comes from a rule with a kind. |
| Lexer.HitToken | lib/parser.js:196-203 | A match that is not skipped yields its rule's token with the matched text and the line and column from before the advance. |
| Lexer.LexToken | lib/parser.js:184-203 | The same, starting from rule matching at the cursor. |
| Lexer.TabAtLineStart | lib/parser.js:157-159 | A tab opening a line raises an unexpected-character error and leaves the state. |
| Lexer.IndentStep | lib/parser.js:163-166 | Leading spaces two more than the indentation yield one INDENT, raise the indentation by 2 and leave the cursor. |
| Lexer.DedentStep | lib/parser.js:168-171 | Fewer leading spaces, by an even amount, yield one DEDENT, lower the indentation by 2 (it was at least 2) and leave the cursor. |
| Lexer.BadIndent | lib/parser.js:173-174 | Any other change of indentation raises an unexpected-indent error carrying the line's indent. |
| Lexer.SameIndent | lib/parser.js:175-177 | Unchanged indentation passes over the leading spaces, then rule matching starts. |
| Lexer.MidLine | lib/parser.js:155 | Inside a line, a step is rule matching alone. |
| Lexer.LexAtEnd | lib/parser.js:181 | At the end of the text, rule matching returns end of input and changes nothing. |
| Lexer.LexNoMatch | lib/parser.js:207-208 | A character no rule matches raises an unexpected-character error naming it. |
| Lexer.LexSkip | lib/parser.js:190-201 | A skipped match (whitespace, comment, or the line break closing a full-line comment) restarts the step after it. |
| Lexer.SkippedRules | lib/parser.js:190-201 | A match yields no token exactly when it is a whitespace or comment match, or the line break of a line whose text after its indentation starts with `#`. |
| Lexer.NextErrorIsLexical | lib/parser.js:151-209 | The only errors a step raises are unexpected character and unexpected indent. |
| Lexer.LexErrorIsLexical | lib/parser.js:180-208 | The same for rule matching. |
| Numbers.NumeralValue | lib/parser.js:559 | The value of a digit run is below 10 to the power of its length, and is 0 exactly when every digit is 0. |
| Numbers.IntegerPart | lib/parser.js:564 | A FLOAT text is its whole part (a non-empty digit run), a point, and its fraction digits. |
| Numbers.FractionPart | lib/parser.js:564 | The fraction digits are digits and shorter than the text. |
| Numbers.DecimalValue | lib/parser.js:564 | A FLOAT text's value lies in [whole part, whole part + 1). |
| Numbers.ProperFraction | lib/parser.js:564 | A numeral divided by a larger power of ten is a proper fraction, positive when the numeral is. |
| Numbers.DecimalIntegral | lib/parser.js:496 | A FLOAT text is a whole number exactly when every digit after its point is 0. |
| Tokenizing.MatchRules | lib/parser.js:184-205 | The loop over the rule table returns exactly the first match. |
| Tokenizing.Tokenizer.constructor | lib/parser.js:114-116 | A new tokenizer starts at the beginning of its text with no indentation, on line 0, column 0. |
| Tokenizing.Tokenizer.Init | lib/parser.js:122-128 | `init` resets text, cursor, indentation, line and column. |
| Tokenizing.Tokenizer.AdvanceCursor | lib/parser.js:136-148 | The new state is exactly `Advance` of the old one. |
| Tokenizing.Tokenizer.LineStart | lib/parser.js:231-235 | The walk back returns the start of the position's line. |
| Tokenizing.Tokenizer.AfterIndent | lib/parser.js:241-243 | Returns the text after the current indentation of the cursor's line. |
| Tokenizing.Tokenizer.LineStartStep | lib/parser.js:155-178 | The line-start check either settles the step exactly as `NextSpec` says, or leaves a state whose rule matching is the step. |
| Tokenizing.Tokenizer.Reindent | lib/parser.js:160-177 | The same once the line is known not to start with a tab. |
| Tokenizing.Tokenizer.MatchStep | lib/parser.js:180-208 | Rule matching either settles the step as `Lex` says, or skips a match, moves the cursor forward and leaves a state whose step is the rest. |
| Tokenizing.Tokenizer.HitStep | lib/parser.js:187-203 | The same once a rule has matched. |
| Tokenizing.Tokenizer.TokenStep | lib/parser.js:196-203 | A token-yielding match returns the token and the state `Lex` prescribes. |
| Tokenizing.Tokenizer.Next | lib/parser.js:151-209 | `next()` returns exactly `NextSpec`'s result and leaves exactly its state. |
| Queueing.TokenQueue.constructor | lib/parser.js:273-278 | A new queue is empty, with no tests, index 0 and nothing pulled. |
| Queueing.Run | lib/parser.js:296 | The first n answers of a tokenizer, as successive `next()` calls give them; a run that succeeds has exactly n answers and ends in a valid state. |
| Queueing.RunPrefix | lib/parser.js:296 | A shorter run is the front of a longer one, so once an answer is an error no longer run succeeds. |
| Queueing.TracedRun | lib/parser.js:296 | The record the queue keeps, step by step, is exactly the run of the tokenizer from where it started. |
| Queueing.HaltedStays | lib/parser.js:296 | Once the tokenizer has answered with an error, the record of pulled tokens never grows again. |
| Queueing.TokenQueue.Lexed | lib/parser.js:273-296 | Everything the queue ever pulled is the error-free run of `next()` from the tokenizer's state when the queue was made. |
| Queueing.TokenQueue.Reset | lib/parser.js:370-374 | `reset` empties the buffer and the test stack and sets the index to 0. |
| Queueing.TokenQueue.Count | lib/parser.js:281-283 | The count is the number of pulled results from the next position on, never negative. |
| Queueing.TokenQueue.Pull | lib/parser.js:296 | Pulling returns exactly the answer of the reference step `NextSpec` from the tokenizer's state and leaves the tokenizer in the state that step gives. An answer is appended to buffer and record. It fails exactly when the tokenizer is stuck on a lexical error, after which the record can never grow. |
| Queueing.TokenQueue.Push | lib/parser.js:296 | Appending keeps the buffer's invariant and extends buffer and record by the result. |
| Queueing.TokenQueue.Peek | lib/parser.js:291-302 | An amount below 1 is a RangeError. Otherwise it returns the next `amount` results without moving the index, or a lexical error when they cannot all be pulled. |
| Queueing.TokenQueue.Fill | lib/parser.js:296 | `peek`'s loop pulls until enough results lie past the index, or fails with the tokenizer stuck. |
| Queueing.TokenQueue.PeekOne | lib/parser.js:291-302 | `peek()` returns the result at the next position and consumes nothing, so repeated peeks agree. |
| Queueing.TokenQueue.Eat | lib/parser.js:310-323 | Consumes and returns the next token exactly when its kind is one of `kinds`. End of input gives UnexpectedEOF, a wrong kind gives UnexpectedToken, and neither consumes. |
| Queueing.TokenQueue.Consume | lib/parser.js:317-320 | Inside a test the index moves on; otherwise the token leaves the buffer. Either way the next position is one further. |
| Queueing.TokenQueue.Optional | lib/parser.js:330-334 | Consumes the next token when it is one of `kinds`; otherwise returns none and consumes nothing. |
| Queueing.TokenQueue.BeginTest | lib/parser.js:346 | Pushes the current index on the test stack. |
| Queueing.TokenQueue.EndTest | lib/parser.js:350-366 | A syntax error rewinds to the saved index and gives none. Another error propagates with the mark left on the stack. Success pops the mark, drops the consumed prefix when no test is left, and restores the saved index. |
| Parsing.NumberOf | lib/parser.js:559-564 | `Number()` of an INT is that whole number; of a FLOAT it lies within one of its whole part; never negative. |
| Parsing.Seconds | lib/parser.js:493-503 | SEC keeps the number; MIN and HR scale it by 60 and 3600. |
| Parsing.DurationOrFractionalSeconds | lib/parser.js:493-497 | A number and a unit form a duration exactly when they are not a fractional number of seconds. |
| Parsing.Unquoted | lib/parser.js:569 | `slice(1, -1)` gives the text between the two equal quotes. |
| Parsing.UnquoteQuoted | lib/parser.js:569 | Quoting an annotation and unquoting it gives it back. |
| Parsing.NewlinesExtended | lib/parser.js:580 | One more NEWLINE extends a run and appends its text. |
| Parsing.IntervalNormal | lib/parser.js:378-381 | The Interval any tokens denote is an Interval node in normal form. |
| Parsing.IntensityKept | lib/parser.js:514-516 | An Intensity read at an entry is the same Intensity, covering the same entries, in any grown record. |
| Parsing.DurationKept | lib/parser.js:488-508 | A Duration read at an entry, once the entry after it is there, is the same Duration with the same choice about the `@` in any grown record; it is never fractional seconds. |
| Parsing.IntervalKept | lib/parser.js:459-465 | An Interval read at an entry, once the entry of its annotation is there, is the same Interval with the same end (and the same comma after it) in any grown record. |
| Parsing.IntervalFound | lib/parser.js:459-465 | A Duration and an Intensity read from an earlier record make an Interval in the grown record, whose node is their duration, intensity and the annotation that follows, and whose end is past that annotation. |
| Parsing.IntervalMissing | lib/parser.js:461-462 | A Duration not followed by an Intensity (after the optional `@`) is not an Interval, in any grown record. |
| Parsing.LineKept | lib/parser.js:447-453 | A line of Intervals read from a record is the same line, with the same nodes, in any grown record. |
| Parsing.LineAppended | lib/parser.js:449-451 | The Interval at the end of a line, with the position after it and its comma, extends the line and its nodes by that Interval. |
| Parsing.LineNormal | lib/parser.js:447-453 | Every node of a line of Intervals is an Interval in normal form. |
| Parsing.LineReadKept | lib/parser.js:447-453 | A line read from a record, with the NEWLINE tokens that end it, is read the same way in any grown record. |
| Parsing.ChainAppended | lib/parser.js:436-445 | A Set read where a reading of Sets stopped, at a token other than DEDENT, extends that reading by one Set. |
| Parsing.SetsReadAppended | lib/parser.js:440-443 | The state of the block loop grows by a Set read at the loop's position: the Set is added to the Sets read, and the list by what `push` adds for it. |
| Parsing.BoundsUnique | lib/parser.js:446-453 | Two lines of Intervals from the same position that both stop where no Interval starts are the same line. |
| Parsing.LineEndUnique | lib/parser.js:573-583 | A line ends in one place only: at the end of input, or at the first token after the NEWLINE tokens that follow it. |
| Parsing.LineUnique | lib/parser.js:446-453 | A line of Intervals read from a position is read one way only: the same nodes, ending at the same position. |
| Parsing.ChainAgrees | lib/parser.js:436-445 | Two readings of Sets from the same start agree Set by Set, and stand at the same position after each. |
| Parsing.SetUnique | lib/parser.js:417-421 | A Set read from a position is read one way only: the same node, down to its innermost children, ending at the same position. |
| Parsing.BlockUnique | lib/parser.js:432-454 | A block read from a position is read one way only: the same nodes, ending at the same position. So the contracts of Set, Block, Sets and Parse each allow one successful result only; their failure clauses allow failure only where no reading exists. |
| Parsing.NoSetsBefore | lib/parser.js:407-412 | Sets never read from a position from some record on were not read in any earlier record either; with Parse's failure clause, Parse fails exactly when no record of the text's tokens has a reading. |
| Parsing.Parser.constructor | lib/parser.js:398-400 | A new parser holds a tokenizer on the empty text. |
| Parsing.Parser.Frozen | lib/parser.js:296 | Once the tokenizer has failed, the queue's record stays as it is for the rest of the parse. |
| Parsing.Parser.Reached | lib/parser.js:296 | The queue's record at any point of the parse is a later record of every record it had before. |
| Parsing.LaterHalted | lib/parser.js:296 | Once the tokenizer has answered with an error, the only record the queue can still reach is the one it already has. |
| Parsing.PowerStays | lib/parser.js:537-538 | A Power found absent at a position, once that is settled, is absent in every record the tokenizer can still produce. |
| Parsing.RepeatStays | lib/parser.js:472-481 | The count read at a position, once settled, is the same in every later record, and so is where the Block after it starts. |
| Parsing.SetStays | lib/parser.js:417-421 | A Set read from a record, with all its children, is read the same way in every later record. |
| Parsing.BlockStays | lib/parser.js:432-454 | A block read from a record is read the same way in every later record. |
| Parsing.ChainStays | lib/parser.js:436-445 | Sets read one after another from a record are read the same way in every later record. |
| Parsing.DurationRefusedStays | lib/parser.js:488-508 | Where a Duration was refused (a token that is no number, both entries present, or a halted tokenizer), no later record has a Duration there. |
| Parsing.IntensityRefusedStays | lib/parser.js:514-530 | Where an Intensity was refused (a token that is no number, or a halted tokenizer), no later record has an Intensity there. |
| Parsing.IntervalRefusedStays | lib/parser.js:459-465 | Where an Interval was refused (its Duration or its Intensity refused, or a halted tokenizer), no later record has an Interval there. |
| Parsing.LineStalledStays | lib/parser.js:449-451 | Where the Intervals loop stalled for good (neither a NewLine nor an Interval can start), it is stuck there in every later record. |
| Parsing.LineBlockedIn | lib/parser.js:446-453 | In one record, a line of Intervals from a position that is stuck where it stands leaves no line readable from that position. |
| Parsing.LineBlocked | lib/parser.js:446-453 | A line of Intervals from a position that has stalled for good leaves no line readable from that position, in this record or any later one. |
| Parsing.LineNeedsEntry | lib/parser.js:448-449 | No line of Intervals is read from an entry the record does not hold. |
| Parsing.BlockNeedsEntry | lib/parser.js:435 | Past the end of a record whose tokenizer has halted, no block is ever read. |
| Parsing.IndentBlocked | lib/parser.js:435-445 | After an INDENT, a block is readable only as Sets from the next token; when those are never readable, neither is the block. |
| Parsing.LineOnly | lib/parser.js:435-453 | At a token other than INDENT, a block is readable only as a line of Intervals; when that is never readable, neither is the block. |
| Parsing.SetBlockedIn | lib/parser.js:417-421 | In one record, no Set is read from a position when the Block after its count cannot be read. |
| Parsing.SetBlocked | lib/parser.js:417-421 | No Set is ever read from a position whose count is settled and whose Block is never read. |
| Parsing.SetNeedsEntry | lib/parser.js:440 | Past the end of a record whose tokenizer has halted, no Set is ever read. |
| Parsing.ChainBlockedIn | lib/parser.js:436-445 | In one record, Sets read up to a position where the block is not closed and no Set can be read leave no block of Sets readable from their start. |
| Parsing.ChainBlocked | lib/parser.js:436-445 | The same for every later record, once the token there is known (or the tokenizer has halted) and no Set is ever read there. |
| Parsing.Parser.Integer | lib/parser.js:558-560 | Succeeds exactly when the next token is an INT, consumes it and returns its value. |
| Parsing.Parser.Float | lib/parser.js:563-565 | Succeeds exactly when the next token is a FLOAT, consumes it and returns its value. |
| Parsing.Parser.String | lib/parser.js:568-570 | Succeeds exactly when the next token is a STRING, consumes it and returns its text without the quotes. |
| Parsing.Parser.Numeric | lib/parser.js:545-555 | Succeeds exactly when the next token is an INT or FLOAT and returns its value. Another token gives UnexpectedToken; end of input gives TypeError. When no token can be peeked, the tokenizer has halted. |
| Parsing.Parser.Duration | lib/parser.js:488-508 | Succeeds exactly on a number and a unit that accepts it, consumes both and returns the seconds. A fractional number of seconds gives UnexpectedToken expecting MIN/HR. A failure means no Duration starts there in any record the tokenizer can still produce. |
| Parsing.Parser.Units | lib/parser.js:491-507 | The unit half of Duration, with the same outcomes; it fails only once the unit's entry is there or the tokenizer has halted. |
| Parsing.Parser.Power | lib/parser.js:535-539 | Succeeds exactly on INT then W, consumes both and returns the watts; every failure is a syntax error. |
| Parsing.Parser.WattsSign | lib/parser.js:537-538 | The W half of Power, with the same outcomes. |
| Parsing.Parser.PercentFTP | lib/parser.js:522-530 | Succeeds exactly on a number followed by a token or the end of input. It consumes the `%` too when one follows, and then divides by 100. It fails only on a token that is no number, or with the tokenizer halted. |
| Parsing.Parser.PercentSign | lib/parser.js:524-528 | The `%` half of PercentFTP, with the same outcomes; it fails only with the tokenizer halted. |
| Parsing.Parser.PercentEaten | lib/parser.js:525-527 | A `%` after the number is eaten, and the fraction is the number divided by 100. |
| Parsing.Parser.TryPower | lib/parser.js:515 | The speculative Power succeeds exactly on INT W; otherwise nothing is consumed. |
| Parsing.Parser.Intensity | lib/parser.js:514-516 | Succeeds exactly when a Power (INT W) or a PercentFTP starts at the next entry. The result is Power of the INT when INT W comes next, and otherwise the number's fraction of FTP; the tokens it covers are consumed. A non-number fails; end of input gives TypeError. A failure means no Intensity starts there in any record the tokenizer can still produce. |
| Parsing.Parser.RepeatCount | lib/parser.js:472-477 | The test body succeeds exactly on INT, REPEAT and something after, consuming a following NEWLINE too; every failure is a syntax error. |
| Parsing.Parser.RepeatMark | lib/parser.js:474-476 | The REPEAT half of the body, with the same outcomes. |
| Parsing.Parser.RepeatEnd | lib/parser.js:475-476 | The optional NEWLINE of the body, with the same outcomes. |
| Parsing.Parser.Repeat | lib/parser.js:470-481 | The count is the `INT x` value, or 1 when that is 0; without `INT x` it is 1 and nothing is consumed; with it the INT, REPEAT and an optional NEWLINE are consumed. Whether a count is there can no longer change. |
| Parsing.Parser.TryString | lib/parser.js:463 | The speculative String gives the unquoted text exactly when a STRING comes next, consuming it; otherwise it gives none and consumes nothing. |
| Parsing.Parser.Interval | lib/parser.js:459-465 | Succeeds exactly when a Duration, an optional `@` and an Intensity come next. The node is the Interval those tokens denote: their duration in seconds, their intensity, and the following STRING unquoted as annotation (dropped when empty). It consumes exactly those tokens. A fractional number of seconds gives the Duration error. A failure means no Interval starts there in any record the tokenizer can still produce. |
| Parsing.Parser.IntervalRest | lib/parser.js:461-464 | After the Duration: succeeds exactly when an Intensity follows the optional `@`, with the same node, consumption and failure as Interval. |
| Parsing.Parser.IntervalTail | lib/parser.js:462-464 | After the optional `@`: succeeds exactly when an Intensity follows, with the same node, consumption and failure as Interval. |
| Parsing.Parser.IntervalAnnotation | lib/parser.js:463-464 | After the Duration and the Intensity: the tokens make an Interval, and the node is the Interval they denote, with the following STRING unquoted as annotation (dropped when empty). The position is past them, and whether a comma follows is settled. |
| Parsing.Parser.NewLine | lib/parser.js:573-584 | End of input gives "EOF" and consumes nothing. Another token gives UnexpectedToken. A NEWLINE starts a maximal run, all consumed, whose texts are joined. |
| Parsing.Parser.NewLineRun | lib/parser.js:577-583 | NewLine once a real token is next, with the same outcomes. |
| Parsing.Parser.NewLineMore | lib/parser.js:578-583 | The loop gathers the maximal run of NEWLINE tokens after the first, and its text is their texts joined. |
| Parsing.Parser.NewLineNext | lib/parser.js:580 | One `optional('NEWLINE')` either ends the run (the next entry is not a NEWLINE) or extends it and its text. |
| Parsing.Parser.TryNewLine | lib/parser.js:449 | The speculative NewLine gives "EOF" at end of input, or the joined run. Otherwise it gives none and consumes nothing; the next entry is then a non-NEWLINE token, or a run of NEWLINEs ended by a lexical error. |
| Parsing.Parser.Intervals | lib/parser.js:447-453 | The list is the line of Intervals read one after another from the start: the k-th node is the Interval at the k-th boundary, and each boundary is where the previous Interval and its optional comma end. The line stops at end of input, or after a run of NEWLINEs which is consumed. It fails only when no line of Intervals is read from its start, however far the tokens are pulled. |
| Parsing.Parser.IntervalsStep | lib/parser.js:449-451 | One turn of the loop: when it succeeds, stop at end of input or after consuming a NEWLINE run, or else give the Interval the next tokens denote and stop just past it and its optional comma. It fails only where the loop is stuck for good: neither a NEWLINE run that ends nor an Interval starts there, in any record the tokenizer can still produce. |
| Parsing.Parser.IntervalsNext | lib/parser.js:450-451 | The Interval the next tokens denote, then `optional(',')`: the position ends just past the Interval and past a comma when one follows it. It fails only when no Interval starts there in any later record, or with the tokenizer halted. |
| Parsing.Parser.IntervalComma | lib/parser.js:451 | `optional(',')` after an Interval: on success the position is just past the Interval and past a comma when one follows. It fails only with the Interval reaching the end of the record and the tokenizer halted. |
| Parsing.Parser.IntervalsTurn | lib/parser.js:449-451 | One turn of the loop, keeping the line read so far: when it stops, the line is unchanged and ends at end of input or after a consumed NEWLINE run. When it gives an Interval, the line grows by that Interval and its end. When it fails, no line of Intervals is ever read from the line's start. |
| Parsing.Parser.Parse | lib/parser.js:407-412 | Re-initialises the tokenizer on the text, with a fresh queue. Every token pulled is the error-free run of `next()` from the start of the text. The result is normal. It is the block read from the first token on: the flattening of the Sets read one after another, each with its children read from the tokens after its count, up to end of input or a DEDENT. It fails only when no block of Sets is read from the first token, neither in the record it pulled nor in any record the tokenizer could still produce. |
| Parsing.Parser.Set | lib/parser.js:417-421 | The Set is the one read from its start. It repeats as often as the count there says. After an INDENT its children are the block of Sets read from the next token, each read the same way, up to end of input or a DEDENT, flattened. Otherwise its children are the line of Intervals that follows the count. It fails only when no Set is read from its start in any record the tokenizer can still produce. |
| Parsing.Parser.SetBody | lib/parser.js:419-420 | The Block after the count: with the count, it makes the Set read from the count's position; when the Block fails, no Set is ever read from there. |
| Parsing.Parser.Block | lib/parser.js:432-454 | An INDENT block (or the program) is the block of Sets read up to end of input or a DEDENT, each Set with its children read in turn, and the list is their flattening. Any other block is the line of Intervals from its start. It fails only when no such block is read from its start in any record the tokenizer can still produce. |
| Parsing.Parser.BlockBody | lib/parser.js:435-453 | `optional('INDENT')` chooses. After an INDENT it reads the block of Sets from the next token, as Block does. Otherwise it reads the line of Intervals from its start. It fails only when no block is ever read from its start. |
| Parsing.Parser.OptionalIndent | lib/parser.js:435 | `optional('INDENT')`: true exactly when an INDENT was next, which it consumes. False leaves the position at a token other than INDENT. A failure means the tokenizer halted there, so no block is ever read from that position. |
| Parsing.Parser.NestedBlock | lib/parser.js:436-445 | After an INDENT: the block of Sets read from the next token, normal and closed by end of input or a DEDENT. When it fails, no block is ever read from the INDENT's position. |
| Parsing.Parser.LineBlock | lib/parser.js:447-453 | At a token other than INDENT: the line of Intervals read from that token, all Interval nodes. When it fails, no block is ever read from that position. |
| Parsing.Parser.Sets | lib/parser.js:436-445 | Sets are read one after another from the block's start. Each starts at a token other than DEDENT, runs up to the next one's start, and has its count and children read from its own tokens. The result is their flattening, is normal and describes the same workout as those Sets. The block stops at end of input, or just after a DEDENT. It fails only when no block of Sets is ever read from its start. |
| Parsing.Parser.SetsTurn | lib/parser.js:440-443 | One turn of the loop: when it succeeds, either the block closes where the loop stands, or a Set is read there and the loop's Sets and list grow by it. When it fails, no block of Sets is ever read from the loop's start. |
| Parsing.Parser.SetsNext | lib/parser.js:440-443 | One turn: at end of input stop without consuming; at a DEDENT stop after consuming it; otherwise, when it succeeds, give the Set read from the current token, with normal children. It fails only when no Set is ever read there, with a token other than DEDENT there or the tokenizer halted. |
| Parsing.Parser.SetsUnlessDedent | lib/parser.js:440-443 | After a real token: a DEDENT is always consumed and stops the loop; otherwise, when it succeeds, it gives the Set read from that token, and it fails only when no Set is ever read there. |

## Left out

- The earlier copies of the tokenizer, queue and parser in other files are not part of this model. Neither are the build configuration, the `Symbol.iterator` adapter, the `instanceof Tokenizer` check in the queue's constructor, or the text of error messages.
- `Number()`, `*60`, `*3600` and `/100` are exact rational arithmetic here, not IEEE-754 doubles.
- The rule table's regular expressions are matchers over ASCII. `\s` is space, tab, vertical tab and form feed; `.` excludes `\r`, `\n`, U+2028 and U+2029. Other Unicode whitespace is not modelled.
- The `null` value of INDENT and DEDENT tokens is the empty string.
- Exceptions are `Result` values. `Error` has one constructor per error class, and an error's "expected" text is the list of kinds expected.
- `eof` and `getStringAtCursor` are written inline as `cursor >= |s|` and `s[cursor..]`.
- The unreachable `default` branch of Duration's unit switch is absent. The units eaten are SEC, MIN or HR.
- NewLine's `string.length == 0` branch is kept but unreachable, because every NEWLINE token's text is non-empty. Its contract therefore promises only syntax errors.
- Speculative tests are never nested by the grammar. The methods that open one require that none is open.
- Several source functions are split into helper methods (for example Units, WattsSign, PercentSign, RepeatMark, RepeatEnd, IntervalRest, IntervalTail, NewLineRun, NewLineMore, NewLineNext, IntervalsStep, IntervalsNext, BlockBody, Sets, SetsTurn, SetsNext, SetsUnlessDedent, SetBody, PercentEaten). Each helper carries the part of the contract for its stretch of code.
- Queueing.TokenQueue.Peek: with `amount > 1` it returns the slice of buffered results, and with `amount == 1` the single one (PeekOne). The model keeps these as two methods.
- Queueing.TokenQueue.PeekOne: does not restate that a stuck tokenizer stays stuck. Pull and Fill state it.
- Queueing.TokenQueue.Eat: does not restate that a stuck tokenizer stays stuck. Pull and Fill state it.
- Lengths, cursors, columns and `slice` count characters (Unicode scalar values) here, while JavaScript's `length`, `slice` and `lastIndex` count UTF-16 code units. After a character outside the Basic Multilingual Plane, such as an emoji in an annotation, the source reports a larger column than the model.
