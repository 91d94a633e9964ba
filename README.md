# Shunting-yard parser, backtracking scanner and calendar arithmetic in Dafny

This project models three pieces of a Rust arithmetic-expression and
temporal-expression library and proves properties of them.

- `shunting.dfy` (module `Shunting`): the shunting-yard converter of
  `src/parser.rs`: the precedence/associativity table, and
  `ShuntingParser::parse` over an explicit sequence of math tokens.
  - The reference `Rpn` writes the loop of `parse` as functions, one step
    per token (`ShuntToken`) and the final unwinding (`Drain`), over a
    state of output, operator stack and argument counts.
  - The method `Parse` keeps the source's loops and local variables and is
    proved to return exactly `Rpn(ts)`.
  - About `Rpn`, `RpnSound` proves that every operand stays in input order
    and every operator occurs exactly once. It also proves that errors are
    the faults found by `Fault`, an independent scan of the tokens that
    counts open parentheses.
  - The library's expected outputs are proved as exact equalities for
    `Rpn`, over the tokens the tokenizer yields for each test string.
- `shunting_vectors.dfy` (module `ShuntingVectors`): the longer test
  vectors of `src/parser.rs`, checked a few tokens per lemma against `Rpn`.
- `scanner.dfy` (module `Scanning`): the backtracking scanner of
  `src/scanner.rs`. It is a class with a buffer `buf`, the items `src` the
  source has not yet yielded, and a cursor `pos` between -1 and `|buf|`.
  It has the conditional consumers `Accept`, `AcceptAny` and `SkipAll`,
  and `Extract`. The small lexers `ScanNumber`, `ScanMathOp`,
  `ScanIdentifier` and `ScanWhitespace` are built on top. Each lexer is
  proved against a length function on the unread input: `NumberLength`,
  `MathOpLength` or `IdentifierLength`.
- `calendar.dfy` (module `Calendar`): the calendar arithmetic of
  `kronos/src/utils.rs`.
  - `DaysInMonth` implements the Gregorian rule.
  - `DateAdd` keeps the two loops of `date_add`. It is proved equal to
    `DateAddSpec`, which is defined by successor steps, month-number
    arithmetic and day clamping.
  - `StartOfNextMonth` and `StartOfNextYear` step until the month or year
    changes.
  - The library's own expected dates are proved as lemmas.
- `wrappers.dfy` (module `Wrappers`): `Option` and `Result`.
- `integers.dfy` (module `Integers`): `Min` and `Max`.

## Model

| member | source | states |
|---|---|---|
| `Shunting.PrecedenceTable` | src/parser.rs:11-33 | ranks lie in 1..99; only `(` ranks 1; exactly the tokens outside the table rank 99, and exactly they have no associativity; exactly rank 5 (unary `-`, `^`) is right-associative; a function is (7, Left) |
| `Shunting.DecideRule` | src/parser.rs:81-93 | the stack top is popped iff it ranks higher than the incoming operator, or equal with a left-associative incoming operator; popping fails iff both are outside the table |
| `Shunting.ParenStopsPopping` | src/parser.rs:21 | an incoming unary or binary operator never pops an opening parenthesis |
| `Shunting.PowerIsRightAssociative` | src/parser.rs:27-28 | an incoming `^` leaves a `^` or a unary `-` on the stack |
| `Shunting.MinusIsLeftAssociative` | src/parser.rs:22-26 | equal-ranked left-associative operators pop each other; a lower-ranked top stays |
| `Shunting.ArithmeticPrecedence` | src/parser.rs:22-27 | `*` and `/` stay above `+`, `*` and `/` pop each other, and a unary `-` stays above `/` |
| `Shunting.FaultFreeIsBalanced` | src/parser.rs:59-65 | input with no fault has no unknown token and closes exactly as many parentheses as it opens |
| `Shunting.UnstackToParenSpec` | src/parser.rs:60-62 | the items above the innermost `(`, none of them a parenthesis, go to the output top first; that `(`, if any, is left on top |
| `Shunting.UnstackForOrder` | src/parser.rs:82-93 | the popped items go to the output top first, after the old output |
| `Shunting.UnstackForStops` | src/parser.rs:84-91 | the loop stops at an empty stack or at a top that stays; it fails exactly at a top for which the incoming operator has no associativity |
| `Shunting.UnstackForPops` | src/parser.rs:84-88 | every item popped is one that the incoming operator pops by precedence and associativity |
| `Shunting.CountArgument` | src/parser.rs:76-77 | a comma adds one to the innermost argument count and leaves the others; with no count, nothing changes |
| `Shunting.CloseCall` | src/parser.rs:69-75 | after the `(` is dropped, a function under it goes to the output with the innermost argument count, which is dropped; anything else leaves the state as it was |
| `Shunting.DrainSpec` | src/parser.rs:99-104 | the end of input fails with "Missing Closing Paren" exactly when a `(` is left on the stack; otherwise the whole stack goes to the output top first |
| `Shunting.ShuntOperand` | src/parser.rs:52-53 | an operand goes to the end of the output, keeping the loop invariant (operands in input order, each operator once) |
| `Shunting.ShuntOpen` | src/parser.rs:54-58 | `(` or a function is pushed, with a new argument count of 1 for a function; the open-parenthesis count moves as the reference scan says |
| `Shunting.ShuntComma` | src/parser.rs:76-78 | a comma with its `(` on top leaves the output and stack and replaces the counts by `CountArgument`: the innermost one goes up by one |
| `Shunting.ShuntCloseCall` | src/parser.rs:67-71 | a `)` closing a call drops its `(` and emits the function with the innermost argument count, which exists and is dropped |
| `Shunting.ShuntCloseGroup` | src/parser.rs:67-75 | a `)` with no function under its `(` only drops the `(` |
| `Shunting.UnrankedSeen` | src/parser.rs:89 | an operator outside the table on top of the stack was read earlier |
| `Shunting.ShuntOperator` | src/parser.rs:94 | the incoming operator is pushed on what the pops left, keeping the invariant |
| `Shunting.ShuntTokenKeeps` | src/parser.rs:51-97 | one token: on success the invariant moves past it; any error but "No Associativity" is exactly that token's fault under the reference scan; "No Associativity" needs it and an earlier operator outside the table |
| `Shunting.RpnSound` | src/parser.rs:45-106 | on success the output holds only operands and operators, all operands in input order, every operator exactly once, and the input has no fault; any error but "No Associativity" is the input's first fault; with every operator ranked, success iff the input has no fault |
| `Shunting.Parse` | src/parser.rs:45-106 | the method with the source's loops returns exactly the reference `Rpn(ts)`, and so everything `RpnSound` states |
| `Shunting.PopToParen` | src/parser.rs:60-65 | the loop gives exactly `UnstackToParen`; an empty stack after it is "Missing Opening Paren", otherwise `(` is on top |
| `Shunting.CloseParen` | src/parser.rs:67-75 | the `)` step gives exactly `CloseCall` on the stack under the `(`, which is what the reference step returns |
| `Shunting.PopOperators` | src/parser.rs:80-94 | the loop gives exactly `UnstackFor`; on failure the reference step is "No Associativity", otherwise it is the incoming operator pushed on the stack left |
| `Shunting.MinusExample` | src/parser.rs:22-23 | `a-b-c` gives `a b - c -`, for any three operands |
| `Shunting.PowerExample` | src/parser.rs:28 | `a^b^c` gives `a b c ^ ^`, for any three operands |
| `Shunting.PrecedenceExample` | src/parser.rs:114-133 | `a+b*c/-(d-e)^f^g` gives `a b c * d e - f g ^ ^ - / +`, for any seven operands |
| `Shunting.PrecedenceVector` | src/parser.rs:115-133 | the library's `3+4*2/-(1-5)^2^3` gives `3 4 2 * 1 5 - 2 3 ^ ^ - / +` |
| `Shunting.StrayCommaExample` | src/parser.rs:59-64 | a function, an operand and a comma outside any parenthesis is "Missing Opening Paren", whatever follows |
| `Shunting.CallExample` | src/parser.rs:55-77 | a call whose arguments are operands, `f(a1, ..., ak)`, gives `a1 ... ak f` with `f` counted k, one more than its commas |
| `Shunting.CallVectors` | src/parser.rs:186-187 | `max(2, x)` gives `2 x max` with `max` counted 2; the library's `max 4, 6, 4)` is "Missing Opening Paren" |
| `ShuntingVectors.MixedExample` | src/parser.rs:136-154 | `a * sin(b) / (c! % -d) * max(e, f)` gives `a b sin * c ! d - % / e f max *`, `sin` counted 1 and `max` 2, for any operands |
| `ShuntingVectors.MixedVector` | src/parser.rs:137-153 | the library's `3.4e-2 * sin(x)/(7! % -4) * max(2, x)` gives its expected output |
| `ShuntingVectors.RootExample` | src/parser.rs:158-175 | `sqrt(-(a - b^c) / (d + e^f))` gives `a b c ^ - - d e f ^ + / sqrt`, for any operands |
| `ShuntingVectors.RootVector` | src/parser.rs:159-174 | the library's `sqrt(-(1-x^2) / (1 + x^2))` gives its expected output |
| `ShuntingVectors.ArityExample` | src/parser.rs:191-210 | `sin(a) + (max(b, gamma(c), gcd(d, e)) + sum(f, g, h))` gives `a sin b c gamma d e gcd max f g h sum + +` with `sin` 1, `gamma` 1, `gcd` 2, `max` 3, `sum` 3, for any operands |
| `ShuntingVectors.ArityVector` | src/parser.rs:193-200 | the library's `sin(1)+(max(2, gamma(3.5), gcd(24, 8))+sum(i,0,10))` counts `sin` 1, `max` 3, `gamma` 1, `gcd` 2, `sum` 3 |
| `ShuntingVectors.UnclosedExample` | src/parser.rs:99-101 | `sqrt(-(a - b^c) / (d + e^f)` is "Missing Closing Paren", for any operands |
| `ShuntingVectors.UnclosedVector` | src/parser.rs:180-181 | the library's `sqrt(-(1-x^2) / (1 + x^2)` is "Missing Closing Paren" |
| `ShuntingVectors.UnopenedExample` | src/parser.rs:59-64 | `-(a - b^c) / (d + e^f))` is "Missing Opening Paren", for any operands |
| `ShuntingVectors.UnopenedVector` | src/parser.rs:183-184 | the library's `-(1-x^2) / (1 + x^2))` is "Missing Opening Paren" |
| `Scanning.Span` | src/scanner.rs:200-206 | the length of the longest prefix whose items all belong to the set |
| `Scanning.Scanner.constructor` | src/scanner.rs:113-119 | a fresh scanner has cursor -1, an empty buffer and the whole source ahead |
| `Scanning.Scanner.Current` | src/scanner.rs:137-143 | the item under the cursor exactly when 0 <= pos < \|buf\| |
| `Scanning.Scanner.Next` | src/scanner.rs:31-41 | returns the next unread item; the cursor moves by one, or caps at \|buf\| at the end; the buffer grows only by what it lacks; nothing is lost |
| `Scanning.Scanner.BufferPos` | src/scanner.rs:122-124 | the cursor, always within [-1, \|buf\|] |
| `Scanning.Scanner.SetBufferPos` | src/scanner.rs:128-134 | a target outside [-1, \|buf\|] is refused with the cursor unchanged; otherwise the cursor is set |
| `Scanning.Scanner.Peek` | src/scanner.rs:146-151 | returns what `Next` would, with the cursor restored |
| `Scanning.Scanner.Extract` | src/scanner.rs:154-164 | the token is the buffer up to the cursor; token followed by the new buffer is the old buffer; cursor -1 |
| `Scanning.Scanner.Accept` | src/scanner.rs:174-183 | advances by one and returns the item iff the next item is the one wanted; otherwise None with the cursor unchanged |
| `Scanning.Scanner.AcceptAny` | src/scanner.rs:187-196 | the same, for an item in the set |
| `Scanning.Scanner.SkipAll` | src/scanner.rs:200-206 | the cursor moves over exactly the longest run of set items; the result says whether it moved |
| `Scanning.ScanWhitespace` | src/scanner.rs:49-52 | skips whitespace and always returns the text up to the cursor |
| `Scanning.SignLength` | src/scanner.rs:58 | 1 exactly when a sign comes first |
| `Scanning.SignedDigits` | src/scanner.rs:57-60 | an optional sign and digits; 0 exactly when no digit follows the optional sign; otherwise it ends on a digit |
| `Scanning.ImaginaryTail` | src/scanner.rs:79 | 1 exactly when an `i` comes first |
| `Scanning.ExponentLength` | src/scanner.rs:71-78 | positive exactly when an exponent letter is followed by an optional sign and digits |
| `Scanning.ExponentTail` | src/scanner.rs:70-79 | the exponent part and optional `i`; ends on a digit or `i` |
| `Scanning.NumberTail` | src/scanner.rs:64-79 | the fraction, exponent and `i` part; ends on a digit or `i` |
| `Scanning.NumberLength` | src/scanner.rs:55-80 | zero exactly when no digit follows the optional sign; otherwise it covers all integer digits and ends on a digit or `i` |
| `Scanning.NumberLengthChars` | src/scanner.rs:54-80 | a number is made of sign, digit, `.`, exponent-letter and `i` characters only |
| `Scanning.SkipSignedDigits` | src/scanner.rs:57-60 | the cursor moves over the signed digits when there is a digit |
| `Scanning.SkipExponent` | src/scanner.rs:71-78 | the cursor moves over the exponent part; a letter without digits is backtracked out |
| `Scanning.SkipExponentTail` | src/scanner.rs:70-79 | the cursor moves over exactly `ExponentTail` of the unread input |
| `Scanning.SkipNumberTail` | src/scanner.rs:64-79 | the cursor moves over exactly `NumberTail`; a `.` without digits is backtracked out |
| `Scanning.SkipNumber` | src/scanner.rs:55-79 | the cursor moves over exactly `NumberLength`; it reports whether there was a number |
| `Scanning.ScanNumber` | src/scanner.rs:55-81 | no number gives None with the cursor restored; otherwise the text up to the end of the number is cut off the stream |
| `Scanning.MathOpLength` | src/scanner.rs:83-97 | zero exactly when the next character is no operator; at most 2 |
| `Scanning.MathOpPairs` | src/scanner.rs:85-92 | the two-character operators are exactly `<=`, `>=`, `==` and `**` |
| `Scanning.SkipMathOp` | src/scanner.rs:85-97 | the cursor moves over exactly `MathOpLength` |
| `Scanning.ScanMathOp` | src/scanner.rs:83-98 | no operator gives None with the cursor kept; otherwise the text up to the end of the operator is cut off the stream |
| `Scanning.IdentifierLength` | src/scanner.rs:101-104 | zero exactly when no letter or `_` comes first; otherwise letters, digits and `_` up to the first other character |
| `Scanning.ScanIdentifier` | src/scanner.rs:101-105 | no identifier start gives None with the cursor kept; otherwise the identifier is cut off the stream |
| `Calendar.DaysInMonth` | kronos/src/utils.rs:35-41 | 28..31; February has 29 days exactly in Gregorian leap years, otherwise 28; April, June, September and November have 30; the others 31 |
| `Calendar.Succ` | kronos/src/utils.rs:10 | the next day is a valid date strictly later |
| `Calendar.SuccIsNext` | kronos/src/utils.rs:10 | no valid date lies between a date and the next day |
| `Calendar.AddDays` | kronos/src/utils.rs:47-59 | n days later is a valid date, strictly later when n > 0 |
| `Calendar.AddDaysSplit` | kronos/src/utils.rs:47-59 | adding a + b days is adding a then b |
| `Calendar.YearLength` | kronos/src/utils.rs:39 | a year has 366 days exactly when it is a leap year, otherwise 365 |
| `Calendar.SuccDayNumber` | kronos/src/utils.rs:10 | the next day has the next day number |
| `Calendar.DayNumberOrdered` | kronos/src/utils.rs:10 | chronological order of valid dates is the order of their day numbers |
| `Calendar.AddDaysByDayNumber` | kronos/src/utils.rs:47-59 | adding n days reaches a valid date iff its day number is n higher |
| `Calendar.FillMonth` | kronos/src/utils.rs:48-58 | one pass of the day loop leaves the date eventually reached unchanged |
| `Calendar.ShiftDays` | kronos/src/utils.rs:47-59 | the day loop ends on exactly the date d days later |
| `Calendar.ShiftMonths` | kronos/src/utils.rs:60-68 | the month loop raises the absolute month number year*12+month-1 by exactly m, month stays in 1..12 |
| `Calendar.DateAddSpec` | kronos/src/utils.rs:43-72 | adding years, months and days always yields a valid date |
| `Calendar.DateAdd` | kronos/src/utils.rs:43-72 | the two loops, the year shift and the clamp give exactly `DateAddSpec`, a valid date |
| `Calendar.MonthIndex` | kronos/src/utils.rs:60-68 | year and month are recovered from the absolute month number |
| `Calendar.DateAddZero` | kronos/src/utils.rs:47-71 | adding nothing returns the date unchanged |
| `Calendar.DateAddMonthsClamps` | kronos/src/utils.rs:60-70 | adding months advances the month number 12*year+month by exactly m; the day becomes exactly `min(day, days in the month reached)`, so it is kept iff it fits |
| `Calendar.DateAddDaysByDayNumber` | kronos/src/utils.rs:47-59 | adding days lands on the date whose day number is that much higher |
| `Calendar.DateAddDaysExample30` | kronos/src/utils.rs:81 | 2016-09-05 plus 30 days is 2016-10-05 |
| `Calendar.DateAddDaysExample365` | kronos/src/utils.rs:83 | 2016-09-05 plus 365 days is 2017-09-05 |
| `Calendar.DateAddDaysExample1234` | kronos/src/utils.rs:82 | 2016-09-05 plus 1234 days is 2020-01-22 |
| `Calendar.DateAddDaysExample2541` | kronos/src/utils.rs:84 | 2016-09-05 plus 2541 days is 2023-08-21 |
| `Calendar.DateAddMonthsExamples` | kronos/src/utils.rs:85-89 | the month cases: 2016-09-05 +1 is 2016-10-05; 2016-01-30 +1 is 2016-02-29 (clamped), +2 is 2016-03-30, +12 is 2017-01-30 |
| `Calendar.NextMonthByDays` | kronos/src/utils.rs:6-13 | stepping day by day from a date stays in its month until the first of the next month |
| `Calendar.StartOfNextMonth` | kronos/src/utils.rs:6-13 | the first day of the following month (December into January of the next year); every date before it keeps the month |
| `Calendar.StartOfNextYear` | kronos/src/utils.rs:26-33 | January 1 of the next year; every date before it keeps the year |

## Left out

- Shunting.Parse: the argument count of a function is proved locally: a function pushes 1 (`ShuntOpen`), a comma adds one to the innermost count (`CountArgument`, `ShuntComma`), and a `)` emits and drops it (`CloseCall`). "One more than the commas of the call" is proved for calls whose arguments are operands (`CallExample`) and for the library's nested vectors (`ArityVector`, `MixedVector`). It is not proved for arbitrary nested arguments, which would need the matching-parenthesis structure of the tokens as a reference.
- Shunting.RpnSound: the operator accounting compares functions with their argument counts erased; the counts themselves are covered by the line above.
- Shunting.Parse: works on an explicit token sequence. `ShuntingParser::parse_str` (src/parser.rs:41-43) and the tokenizer it calls are not part of this model. The library's test strings are proved over the tokens the tokenizer would yield for them, written out by hand; a function token enters with count 0.
- Shunting.Parse: errors are `ParseError` variants, not formatted messages. `BadToken` carries the lexeme.
- `Number`'s 64-bit floating-point value is a `real` that is never inspected; `3.4e-2` is written `0.034`. `RPNExpr` is the output sequence itself.
- Scanning.Scanner.Next: the source iterator is a finite sequence `src`. Infinite sources and the `Clone` of items are not modelled. The `isize` cursor and `usize` lengths are unbounded integers.
- Scanning.ScanNumber: the source's early returns after a restored cursor are grouped into stage methods that only move the cursor, followed by one `Extract`. The cursor positions and the returned text are the same. `extract_string` collecting characters into a `String` is the identity on `seq<char>`.
- Scanning.ScanNumber: the comment above `scan_number` (src/scanner.rs:54) gives a pattern with only a leading `-`, a required exponent sign and no `i`. The model follows the code: an optional `+` or `-`, an optional exponent sign, and an optional trailing `i`.
- Scanning.ScanIdentifier: the comment at src/scanner.rs:100 asks for two or more characters. The code, and the model, accept a single letter or `_`.
- Calendar.DateAdd: years, months and day counts are unbounded integers. Wrap-around of the source's `i32`/`u32` and the date range of the date library (whose constructor panics outside it) are not modelled. The model proves instead that the final triple is always a valid date.
- `startof_next_week` (kronos/src/utils.rs:16-23) depends on the date library's ISO week numbering and is not modelled.
- The Earley grammar engine is not part of this model; its implementation is not among the sources. Also outside this model:
  - `src/rpneval.rs`: floating-point evaluation, random numbers and trigonometry;
  - `kronos/src/semantics.rs`: lazy infinite iterators over library date-times;
  - `src/lib.rs`: module declarations only.
