# Lox scanner (lox_rs) in Dafny

This project models the lexical scanner of lox_rs, a Rust interpreter for the
Lox scripting language, and proves properties of the model. The scanner holds
five fields: the source text, a growing token list, and three cursor
fields. `start` marks where the current lexeme began, `current` is the next
unread character, and `line` is the line counter. `scan_token` reads one
character and branches on it:

- punctuation appends its token;
- `! = < >` look one character ahead for `=`;
- `//` skips a line comment;
- blanks are skipped, and a newline advances the line counter;
- every other character, digits, letters and `"` included, is an
  "Unexpected character." error.

Files and modules:

- `token.dfy` (module `Tokens`): `TokenType`, `Literal` (its integer case is a
  signed 64-bit `I64`, not a float) and `Token`, as in `src/lox/token.rs`.
  `Spelling` gives each kind its fixed text. It serves as the reference that
  the scanner's lexemes are checked against.
- `error.dfy` (module `Errors`): `ParsingError { line, message }` and the
  `Result` type the scanner's operations return.
- `scanner.dfy` (module `Scanning`): the class `Scanner`, with the source's
  fields. `source` is a `const`, since nothing ever changes it. The module also
  has the pure function `Step`, which says what one `scan_token` call does to
  the fields. `ScanToken` and its helper methods are imperative, with the
  source's `while` loop for comments, and are proved against `Step`.
  `Peek` and `IsAtEnd` are functions over the object's state.
- `scanner_properties.dfy` (module `ScannerProperties`): lemmas about `Step`.
  They are checked against independent tables of the recognised characters
  (`Punctuation`, `Operators`, `Blanks`, `Recognized`) and against the
  line-accounting invariant `LinesCounted`: `line` is one plus the number of
  newlines before `current`.
- `driver.dfy` (module `IntendedDriver`): the whole-input loop the code
  evidently intends but does not contain. It repeats `start := current;
  scan_token()` until the end of the text and stops at the first error. This
  is **not** source behaviour: `scan_tokens` in `src/lox/scanner.rs` is a
  stub, and nothing in the file sets `start := current`. The loop's
  termination follows from `Step`'s progress guarantee.

The usual Lox scanner also scans strings, numbers, identifiers and keywords,
and ends its output with an EOF token. This code does neither, and the model
follows the code:

- There is no string, number, identifier or keyword recognition. Digits,
  letters and `"` are errors. The keyword kinds exist only as enum constants.
- No EOF token is appended, because `TokenType` has no such kind. The
  intended driver's result for an empty text is the empty list.
- `scan_tokens` returns the token list as it stands and scans nothing.
- The integer literal is `INT(i64)`, not a floating-point number.

## Model

| member | source | states |
|---|---|---|
| `Scanning.Scanner.constructor` | src/lox/scanner.rs:17-25 | a new scanner keeps the text and starts with start = current = 0, line = 1 and no tokens |
| `Scanning.Scanner.ScanTokens` | src/lox/scanner.rs:27-29 | returns `Ok` with the token list exactly as it is and changes no field |
| `Scanning.Scanner.IsAtEnd` | src/lox/scanner.rs:117-119 | the scanner is at the end exactly when the cursor equals the text's length (the cursor never passes it) |
| `Scanning.Scanner.Peek` | src/lox/scanner.rs:98-103 | NUL at the end, otherwise the character under the cursor; reads only |
| `Scanning.Scanner.MatchNext` | src/lox/scanner.rs:105-115 | returns true iff the cursor is before the end and on `expected`; the cursor moves by one exactly then, and no other field changes |
| `Scanning.Scanner.Advance` | src/lox/scanner.rs:121-125 | returns the character under the cursor and moves the cursor by exactly one; no other field changes |
| `Scanning.Scanner.AddToken` | src/lox/scanner.rs:127-136 | appends exactly one token, with lexeme `source[start..current]` and the current line, after all earlier tokens; no cursor field changes |
| `Scanning.Scanner.AddOneOrTwo` | src/lox/scanner.rs:44-71 | the `! = < >` arms: consumes a following `=` and appends the two-character kind, or else appends the one-character kind |
| `Scanning.Scanner.SlashOrComment` | src/lox/scanner.rs:72-80 | the `/` arm: after a second `/` the cursor is at the end of the comment and no token is added; otherwise SLASH is appended |
| `Scanning.Scanner.ScanToken` | src/lox/scanner.rs:31-96 | the new fields and the result are exactly those `Step` gives for the old fields |
| `Scanning.CommentEnd` | src/lox/scanner.rs:74-76 | the comment loop stops at the first newline at or after the cursor, or at the end; no newline lies before that point |
| `Scanning.Step` | src/lox/scanner.rs:31-96 | one call always advances the cursor and keeps it inside the text. It appends at most one token, after the unchanged earlier ones, with lexeme `source[start..current]` and the old line. The line grows by one exactly when the consumed character is a newline, and no later consumed character is a newline. An error carries the old line and "Unexpected character." and changes nothing but the cursor |
| `ScannerProperties.PunctuationSpelled` | src/lox/scanner.rs:34-43 | each punctuation character maps to the kind whose spelling is that character |
| `ScannerProperties.OperatorSpelled` | src/lox/scanner.rs:44-71 | each operator's one-character kind is spelled by the operator, and its two-character kind by the operator followed by `=` |
| `ScannerProperties.StepPunctuation` | src/lox/scanner.rs:34-43 | punctuation appends exactly its kind's token and consumes one character |
| `ScannerProperties.StepOperator` | src/lox/scanner.rs:44-71 | `! = < >` append exactly one token. It has the two-character kind, with the `=` consumed, iff the next character is `=`, and the one-character kind with a one-character advance otherwise. The line does not change |
| `ScannerProperties.StepComment` | src/lox/scanner.rs:72-76 | after `//` the cursor stops at the first newline after it, or at the end. The newline is not consumed, and no token or line change happens |
| `ScannerProperties.StepSlash` | src/lox/scanner.rs:77-79 | a `/` not followed by `/` appends SLASH and consumes one character |
| `ScannerProperties.StepBlank` | src/lox/scanner.rs:82-84 | space, CR and tab consume one character; no token, and the line is unchanged |
| `ScannerProperties.StepNewline` | src/lox/scanner.rs:86 | a newline consumes one character, adds no token and raises the line by exactly one |
| `ScannerProperties.StepErrorIff` | src/lox/scanner.rs:88-93 | the call fails iff the character is not one the scanner recognises. The error carries the current line and "Unexpected character." and leaves tokens and line untouched |
| `ScannerProperties.StepRejectsLiterals` | src/lox/scanner.rs:88-93 | digits, letters, `_` and `"` are all "Unexpected character." errors |
| `ScannerProperties.StepKeepsLineCount` | src/lox/scanner.rs:82-86 | the line counter stays equal to one plus the newlines before the cursor |
| `ScannerProperties.InitialLinesCounted` | src/lox/scanner.rs:17-25 | a fresh scanner satisfies that line invariant |
| `ScannerProperties.LineBound` | src/lox/scanner.rs:11-13 | under that invariant the line counter never exceeds the cursor plus one. A Rust `String` holds at most `isize::MAX` bytes, so `current` < 2^63 and `line` <= 2^63, well inside `u64` |
| `ScannerProperties.StartNeverReset` | src/lox/scanner.rs:127-136 | as written, a second `scan_token` call on `((` appends a token with lexeme `((`, which is not LEFT_PAREN's spelling |
| `IntendedDriver.ScanFrom` | src/lox/scanner.rs:27-33 | intended loop, not source behaviour: a successful run keeps the tokens it started with as a prefix |
| `IntendedDriver.ScanAll` | src/lox/scanner.rs:27-33 | intended loop run on a `Scanner`: it returns what `ScanFrom` gives for the scanner's state. On success the scanner's token list is the returned list and its cursor is at the end of the text |
| `IntendedDriver.StepWellFormed` | src/lox/scanner.rs:31-96 | with start reset to the cursor, a token that a step appends is spelled by its kind and starts at the cursor, taken verbatim from the text, on the cursor's line |
| `IntendedDriver.PlacedStep` | src/lox/scanner.rs:127-136 | one step keeps every token at its own offset: a new token is placed at the old cursor, after all earlier lexemes |
| `IntendedDriver.ScanFromWellFormed` | src/lox/scanner.rs:31-136 | a successful intended run gives each token its own start offset. The offsets are in text order and the lexemes do not overlap. Each lexeme is its kind's spelling, found verbatim at its offset, and each line is one plus the newlines before that offset. Earlier tokens keep their offsets, and new ones start at or after the cursor |
| `IntendedDriver.PlacedPinsLine` | src/lox/scanner.rs:82-86 | in `(` newline `(`, a second `(` placed after the first must start at offset 2, on line 2 |
| `IntendedDriver.ScanFromError` | src/lox/scanner.rs:88-93 | an intended run fails only with "Unexpected character.", at a position p where it stops (`StopsAt`): p holds an unrecognised character, the text before p scans without error, and the text through p does not. So p is the character the run rejects, not one inside a comment, and the error names p's line |
| `IntendedDriver.CommentEndCut` | src/lox/scanner.rs:74-76 | a comment that stops at or before q stops at the same place in the text cut at q |
| `IntendedDriver.StepCutOperator` | src/lox/scanner.rs:44-71 | an operator step that ends at or before q is the same step in the text cut at q |
| `IntendedDriver.StepCutSlash` | src/lox/scanner.rs:72-80 | a slash or comment step that ends at or before q is the same step in the text cut at q |
| `IntendedDriver.StepCut` | src/lox/scanner.rs:31-96 | any step that ends at or before q reads nothing from q on: it is the same step in the text cut at q |
| `IntendedDriver.ScanFromCut` | src/lox/scanner.rs:31-96 | one loop iteration that ends at or before q is the same in the text cut at q: it fails with the same error, or continues from the same state |
| `IntendedDriver.CutAfterStep` | src/lox/scanner.rs:31-96 | after one successful step, the run on a cut text succeeds from the old state exactly when it succeeds from the new one |
| `IntendedDriver.ErrorPosRejected` | src/lox/scanner.rs:88-93 | when the intended run fails, its stop position holds an unrecognised character, and the error is "Unexpected character." on that character's line |
| `IntendedDriver.ErrorPosCleanBefore` | src/lox/scanner.rs:31-96 | the text before the stop position scans without error |
| `IntendedDriver.FailsThroughAfterStep` | src/lox/scanner.rs:31-96 | after a successful first step, a failure on the text through the stop position carries back to the run from before the step |
| `IntendedDriver.FailsThroughAtStep` | src/lox/scanner.rs:88-93 | when the first step fails, the text through the cursor already fails |
| `IntendedDriver.ErrorPosFailsThrough` | src/lox/scanner.rs:31-96 | a stop position inside the text is where the run fails: the text through it does not scan |
| `IntendedDriver.ErrorPinsFirst` | src/lox/scanner.rs:88-93 | in `a` newline `b`, the only stop position is offset 0, on line 1 |
| `IntendedDriver.ErrorSkipsComment` | src/lox/scanner.rs:72-76 | in `//a` newline `b`, the commented `a` is not a stop position; the only one is the `b` at offset 4, on line 2 |
| `IntendedDriver.ExampleCommentOnly` | src/lox/scanner.rs:72-76 | `//a` scans to no tokens and no error: characters inside a comment are never examined |
| `IntendedDriver.ExampleCommentedLetter` | src/lox/scanner.rs:72-93 | `//a` newline `b` fails with "Unexpected character." on line 2 |
| `IntendedDriver.ScanFromRecognized` | src/lox/scanner.rs:31-96 | a text made only of recognised characters scans without error |
| `IntendedDriver.ScanSourceProperties` | src/lox/scanner.rs:17-136 | from a fresh scanner, an empty text gives no tokens (no EOF token exists). Every successful scan places its tokens at their own offsets, in text order. An error comes from the position p where the run stops (`StopsAt`: an unrecognised character, the text before it scans cleanly, the text through it does not), and it names p's line |
| `IntendedDriver.ExampleParen` | src/lox/scanner.rs:34 | `(` scans to the single token LEFT_PAREN `(` on line 1 |
| `IntendedDriver.ExampleBangEqual` | src/lox/scanner.rs:44-50 | `!=` scans to the single token BANG_EQUAL `!=` on line 1 |
| `IntendedDriver.ExampleTwoParens` | src/lox/scanner.rs:34 | with start reset, `((` scans to two LEFT_PAREN tokens with lexeme `(` each |
| `IntendedDriver.ExampleComment` | src/lox/scanner.rs:72-86 | `// c` then a newline then `(` scans to one LEFT_PAREN on line 2 |
| `IntendedDriver.ExampleNumberRejected` | src/lox/scanner.rs:88-93 | `12.` fails with "Unexpected character." on line 1 |

## Findings

| source | as written | input that shows it | evidently intended | confidence | as-written member | corrected member |
|---|---|---|---|---|---|---|
| src/lox/scanner.rs:127-136 | `add_token` slices from `start`, and nothing in the file ever sets `start := current`, so every lexeme after the first also contains the text of the earlier ones | two `scan_token` calls on a fresh scanner over `((`: the second token is LEFT_PAREN with lexeme `((` | `start` is set to `current` before each lexeme, so each lexeme is only its own text | medium; not executed (no caller reaches `scan_token` yet) | `ScannerProperties.StartNeverReset` | `IntendedDriver.ScanFromWellFormed` |

## Left out

- `src/lox.rs` (`run_file`, `run`): file reading and printing. This is I/O glue around the scanner.
- `Token::to_string` (src/lox/token.rs:21-30): Debug formatting is a library formatting call.
- `Token::new` and `ParsingError::new` are plain record constructors. They are the datatype constructors `Token(...)` and `ParsingError(...)`.
- Scanning.Scanner.constructor: requires the text to be ASCII. `is_at_end` compares against the byte length, `advance` and `peek` index by character, and `add_token` slices by bytes. These three agree only on ASCII text, and UTF-8 boundaries are not modelled.
- The `unwrap()` panics of `advance` and `add_token` are preconditions (`current < |source|`, and `start <= current <= |source|` in `Valid`), not behaviour.
- `u64` widths: `start`, `current` and `line` are unbounded naturals. `ScannerProperties.LineBound` shows that the line counter is at most the cursor plus one, and the cursor is below 2^63 since a Rust `String` holds at most `isize::MAX` bytes; no field can reach 2^64.
- The `LinkedList` of tokens is a `seq<Token>` that grows by appending. Its internals and performance are not modelled.
- `scan_tokens` returns a reference to the list; the model returns its value.
- String, number, identifier and keyword scanning and the EOF token: they do not exist in the code.
- IntendedDriver.ScanFromError: states one direction: every failure is at the position where the run stops. The converse, that a run with such a stop position fails, is not stated as a lemma; `ScanFromRecognized` gives the no-error side for texts with no unrecognised character at all.
