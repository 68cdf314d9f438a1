# voom tokenizer in Dafny

This project models the tokenizer of the voom compiler front end. The
tokenizer is `CompilationUnit::tokenize` with its helpers:

- `get_type`, the byte classifier;
- `check_keyword`, the keyword retagger, with the `String == const char*`
  comparison it relies on;
- `check_operator`, the operator-code assigner, with its `SPLIT_TOKEN` and
  `MAYBE_ASSIGN` macros;
- the token record and the enumerations `TokenType`, `Operator` and
  `UnitStatus`.

The tokenizer makes one left-to-right pass over a byte buffer with an
11-state variable. It emits tokens as views into the buffer: an offset, a
length, a line, a kind and an optional operator code.

The model follows the code as written, quirks included:

- `String == const char*` is `strncmp` over the view's length. It is
  therefore a prefix test, so `wh` is retagged as `while` and `tr` as the
  constant `true`.
- The `case 'd'`, `case 'e'`, `case 'f'` and `case 'n'` arms of
  `check_keyword` begin with `break`. Nothing in those arms runs.
- The `SPLIT_TOKEN` guard is `idx > len`, which no call site can meet. An
  operator run is therefore never split: `+++` is one increment token.
- An operator run that reaches the end of the buffer is emitted without
  `check_operator`, so it has no operator code.
- `OP_LSHIFT` and `OP_RSHIFT` are both declared `0x40`.
- Whether `char` is signed is a parameter, `signedChar`. With a signed
  `char`, every byte from `0x80` up is whitespace. With an unsigned `char`,
  those bytes are identifier bytes.

Modules, in dependency order:

| module | file | models |
|---|---|---|
| `Wrappers` | wrappers.dfy | `Option` |
| `Strings` | strings.dfy | the `String` view and its `==` |
| `Tokens` | tokens.dfy | `UnitStatus`, `TokenType`, `Operator`, `Token` |
| `CharClasses` | classify.dfy | `CharType` and `get_type` |
| `Keywords` | keywords.dfy | `check_keyword`, and the keyword table it amounts to |
| `Operators` | operators.dfy | `check_operator`, `SPLIT_TOKEN`, `MAYBE_ASSIGN`, and the spelling table they amount to |
| `SourceText` | source_text.dfy | reference descriptions: the line of each byte, where a string literal closes, and which bytes the tokens should reproduce |
| `Lexer` | lexer.dfy | `TokenizerState`, `BEGIN_TOKEN`/`END_TOKEN`, and one loop iteration and the final switch of `tokenize` as pure functions |
| `LexerFacts` | lexer_facts.dfy | the loop invariant of `tokenize` and its proof |
| `Tokenizer` | tokenizer.dfy | `tokenize` end to end, as a function and as a loop |

Each operation has a partner it is proved against:

- `check_keyword` is proved against an explicit keyword table
  (`KeywordOf`).
- `check_operator` is proved against a longest-spelling-first table
  (`OperatorOf`).
- The view comparison is proved against sequence prefix.
- `tokenize` is proved against `SourceText`, which is independent of the
  state machine. `SourceText` gives:
  - `LineAt`, the line of a byte (1 plus the newlines before it);
  - `CloseQuote`, the closing quote of a string literal, where a backslash
    swallows the next byte;
  - `KeptText`, the buffer without whitespace, backslashes and `#` comments,
    all taken outside string literals.

Some consequences of the code that a reader of the tokenizer might not
expect:

- No operator run is ever split into several tokens, whatever its length.
- An operator spelling the resolver does not know gets `OP_UNK`. No error
  is reported and the error flag is untouched.
- `tokenize` appends only the tokens it reads from the buffer. There are no
  start, end or root sentinel tokens.
- A token pending at the end of the buffer is emitted, except an
  unterminated string, which is dropped and sets `UNIT_ERROR` and the
  error flag. An operator run emitted there is not resolved.

## Model

| member | source | states |
|---|---|---|
| Strings.EqualsLiteral | src/string.h:19-21 | An empty view compares equal to every literal. |
| Strings.StrncmpEqualFromIsPrefix | src/string.h:19-21 | From position k on, the `strncmp` walk over a NUL-free view reports "equal" exactly when every remaining view byte equals the literal's byte at that position, where the literal's terminator counts as NUL. |
| Strings.EqualsLiteralIsPrefix | src/string.h:19-21 | For a view with no NUL byte, `==` holds if and only if the view's bytes are a prefix of the literal. It is not equality. |
| Strings.LongerViewNeverEqual | src/string.h:19-21 | A NUL-free view longer than the literal never compares equal, because the comparison reaches the literal's terminator. |
| Strings.EqualsLiteralReadsOnlyView | src/string.h:19-21 | Two views with the same bytes compare alike against every literal, wherever they sit in whatever buffer. The comparison reads nothing beyond the view's `count` bytes. |
| Tokens.Code | src/compilation_unit.h:53-100 | Each enumerator's declared value. The upper four bits are its declaration group's level (`0xF` for `OP_INC`/`OP_DEC`), and the value is zero exactly for `OP_UNK`. |
| Tokens.CodeRoundTrip | src/compilation_unit.h:53-100 | Reading an enumerator's value back gives that enumerator, except `OP_RSHIFT`, which reads back as `OP_LSHIFT`. |
| Tokens.CodesDistinct | src/compilation_unit.h:53-100 | `OP_UNK` is 0. Two enumerators have equal values if and only if they are the same enumerator or both are shifts. |
| Tokens.Precedence | src/compilation_unit.h:54 | The precedence level is the upper four bits of the one-byte code: a level below 16 whose 16-value band contains the code. |
| Tokens.PrecedenceOfGroup | src/compilation_unit.h:53-100 | Every operator sits on its declaration group's level. The statement operators `OP_INC` and `OP_DEC` sit on level `0xF`. |
| Tokens.PrecedenceFollowsGroups | src/compilation_unit.h:53-100 | Two operators share a level exactly when they share a group. Levels order as the groups are declared: multiplicative < additive < shift < bitwise < comparison < logical < piping < cast < increment/decrement. |
| CharClasses.CharValue | src/compilation_unit.cc:79-80 | A byte read as `char` has the byte's bit pattern modulo 256, in the `char`'s range: `-128..127` when signed and `0..255` when unsigned. So it is the unsigned value, minus 256 exactly when `char` is signed and the byte is at least `0x80`. |
| CharClasses.Classify | src/compilation_unit.cc:79-94 | Each class exactly, as if-and-only-if statements. Space is every byte up to `' '`, `0x7f`, and under a signed `char` every byte from `0x80` up. Digits are numbers. Letters, `_` and (unsigned `char` only) bytes from `0x80` up are identifier bytes. The six brackets are brackets. `\ ; , " . #` each have their own class. Any other byte is punctuation. |
| CharClasses.SignedHighBytesAreSpace | src/compilation_unit.cc:80-83 | A byte from `0x80` up is whitespace under a signed `char` and an identifier byte under an unsigned `char`. With a signed `char`, the high-bit test is never what classifies a byte. |
| CharClasses.NulAndNewlineAreSpace | src/compilation_unit.cc:80 | NUL and newline are whitespace under both readings of `char`. |
| Keywords.CheckKeyword | src/compilation_unit.cc:96-209 | Never moves, resizes or renumbers the token. Leaves it unchanged when it is shorter than 2 or longer than 10 bytes, or starts with `d`, `e`, `f` or `n`. A changed token is no longer an identifier, and gets an operator code when it becomes an operator. |
| Keywords.CheckKeywordIsTable | src/compilation_unit.cc:96-209 | For an identifier without NUL bytes, `check_keyword` applies exactly `KeywordOf`. Under `KeywordOf`, `and`, `as`, `in` and `or` match only when spelled in full. Every other keyword matches any word of two bytes or more that is a prefix of it. No entry starts with `d`, `e`, `f` or `n`. |
| Keywords.KeywordPrefixMatches | src/compilation_unit.cc:193-204 | `wh` becomes `TOKEN_WHILE`, `tr` becomes `TOKEN_CONSTANT`, and `xo` becomes `TOKEN_OP` with `OP_XOR`. |
| Keywords.KeywordNonMatches | src/compilation_unit.cc:103-180 | `an` stays an identifier, because `and` needs its full spelling. `do`, `for`, `not`, `null` and `else` stay identifiers, because their arms are disabled. |
| Operators.SplitToken | src/compilation_unit.cc:211-223 | `SPLIT_TOKEN` keeps the kind and operator it is given. It cuts exactly when `idx > len`, and any cut it makes lies past the end of the run. |
| Operators.MaybeAssign | src/compilation_unit.cc:225-232 | `MAYBE_ASSIGN` never splits and keeps the operator. The token becomes a statement operator exactly when the byte at `idx` exists and is `=`. |
| Operators.CheckOperator | src/compilation_unit.cc:211-370 | The run is never split. The kind is `TOKEN_OP` or `TOKEN_STATEMENT_OP`, and a statement operator starts with one of the assignable or `=` bytes. A run whose first byte has no case gets `OP_UNK` and stays `TOKEN_OP`. |
| Operators.ResolveOperator | src/compilation_unit.cc:234-239 | The token keeps its view and line and always gets an operator code. Its kind is `TOKEN_OP` or `TOKEN_STATEMENT_OP`. |
| Operators.CheckOperatorIsTable | src/compilation_unit.cc:234-370 | On every run, `check_operator` agrees with `OperatorOf`, which takes the first spelling the run starts with, longest first. `<` and `>` count only as the whole run. `=` alone is a statement operator with `OP_UNK`, and any other run is `OP_UNK`. |
| Operators.AssignmentKeepsBaseCode | src/compilation_unit.cc:225-232 | Each assignable base spelling followed by `=` gives a statement operator that keeps the base operator's code, whatever follows in the run. |
| Operators.OperatorRuns | src/compilation_unit.cc:211-317 | `+++` and `++` are one `OP_INC` statement operator, and `--` is `OP_DEC`. `=` is a statement operator with `OP_UNK`, and `==` is `OP_EQ`. `<<` and `>>` get the same code. |
| Lexer.EndToken | src/compilation_unit.cc:47-56 | `END_TOKEN` appends one token after the earlier ones, which stay as they were. The token spans from the recorded start to the cursor, carries the start line and the given kind, and has no operator code. The state returns to null. |
| Lexer.EndIdent | src/compilation_unit.cc:401-409 | An identifier ended at the cursor is appended, whatever kind the keyword check gives it. It spans from the recorded start to the cursor on its start line, and only a word operator gets a code. The earlier tokens are kept and the state returns to null. |
| Lexer.EndOperator | src/compilation_unit.cc:388-397 | An operator run ended at the cursor is appended as one token, spanning from the recorded start to the cursor on its start line. It is `TOKEN_OP` or `TOKEN_STATEMENT_OP` with an operator code. The earlier tokens are kept and no other token is added. |
| Lexer.BeginToken | src/compilation_unit.cc:58-63 | `BEGIN_TOKEN` records the current byte as the pending token's start and the current line as its line, and enters the given state. Nothing is emitted. |
| Lexer.Finish | src/compilation_unit.cc:460-479 | In the final switch, the null state sets `UNIT_TOKEN`. An open string sets `UNIT_ERROR` and the error flag, and adds no token. A comment changes nothing. Any other state appends one token from the recorded start to the end of the buffer, leaving status and error flag as they were. An operator run is appended as `TOKEN_OP` with no operator code. |
| Lexer.Close | src/compilation_unit.cc:387-444 | The first switch keeps the pending token behind the cursor. It either ends in the null state or keeps its state, except inside a string. |
| Lexer.Open | src/compilation_unit.cc:445-457 | `BEGIN_TOKEN` starts the pending token at the current byte, so it lies behind the next cursor. |
| Lexer.Step | src/compilation_unit.cc:381-457 | One iteration keeps the pending token behind the cursor. An operator run is never empty. |
| LexerFacts.InvStart | src/compilation_unit.cc:373-378 | The initial variables satisfy the loop invariant on every buffer. |
| LexerFacts.Advance | src/compilation_unit.cc:381-383 | Reading a byte moves the line count by one exactly at a newline, and moves the reading mode on by that byte. |
| LexerFacts.HeldShaped | src/compilation_unit.cc:47-56 | `END_TOKEN` on a held bracket, semicolon, comma, number, closed string or final operator run gives a non-empty token. The token starts at `BEGIN_TOKEN`'s offset, ends at the cursor and is shaped as its first byte demands. |
| LexerFacts.OpShaped | src/compilation_unit.cc:388-397 | An operator run ended by a non-punctuation byte is emitted resolved by `check_operator`, non-empty, maximal and shaped. |
| LexerFacts.IdentShaped | src/compilation_unit.cc:401-409 | An identifier ended by a non-identifier byte is emitted retagged by `check_keyword`, non-empty, maximal and shaped. |
| LexerFacts.Emit | src/compilation_unit.cc:47-56 | Appending a shaped pending token keeps the tokens in order, non-overlapping and numbered. The tokens still account for all kept bytes before the current byte. |
| LexerFacts.CloseNull | src/compilation_unit.cc:387-444 | In the null state the first switch does nothing, and the invariant carries over to the second switch. |
| LexerFacts.CloseComment | src/compilation_unit.cc:441-443 | A comment ends at a newline, and the newline is dropped with the comment. Any other byte stays in the comment. The invariant is kept both ways. |
| LexerFacts.EmitPending | src/compilation_unit.cc:398-440 | A bracket, semicolon, comma, closed string or number not extended by the byte is emitted with its kind and the invariant is kept. |
| LexerFacts.RunGrows | src/compilation_unit.cc:388-418 | A byte that extends the pending identifier, number or operator run is taken into it, and the invariant is kept. |
| LexerFacts.OpEnds | src/compilation_unit.cc:388-397 | A byte that does not extend an operator run ends it, emitting the resolved operator, and the invariant is kept. |
| LexerFacts.IdentEnds | src/compilation_unit.cc:401-409 | A byte that does not extend an identifier ends it, emitting the retagged identifier, and the invariant is kept. |
| LexerFacts.CloseRun | src/compilation_unit.cc:388-418 | The invariant is kept by the first switch in the identifier, number and operator states, whether or not the byte extends the run. |
| LexerFacts.CloseStr | src/compilation_unit.cc:419-428 | In a string, a backslash moves to the escape state and a quote to the closed-string state, and the pending string keeps its closing quote. The invariant is kept. |
| LexerFacts.CloseStrEsc | src/compilation_unit.cc:429-431 | After a backslash, any byte is swallowed and the string goes on. The invariant is kept. |
| LexerFacts.CloseStep | src/compilation_unit.cc:387-444 | The first switch, in every state, leaves the invariant for the second switch or the next byte. |
| LexerFacts.BeginHolds | src/compilation_unit.cc:445-456 | A byte that begins a token leaves a one-byte pending token that is a proper beginning of the kind its new state stands for. |
| LexerFacts.OpenNothing | src/compilation_unit.cc:445-456 | Whitespace, a backslash or `#` begins no token: the scanner stays idle or enters a comment, and the invariant holds after the byte. |
| LexerFacts.OpenToken | src/compilation_unit.cc:58-63 | `BEGIN_TOKEN` at a kept byte records the offset and line of the new pending token. Since the byte is not the newline that ends a comment, it was read in code. The invariant holds after the byte. |
| LexerFacts.StepPreserves | src/compilation_unit.cc:381-457 | One loop iteration preserves the invariant. Emitted tokens are non-empty, in order, non-overlapping, numbered by `LineAt`, begun in code and shaped. The pending token is a proper beginning of its kind. The state agrees with the reading mode. The null state is reached exactly when idle. Tokens, pending bytes and unread text account for all kept bytes. |
| LexerFacts.ScanInvariant | src/compilation_unit.cc:372-458 | After any number of bytes the scanner satisfies the invariant. |
| Tokenizer.FinishIdle | src/compilation_unit.cc:460-475 | Ending in the null, comment or open-string state emits nothing: the unit keeps exactly the tokens the loop emitted, so a pending open string is dropped. An open string is an error, and the tokens are a prefix of the kept bytes. Otherwise the tokens are exactly the kept bytes, and the status becomes `UNIT_TOKEN` only in the null state. |
| Tokenizer.FinishIdent | src/compilation_unit.cc:466-469 | A pending identifier at the end is emitted retagged, and the tokens reproduce the kept bytes exactly. |
| Tokenizer.FinishPending | src/compilation_unit.cc:464-478 | A pending bracket, number, closed string, semicolon, comma or operator run at the end is emitted, the operator run unresolved. The tokens reproduce the kept bytes exactly and the status is unchanged. |
| Tokenizer.FinishOk | src/compilation_unit.cc:460-479 | The final switch, from any state satisfying the invariant, leaves a tokenized unit. |
| Tokenizer.Tokenize | src/compilation_unit.cc:372-480 | The unit's tokens are non-empty, in buffer order, non-overlapping, numbered by line and shaped as their first byte demands. Each begins at a byte read in code, never inside a comment or a string. Ending inside a string sets `UNIT_ERROR` and the error flag, drops the partial string, and leaves the tokens a prefix of the kept bytes. Otherwise the tokens reproduce the kept bytes exactly, the error flag is unchanged, and the status becomes `UNIT_TOKEN` exactly when the text ends idle and is otherwise unchanged. |
| Tokenizer.CommentedWordIsNoToken | src/compilation_unit.cc:441-442 | A `#` comment swallows a word up to the newline: for `#x`, newline, `x`, a unit holding the first `x` is not a tokenized unit. |
| Tokenizer.QuotedWordIsNoToken | src/compilation_unit.cc:419-428 | A string swallows a word up to its closing quote: for `x"x`, a unit holding the second `x` is not a tokenized unit. |
| Tokenizer.Scan | src/compilation_unit.cc:380-458 | The loop leaves the scanner that `ScanPrefix` defines for the whole buffer, one iteration per byte. |
| Tokenizer.TokenizeBuffer | src/compilation_unit.cc:372-480 | The loop followed by the final switch computes `Tokenize`, and so satisfies its contract. |

## Left out

- The `CompilationUnit` constructor and destructor (src/compilation_unit.cc:3-31) are not modelled. They stat and read a file and free memory. The buffer, the status and the error flag before tokenizing are parameters instead.
- `dumpTokens` (src/compilation_unit.cc:482-498) and `operator<<` for `String` (src/string.h:12-17) are not modelled: they only write to the console.
- src/compiler.cc, src/compiler.h and src/main.cc are not modelled. They hold the driver loop, path deduplication and the command line.
- `Token*` and `char*` pointers are offsets into an immutable buffer. A token's `text.data` and `byte_number` are one `offset` field, because `END_TOKEN` always sets them to the same position.
- A fresh `Token`'s zero `line_number` and `byte_number` and its uninitialised `type` are not modelled, because `END_TOKEN` sets all three on every token it creates. An `op` that is never assigned is `None`.
- The body of `SPLIT_TOKEN` (src/compilation_unit.cc:213-221) is not modelled: its guard never holds. `Operators.CheckOperator` proves the guard false at every call site.
- Integer widths are not modelled. Line numbers and offsets (`size_t`) and the `int` count of a `String` are unbounded, so buffers of 2^31 bytes or more are outside the model.
- Tokenizer.Tokenize: when the text ends inside a string, the contract states only that the tokens' bytes are a prefix of the kept bytes. It does not say that the missing suffix is exactly the unterminated string.
- Lexer.Close: its contract states only that the pending token stays behind the cursor and how the state may change. What the first switch does to the tokens, the line and the reading mode is stated by `LexerFacts.CloseStep` and the lemmas it dispatches to.
- Lexer.Open: its contract states only that the pending token stays behind the cursor. What the second switch begins is stated by `LexerFacts.OpenToken` and `LexerFacts.OpenNothing`.
- Lexer.Step: its contract states only that the pending token stays behind the cursor. That one iteration preserves the full loop invariant is `LexerFacts.StepPreserves`.
