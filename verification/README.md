# Lox scanner, modelled in Dafny

This project models the lexical scanner of pylox, a Python implementation of
the Lox language, and the `Token` record it produces. The scanner turns a
source string into a list of tokens that ends with one EOF token. It reports
malformed input (an unexpected character or an unterminated string) to an
error sink and carries on scanning.

The scanner object's mutable fields (`source`, `start`, `current`, `line`,
`tokens`) become the immutable record `Scanning.Scanner`. Each method of the
object becomes a function from state to state. The error sink becomes a list
of `Diagnostic(line, message)` values appended to the state. The
`scan_tokens` loop is given twice:

- as the recursive function `ScanDriver.ScanLoop`, wrapped by `ScanDriver.ScanTokens`;
- as the imperative method `ScanDriver.Tokenize`, which is proved equal to `ScanTokens`.

Modules, one per file:

- `Chars` (`chars.dfy`): the ASCII classes `is_digit`, `is_alpha` and `is_alpha_numeric`.
- `Decimal` (`decimal.dfy`): Python's `str(int)`, used when a token prints its line, and a parser for it.
- `Tokens` (`tokens.dfy`): the token types, literals, Python truthiness of a literal, the `Token` record and `__repr__`.
- `Keywords` and `KeywordFacts` (`keywords.dfy`): the reserved-word table and identifier classification.
- `Scanning` (`scanner.dfy`): the scanner state, the cursor primitives, `string`, `number`, `identifier` and `scan_token`.
- `TokenSteps` (`token_steps.dfy`): what one `scan_token` call does, for each class of character.
- `ScanDriver` (`scan_tokens.dfy`): `scan_tokens` and the properties of its whole output.
- `WorkedExamples` (`worked_examples.dfy`): whole runs on three small inputs.

The methods of the scanner object map to `Scanning` members as follows:

| Python method | Dafny member | lines of lox_scanner.py |
|---|---|---|
| `__init__` | `Init` | 32-38 |
| `scan_tokens` | `ScanDriver.ScanTokens`, `ScanDriver.Tokenize` | 40-46 |
| `is_at_end` | `Scanner.IsAtEnd` | 48-50 |
| `scan_token` | `ScanToken` | 52-108 |
| `add_token` | `AddToken` | 110-115 |
| `advance` | `Advance` | 117-120 |
| `match` | `Match` | 122-128 |
| `peek` | `Peek` | 130-133 |
| `string` | `StringBody`, `ScanString` | 135-149 |
| `number` | `NumberEnd`, `ScanNumber` | 154-166 |
| `peek_next` | `PeekNext` | 168-171 |
| `identifier` | `ScanIdentifier` | 173-181 |
| the comment loop and the digit and alphanumeric loops | `SkipWhile` | 96-97, 155-156, 163-164, 174-175 |

`Init`, `IsAtEnd`, `Peek` and `PeekNext` are one-line definitions whose
behaviour is stated through the members that use them. `Token` is a plain
datatype, so its constructor stores the four fields unchanged by
construction.

Lines are tracked by one invariant: every step keeps `line` minus the number
of newlines before `current` constant (`Scanning.LineTracks`). So the line of
the EOF token is one more than the number of newlines in the input.

A NUMBER literal is kept as its numeral text, `Num("12.5")`, not as a binary
float. Its Python truthiness (a float is false exactly when it is zero) is
read off the digits. `Tokens.WholeTruthiness` and `Tokens.FractionTruthiness`
tie that reading to the numeral's decimal value.

Three behaviours of the code are worth stating on their own:

- `add_token` records the lexeme only when the literal is truthy
  (lox_scanner.py:112-114). So every punctuation, operator, keyword and
  identifier token has an empty lexeme, as do `""` and numerals whose value
  is zero.
- A STRING token carries the line where the string ends: `string` raises the
  line counter for every newline inside the string before it adds the token
  (lox_scanner.py:137-138, 149).
- The unexpected-character message ends with a period:
  "Unexpected character: `c`." (lox_scanner.py:108).

## Model

| member | source | states |
|---|---|---|
| Decimal.IntRoundTrip | lox_token.py:24 | The printed line number reads back as exactly the line it was printed from |
| Decimal.NatRoundTrip | lox_token.py:24 | The digits printed for a natural number read back as that number |
| Decimal.ZeroValue | lox_scanner.py:166 | A digit string denotes zero exactly when every digit is '0' |
| Tokens.WholeTruthiness | lox_scanner.py:166 | A numeral without a fraction is truthy exactly when its value is not zero |
| Tokens.FractionTruthiness | lox_scanner.py:166 | A numeral with a fraction is truthy exactly when its whole part or its fraction is not zero |
| Tokens.Repr | lox_token.py:15-25 | The rendering is `Token(type: NAME`, then `, lexeme: '…'` exactly when the lexeme is non-empty, then `, literal: …` exactly when the literal is truthy (the text in quotes for a string, the rendered number unquoted otherwise), then `, line: N)`, with nothing else in between |
| Tokens.ReprShapeUnique | lox_token.py:25 | The layout admits one string only: two renderings of the same token with that layout are equal, so the four segments are joined with nothing added |
| Keywords.IdentifierType | lox_scanner.py:177-181 | Classification yields IDENTIFIER or one of the sixteen reserved-word types, never anything else |
| KeywordFacts.KeywordSound | lox_scanner.py:13-30 | A lexeme is classified as a reserved word only when it is exactly that word's enumeration name in lower case |
| KeywordFacts.KeywordComplete | lox_scanner.py:13-30 | Every reserved-word type is recognised from its lower-case enumeration name |
| KeywordFacts.UpperCaseIsIdentifier | lox_scanner.py:177-181 | The lookup is case-sensitive: any lexeme with an upper-case letter is IDENTIFIER |
| KeywordFacts.ExactMatchOnly | lox_scanner.py:177-181 | `orchid` and `classy`, which begin with reserved words, are IDENTIFIER |
| Scanning.AdvanceKeepsLine | lox_scanner.py:117-120 | `advance` leaves the line counter alone, so the line stays in step with the newlines read exactly when the character passed is not a newline; its callers count newlines themselves |
| Scanning.AddTokenLexeme | lox_scanner.py:110-115 | `add_token` appends one token of the given type and literal at the current line and changes nothing else. Its lexeme is non-empty exactly when the literal is truthy and the scanned text is non-empty, and it is then that text |
| Scanning.Match | lox_scanner.py:122-128 | The expected character is consumed exactly when it is the next character; otherwise nothing moves, and at the end nothing is consumed |
| Scanning.SkipWhile | lox_scanner.py:96-97 | The comment loop here, which tests the end of input explicitly, and the `while p(peek())` loops at lines 155-156, 163-164 and 174-175, which stop at the end because `peek`'s NUL is neither a digit nor alphanumeric. The loop consumes a run of characters of the class, stops before the first character outside it or at the end, and passes no newline when newlines are outside the class |
| Scanning.StringBody | lox_scanner.py:136-139 | The string loop stops at the first quote or the end. It passes no quote, and it raises the line by exactly the newlines it passed |
| Scanning.ScanString | lox_scanner.py:135-149 | Without a later quote, the rest of the input is consumed, no token is emitted and one "Unterminated string." is reported at the line reached. Otherwise the scanner stops after the first closing quote and emits STRING whose literal is the text between the quotes, whose lexeme is the quoted text (empty for `""`), and whose line is the line where the string ends |
| Scanning.NumberEnd | lox_scanner.py:154-164 | The number's cursor never moves backwards, and never passes a newline |
| Scanning.ScanNumber | lox_scanner.py:154-166 | One NUMBER token is emitted at the current line, with the consumed numeral as its literal; the lexeme is the numeral unless the numeral's value is zero |
| Scanning.ScanIdentifier | lox_scanner.py:173-181 | The longest alphanumeric run is consumed, and one token is emitted with its reserved-word classification, an empty lexeme and no literal |
| Scanning.ScanToken | lox_scanner.py:52-55 | Every call consumes at least one character and keeps the cursors ordered |
| TokenSteps.StringDispatch | lox_scanner.py:100-101 | A double quote hands the rest of the lexeme to `string` |
| TokenSteps.NumberDispatch | lox_scanner.py:102-104 | A digit hands the rest of the lexeme to `number` |
| TokenSteps.IdentifierDispatch | lox_scanner.py:105-106 | A letter or underscore hands the rest of the lexeme to `identifier` |
| TokenSteps.IgnoredStep | lox_scanner.py:56-64 | A space, carriage return or tab is consumed alone, with no token. A newline does the same and also raises the line by one |
| TokenSteps.PunctuationToken | lox_scanner.py:65-84 | Each of the ten punctuation marks is consumed alone and emits its type with an empty lexeme and no literal |
| TokenSteps.OperatorToken | lox_scanner.py:85-92 | `!`, `=`, `<` or `>` followed by '=' consumes both characters and emits the two-character type; otherwise it consumes one and emits the one-character type |
| TokenSteps.SlashStep | lox_scanner.py:93-99 | A '/' not followed by '/' emits SLASH |
| TokenSteps.CommentStep | lox_scanner.py:93-97 | `//` consumes up to, but not including, the next newline or the end, and emits nothing |
| TokenSteps.ClosedStringToken | lox_scanner.py:135-149 | A string whose closing quote exists ends at the first quote and emits STRING with the text between the quotes, at the line where it ends |
| TokenSteps.UnterminatedStringToken | lox_scanner.py:140-143 | A string with no closing quote consumes the rest of the input, emits nothing and reports one "Unterminated string." at the last line |
| TokenSteps.NumberShape | lox_scanner.py:154-164 | The consumed text is a numeral: digits, optionally '.' and more digits. The run stops before a non-digit. When no fraction was taken, the run does not stop in front of a '.' followed by a digit; a '.' is taken at most once and only before a digit |
| TokenSteps.NumberToken | lox_scanner.py:154-166 | A digit scans the longest numeral and emits NUMBER with it, where a '.' is taken at most once and only before a digit |
| TokenSteps.IdentifierToken | lox_scanner.py:173-181 | A letter or underscore scans the longest alphanumeric run and emits its classification with an empty lexeme |
| TokenSteps.UnexpectedStep | lox_scanner.py:102-108 | Any other character is consumed alone and reported once as "Unexpected character: `c`." with no token |
| TokenSteps.ScanTokenStep | lox_scanner.py:52-108 | Whatever the next character, one call consumes input and raises the line by exactly the newlines it consumed. It emits at most one token, never EOF, at the line reached, whose lexeme is non-empty exactly when its literal is truthy and is then the consumed text. Otherwise it reports at most one diagnostic |
| ScanDriver.NewlinesBeforeCounts | lox_scanner.py:63-64 | The newline count the scanner keeps equals the number of newlines in the prefix read |
| ScanDriver.ScanLoop | lox_scanner.py:42-44 | The loop stops exactly at the end of the input |
| ScanDriver.ScanLoopAppends | lox_scanner.py:42-44 | The loop only appends tokens and diagnostics. Every new token is non-EOF and obeys the `add_token` lexeme rule, and the token lines never decrease |
| ScanDriver.ScanTokens | lox_scanner.py:40-46 | The result ends with exactly one EOF token, with an empty lexeme, no literal and line 1 plus the number of newlines in the input. No earlier token is EOF. Lines start at 1 and never decrease. Every lexeme is non-empty exactly when its literal is truthy. Every diagnostic is at a line of the input |
| ScanDriver.Tokenize | lox_scanner.py:40-46 | A while loop over a scanner-state variable returns the same tokens and diagnostics as `ScanTokens` |
| WorkedExamples.NumberDotIdentifier | lox_scanner.py:154-166 | `12.5.x` scans as NUMBER `12.5`, DOT, IDENTIFIER, EOF |
| WorkedExamples.UnterminatedAcrossLines | lox_scanner.py:135-143 | `"ab⏎c` yields only EOF on line 2 and one "Unterminated string." on line 2 |
| WorkedExamples.KeywordPrefixIsIdentifier | lox_scanner.py:173-181 | `orchid` scans as one IDENTIFIER, then EOF |

## Left out

- `lox.py` (the interpreter driver: file and prompt I/O, exit codes) is not part of this model. The scanner calls `self.lox.error(line, message)`, which this model records as a `Diagnostic`. The `Lox` class shown in `lox.py` defines no `error` method, so what the host does with a report is not modelled.
- `scanner.py` and `token.py` are earlier drafts of the same scanner and token, not used by it, and are not part of this model.
- Float conversion: `number` stores `float(text)`, and the model keeps the numeral text instead. A Python float is falsy exactly when it is zero, which the model reads off the digits.
- Tokens.Truthy: the digit test differs from Python for a numeral whose value is non-zero but underflows to 0.0, such as `0.` followed by 400 zeros and a `1`. Python would then drop the lexeme; the model keeps it.
- Tokens.Repr: how Python prints a float (`12.0`, `1e+16`) is not modelled. The number text is left to the `renderNumber` parameter; given that text, `Repr` fixes every character of the rendering (`Tokens.ReprShapeUnique`).
- ScanDriver.ScanTokens: models one call of `scan_tokens` on a freshly built scanner. The Python method appends EOF to the object's own `tokens` list and returns that list, so a second call on the same object would append a second EOF to the list the first call returned; that aliasing and repeated use are not modelled.
- `globals().update(TokenType.__members__)` only injects the enumeration names into the module; the model names the types directly.
- `TokenType` enumeration members are taken to be truthy (plain `Enum` members are). So `if not token` in `identifier` falls back to IDENTIFIER only when the table has no entry.
- Characters are Dafny `char` values compared by code point, as Python compares one-character strings. No Unicode category or normalisation is involved anywhere in the scanner.
