# openbarcode.js encoders in Dafny

This project models the encoding core of openbarcode.js, a small JavaScript
library that turns a code into the modules of a linear barcode (1 = dark bar,
0 = light space). It covers three symbologies:

- **UPC-A** (`barcode.UPC`): the code is read as a number and printed back,
  which strips leading zeros. It must then have 11 or 12 characters. The first
  11 digits are kept and a mod-10 check digit is appended, with even positions
  weighted 3. The guarded string `*` + 6 digits + `#` + 6 digits + `*` is drawn
  in 95 modules: number set L on the left, R on the right.
- **EAN-13** (`barcode.EAN`): the same normalisation, with 12 or 13 characters.
  The first 12 digits are kept, with odd positions weighted 3 in the check
  digit. The leading digit is not drawn itself. It is the parity selector that
  picks number set L or G for each left-half digit. The right half uses R.
- **Code 39** (`barcode.Code39`): the text is upper-cased and wrapped in the
  start/stop character `*`. Each character is drawn as its 12-module table
  entry followed by one light gap module. A character without a table entry
  makes the encoding fail.

Modules, one file each:

| module | contents |
|---|---|
| `Wrappers` | `Option` and `Result` |
| `Decimal` | digit strings; `parseInt(s).toString()` as exact integer arithmetic |
| `Checksum` | the weighted mod-10 check digit shared by UPC-A and EAN-13 |
| `Patterns` | number sets L, G and R, the guards, and drawing a guarded string |
| `Linear` | the shared input type, errors and length normalisation |
| `Upc`, `Ean`, `Code39` | the three encoders |

Each JavaScript object that fills its `_bars` and `_code` fields in place is a
class: `Upc.Upc`, `Ean.Ean` and `Code39.Code39`. Each has a `GenerateBars`
method that appends one character's modules per loop step. The method is proved
equal to a specification function (`Upc.Bars`, `Ean.Bars`, `Code39.Encode`).
That function's layout, injectivity and failure behaviour are proved as lemmas.

A JavaScript constructor that throws becomes a factory method `Create`, which
returns a `Result`, because a Dafny constructor cannot fail. `_checkDigit` is a
module-level method with its loop. It takes the code as a parameter and is
proved equal to a checksum function.

A string code is read as a number, so `"01234567890"` becomes `"1234567890"`.
That is ten characters, and the UPC-A length check rejects it
(`Upc.LeadingZeroExampleRejected`).

## Model

| member | source | states |
|---|---|---|
| `Linear.Admissible` | openbarcode.js:49-53 | the inputs inside the model: digit strings and integers below 10^21 |
| `Linear.Normalise` | openbarcode.js:49-53 | the string whose length is checked is "NaN" exactly for the empty string; otherwise it is the canonical decimal form of the number the input denotes |
| `Linear.NormaliseStripsZeros` | openbarcode.js:49-51 | for a digit string, normalising removes exactly its leading zeros, keeping one "0" for an all-zero string |
| `Linear.LeadingZeroDropped` | openbarcode.js:49-51 | a string with one leading zero loses exactly that character |
| `Linear.LengthWindow` | openbarcode.js:53 | the normalised code has k or k+1 characters if and only if the input is not empty and denotes a number in [10^(k-1), 10^(k+1)) |
| `Decimal.Value` | openbarcode.js:50 | the number `parseInt` reads from a digit string, most significant digit first |
| `Decimal.ToDecimal` | openbarcode.js:53 | `toString()` of a number: a non-empty digit string, whose value is the number (`Decimal.ToDecimalValue`) |
| `Decimal.ParseAndPrint` | openbarcode.js:50 | `parseInt(s).toString()` on a digit string: "NaN" exactly for the empty string, otherwise a canonical digit string with the same value |
| `Decimal.ParseAndPrintStrips` | openbarcode.js:50 | `parseInt(s).toString()` on a non-empty digit string equals stripping its leading zeros |
| `Decimal.StripLeadingZeros` | openbarcode.js:50 | the stripped string is canonical and is a suffix of the input |
| `Decimal.CanonicalRoundTrip` | openbarcode.js:50 | printing the value of a canonical digit string gives the string back |
| `Decimal.ToDecimalValue` | openbarcode.js:50 | printing a number and reading it back gives the number |
| `Decimal.ToDecimalLength` | openbarcode.js:53 | the printed length of n is at most k if and only if n < 10^k |
| `Decimal.LeadingDigit` | openbarcode.js:153 | the first digit d of a digit string places its value in [d·10^(len-1), (d+1)·10^(len-1)) |
| `Checksum.WeightedSum` | openbarcode.js:77-85 | the sum of the digits, each multiplied by the weight its position's parity selects (UPC-A: 3 at even positions; EAN-13, lines 175-182: 3 at odd positions) |
| `Checksum.CheckDigitFor` | openbarcode.js:87-89 | the check digit brings the weighted sum to a multiple of ten |
| `Checksum.CheckDigitUnique` | openbarcode.js:87-89 | no other digit brings the sum to a multiple of ten |
| `Checksum.CompletesExactly` | openbarcode.js:74-90 | appending a weight-1 digit completes the code if and only if it is the check digit |
| `Patterns.LSet` | openbarcode.js:189-204 | number set L, the seven modules of each digit (also the UPC-A table at lines 115-118) |
| `Patterns.GSet` | openbarcode.js:206-221 | number set G, the seven modules of each digit |
| `Patterns.RSet` | openbarcode.js:223-238 | number set R, the seven modules of each digit (also the UPC-A table at lines 121-131) |
| `Patterns.Guard` | openbarcode.js:118 | the normal guard `*`: modules 1 0 1 |
| `Patterns.Centre` | openbarcode.js:118 | the centre guard `#`: modules 0 1 0 1 0 |
| `Patterns.Lookup` | openbarcode.js:113-135 | `sequence[char]` in the table of a number set: the guards are the same in every set, a digit takes its set's pattern |
| `Patterns.Render` | openbarcode.js:101-103 | the `concat` loop: the modules of each character of the guarded string in turn, mapped with its index (also lines 249-251 and 370-372) |
| `Patterns.RIsComplementOfL` | openbarcode.js:113-135 | each right-hand (R) digit pattern is the bitwise complement of its left-hand (L) pattern |
| `Patterns.GIsReverseOfR` | openbarcode.js:206-238 | each G pattern is its R pattern read backwards |
| `Patterns.DigitPatternShape` | openbarcode.js:189-238 | every digit pattern is 7 modules with three colour changes; R alone starts dark; L alone has an odd number of dark modules |
| `Patterns.DigitPatternsDistinct` | openbarcode.js:189-238 | a digit pattern determines both its digit and its number set |
| `Patterns.RenderAppend` | openbarcode.js:101-103 | drawing a concatenation concatenates the drawings, with indices continuing |
| `Patterns.RenderGuarded` | openbarcode.js:99-103 | drawing `*` left `#` right `*` gives guard, left digit run, centre guard, right digit run, guard |
| `Patterns.SymbolLayout` | openbarcode.js:99-103 | that symbol is 95 modules, with guards at 0, 45 and 92 and digit k of each half at a fixed 7-module slot |
| `Upc.Complete` | openbarcode.js:97 | the eleven digits followed by their check digit |
| `Upc.SetAt` | openbarcode.js:121-132 | indices 7 and above of the guarded string draw from number set R, the rest from L |
| `Upc.Mapper` | openbarcode.js:113-135 | the modules of a character at an index: its pattern in the set that index selects |
| `Upc.Guarded` | openbarcode.js:99 | `*`, the first six digits, `#`, the last six digits, `*` |
| `Upc.Bars` | openbarcode.js:96-104 | the modules of a complete code: every character of the guarded string mapped at its index, in order |
| `Upc.CheckDigitOf` | openbarcode.js:74-90 | the value `_checkDigit` returns for eleven digits: the digit that brings the sum, even positions weighted 3, to a multiple of ten |
| `Upc.CheckDigitCompletes` | openbarcode.js:74-90 | the appended digit makes the 12-digit code valid if and only if it is the computed check digit |
| `Upc.CheckDigit` | openbarcode.js:74-90 | the loop returns the check digit of the 11 digits, and the completed code is valid |
| `Upc.MapperSides` | openbarcode.js:113-135 | on the right of the centre guard a digit is drawn as the complement of its left pattern; the guards are the same on both sides |
| `Upc.BarsAreSymbol` | openbarcode.js:96-104 | the character-by-character drawing equals guard + 6 L digits + centre + 6 R digits + guard |
| `Upc.BarsLaidOut` | openbarcode.js:96-135 | the bars of a 12-digit code follow the symbol layout, L on the left and R on the right |
| `Upc.LeftDigitAt` | openbarcode.js:96-135 | code digit k < 6 sits at modules 3+7k to 10+7k in number set L |
| `Upc.RightDigitAt` | openbarcode.js:96-135 | code digit 6 ≤ k < 12 sits at modules 8+7k to 15+7k in number set R |
| `Upc.BarsLayout` | openbarcode.js:96-135 | 95 modules: guards at 0, 45 and 92, every left digit in L and every right digit in R at its slot |
| `Upc.BarsDetermineCode` | openbarcode.js:96-135 | two codes with equal bars are equal |
| `Upc.AcceptedInputs` | openbarcode.js:49-55 | the length check passes if and only if the input denotes a number of 11 or 12 digits, leading zeros not counted |
| `Upc.LeadingZeroExampleRejected` | openbarcode.js:49-55 | "01234567890" normalises to ten characters and so fails the length check |
| `Upc.Upc.constructor` | openbarcode.js:57-59 | keeps the 11 digits, completes them with the check digit and draws `Bars` of the result |
| `Upc.Upc.GenerateBars` | openbarcode.js:96-104 | appends the check digit to the code, which becomes valid, and sets the bars to `Bars(code)` |
| `Upc.Create` | openbarcode.js:46-60 | fails with "Invalid UPC barcode length" exactly when the normalised code is not 11 or 12 characters; otherwise encodes its first 11 |
| `Ean.UsesL` | openbarcode.js:270-337 | the switch on the selector: the left-half indices whose digit is drawn from L |
| `Ean.SetAt` | openbarcode.js:267-338 | indices above 6 draw from R; the others from L where the switch says so and from G otherwise |
| `Ean.Mapper` | openbarcode.js:261-342 | the modules of a character at an index under a selector: its pattern in the set chosen there |
| `Ean.Guarded` | openbarcode.js:247 | `*`, digits 1-6, `#`, digits 7-12, `*`: digit 0 is left out |
| `Ean.Bars` | openbarcode.js:244-252 | the modules of a complete code under a selector: every character of the guarded string mapped at its index, in order |
| `Ean.SelectorAsWritten` | openbarcode.js:153 | the selector as written: the first digit for string input, none (NaN) for number input |
| `Ean.SetAtAsWritten` | openbarcode.js:267-338 | the set `_mapper` picks as written: R above index 6; no set at all at indices up to 6 when the selector is NaN |
| `Ean.CellsAt` | openbarcode.js:250 | what one `concat` appends as written: the modules of the pattern, or one `undefined` when no set was picked |
| `Ean.DrawAsWritten` | openbarcode.js:249-251 | the bars array as written: the entries of every character of the guarded string in order |
| `Ean.NaNSelectorDrawing` | openbarcode.js:249-251 | with a NaN selector the array is seven `undefined` entries, then the centre guard, digits 7-12 from R and the end guard |
| `Ean.CheckDigitOf` | openbarcode.js:172-187 | the value `_checkDigit` returns for twelve digits: the digit that brings the sum, odd positions weighted 3, to a multiple of ten |
| `Ean.CheckDigitCompletes` | openbarcode.js:172-187 | the appended digit makes the 13-digit code valid if and only if it is the computed check digit |
| `Ean.CheckDigit` | openbarcode.js:172-187 | the loop returns the check digit of the 12 digits, and the completed code is valid |
| `Ean.CheckDigitExample` | openbarcode.js:172-187 | 400638133393 completes to 4006381333931 |
| `Ean.ParityMatchesStandard` | openbarcode.js:267-338 | the switch on the selector picks the parity pattern of ISO/IEC 15420 for each leading digit |
| `Ean.FirstPositionL` | openbarcode.js:270-337 | the first left-half digit is drawn from L for every selector |
| `Ean.ParityWeight` | openbarcode.js:270-337 | selector 0 draws the whole left half from L; every other selector draws exactly three left digits from G |
| `Ean.LeadingDigitDetermined` | openbarcode.js:270-337 | different selectors give different left-half number sets |
| `Ean.Selector` | openbarcode.js:153 | the parity selector is the leading digit of the number the input denotes, and it is never 0 |
| `Ean.AcceptedInputs` | openbarcode.js:145-151 | the length check passes if and only if the input denotes a number of 12 or 13 digits |
| `Ean.BarsAreSymbol` | openbarcode.js:244-252 | the drawing equals guard + digits 1-6 in the selected sets + centre + digits 7-12 in R + guard; digit 0 is not drawn |
| `Ean.BarsLaidOut` | openbarcode.js:244-342 | the bars of a 13-digit code follow the symbol layout with the selector's left-half sets |
| `Ean.LeftDigitAt` | openbarcode.js:244-342 | code digit 1 ≤ k ≤ 6 sits at modules 7k-4 to 7k+3 in the set the selector picks for position k |
| `Ean.RightDigitAt` | openbarcode.js:244-342 | code digit 7 ≤ k ≤ 12 sits at modules 7k+1 to 7k+8 in number set R |
| `Ean.BarsLayout` | openbarcode.js:244-342 | 95 modules: guards at 0, 45 and 92, and every digit but the first at its slot |
| `Ean.BarsDetermineCode` | openbarcode.js:244-342 | when the selector is the code's first digit, the bars determine all 13 digits, the undrawn first digit included |
| `Ean.DrawWithSelector` | openbarcode.js:244-252 | with a numeric selector, the loop as written draws exactly the modules of `Bars` |
| `Ean.NumberInputDrawsUndefined` | openbarcode.js:261-342 | as written, string input draws the symbol, but number input gives seven `undefined` entries for the start guard and the six left digits, then the centre guard, digits 7-12 and the end guard: 57 entries instead of 95 modules |
| `Ean.Ean.constructor` | openbarcode.js:153-157 | keeps the 12 digits, takes the first as selector, completes the code with its check digit and draws `Bars` |
| `Ean.Ean.GenerateBars` | openbarcode.js:244-252 | appends the check digit, which makes the code valid, sets the bars to `Bars(base, code)` and leaves the selector unchanged |
| `Ean.Create` | openbarcode.js:142-158 | fails with "Invalid EAN barcode length" exactly when the normalised code is not 12 or 13 characters; otherwise encodes its first 12 with the leading digit as selector |
| `Code39.Table` | openbarcode.js:382-427 | the twelve modules of each of the 44 characters with an entry, and no entry for any other character |
| `Code39.Mapper` | openbarcode.js:429 | a character's entry followed by one light module, or the failure of a character without an entry |
| `Code39.Upper` | openbarcode.js:352 | `toUpperCase` on one ASCII character: a lower-case letter becomes its capital, anything else is kept |
| `Code39.UpperCase` | openbarcode.js:352 | `toUpperCase` on ASCII text, character by character, keeping the length |
| `Code39.Guarded` | openbarcode.js:368 | the text between two start/stop characters `*` |
| `Code39.Modules` | openbarcode.js:370-372 | the `concat` loop over characters that all have an entry: each character's mapping in turn |
| `Code39.Encode` | openbarcode.js:367-373 | the modules of every character of `*` + code + `*`, or the failure at the first character without an entry |
| `Code39.SupportedCharacters` | openbarcode.js:382-427 | exactly the digits, the capital letters, `- . space $ / + %` and `*` have a table entry |
| `Code39.TableShape` | openbarcode.js:382-427 | every table entry is 12 modules, beginning and ending with a bar |
| `Code39.MapperShape` | openbarcode.js:381-430 | a character maps to its entry plus one light module (13 modules) exactly when it has an entry; otherwise the mapping fails with that character |
| `Code39.UpperCaseIdempotent` | openbarcode.js:352 | upper-casing changes only lower-case letters, leaves none, and is idempotent |
| `Code39.UpperSupported` | openbarcode.js:352 | after upper-casing, a character has an entry exactly when it had one or was a lower-case letter |
| `Code39.FirstUnsupported` | openbarcode.js:370-371 | the index of a character without an entry, all characters before it having one |
| `Code39.ModulesLength` | openbarcode.js:370-372 | drawing n supported characters gives 13n modules |
| `Code39.ModulesLast` | openbarcode.js:370-372 | the last 13 modules are the last character's; the ones before are the drawing of the rest |
| `Code39.ModulesAt` | openbarcode.js:370-372 | modules 13i to 13i+13 are the mapping of character i |
| `Code39.EncodeSucceeds` | openbarcode.js:367-373 | encoding succeeds if and only if every character of the code has an entry |
| `Code39.EncodeLayout` | openbarcode.js:367-373 | a successful encoding of n characters has 13(n+2) modules, opened and closed by `*` and its gap |
| `Code39.EncodeCharacters` | openbarcode.js:367-373 | between the start and stop characters, slot i+1 holds the mapping of character i |
| `Code39.EncodeFailure` | openbarcode.js:367-373 | a failed encoding names a character of the code that has no entry, all characters before it having one |
| `Code39.Code39.constructor` | openbarcode.js:349-352 | keeps the upper-cased text, with no bars yet |
| `Code39.Code39.GenerateBars` | openbarcode.js:367-373 | without failure exactly when the encoding succeeds, with the bars equal to the encoding; otherwise reports the encoding's failure |
| `Code39.Create` | openbarcode.js:349-354 | succeeds exactly when the upper-cased text encodes, with that code and those bars; otherwise fails with the first unsupported character |

## Findings

| source | as written | input that shows it | evidently intended | confidence | as-written member | corrected member |
|---|---|---|---|---|---|---|
| openbarcode.js:153 | The selector is read as the first character of the constructor's argument. For a number (the documented parameter type) that character is undefined and the selector is NaN. The switch at lines 270-337 then matches no case, so the start guard and the six left digits each add one `undefined` to the bars. | `new EAN(400638133393)` | the selector is the first digit of the normalised code, for string and number input alike | high; not executed | `Ean.NumberInputDrawsUndefined` (model `Ean.SelectorAsWritten`) | `Ean.Selector`, used by `Ean.Create` |

## Left out

- The `bars()` and `code()` accessors of `barcode.Linear` (openbarcode.js:28-38) are the fields `bars` and `code` of each class.
- The prototype wiring (openbarcode.js:66-67, 164-165, 360-361) is plumbing with no behaviour to model.
- `barcode.Exception` (openbarcode.js:438-440) is the error value `InvalidLength(message)`. A Code 39 lookup failure, a TypeError in JavaScript, is `UnsupportedCharacter(c)`.
- Linear.Admissible: digit strings and integers below 10^21 are the only inputs. `parseInt` on strings with other characters, negative or fractional numbers, and numbers printed in exponent form are not modelled.
- Decimal.ParseAndPrint: integers are exact. JavaScript rounds integers above 2^53, but only for inputs of 16 or more digits, which both length checks reject either way.
- Patterns.Lookup: a character with no entry gives no modules, where JavaScript gives `undefined`. UPC-A and EAN-13 only look up digits and guards, so this case is never reached. The as-written EAN-13 number-input path is modelled separately, with its `undefined` entries.
- The tables `_codeL`, `_codeG` and `_codeR` build a fresh object on every call. They are the constants `LSet`, `GSet` and `RSet`.
- `_generateBars` for EAN-13 assigns its loop counter to an undeclared global `i` (openbarcode.js:249). The model's counter is local, and nothing else reads it.
- Code39.Code39.constructor: requires ASCII text, because `toUpperCase` is modelled for ASCII letters only. Unicode case mapping (`ß` to `SS`, for instance) is left out.
- Code39.Create: the same ASCII-only restriction as its constructor.
- Code39.Code39.GenerateBars: on failure the JavaScript throws from `concat` mid-loop. The contract says nothing about the bars built up to that point, which no caller can observe.
- Code39.TableShape: only the 12-module length and the bar at each end are proved. The wide/narrow structure of Code 39 (five bars, four spaces, three of the nine elements wide) is not proved.
- `_mapper` for Code 39 receives the index and ignores it. The model's mapper takes only the character.
