# Brazilian document helpers of angular-archetype, in Dafny

This project models the part of the angular-archetype application that has real logic: the
validation of Brazilian taxpayer numbers and the string and collection helpers around it.

- **CPF and CNPJ validation** (`validateCPF`, `validateCNPJ`). Non-digits are stripped first. The
  value is then rejected when it has the wrong length or is one of the ten repeated-digit
  placeholders. Otherwise its two modulo-11 check digits are compared with the Receita Federal
  scheme. Both functions are imperative in the source and are modelled as methods. The
  check-digit loops are methods proved equal to recursive reference sums
  (`AscendingSum`, `CyclingSum`). Those sums are in turn proved equal to the published weight
  tables: 10..2 and 11..2 for CPF; 5,4,3,2,9..2 and 6,5,4,3,2,9..2 for CNPJ.
- **The form validators** `CustomValidators.cpf/cnpj/phone/cep`. Each is a function from the
  control's value to an optional error that carries the value. An empty value always passes.
- **Digit stripping and fixed-position formatting** (`removeFormatting`, `formatCPF`,
  `formatCNPJ`). These are modelled with their regular expressions' exact semantics. The
  patterns are unanchored and run on an all-digit string. A string with fewer digits than the
  pattern needs comes back unchanged. A string with more has its first 11 (CPF) or 14 (CNPJ)
  digits punctuated, and the rest is appended unchanged.
- **Small helpers**: `truncate`, `capitalize`, `isNullOrEmpty`, `isValidEmail`,
  `removeDuplicates` and `groupBy`. `groupBy` mutates an accumulator record and is modelled as a
  method with a loop. `removeDuplicates` is a method too.
- **The `document` pipe** (`DocumentPipe.transform`). It formats only when the digit count is
  exactly right for the requested kind; otherwise it returns the input unchanged.

The modules follow the source files. `Helpers` is `src/app/core/utils/helpers.ts`.
`CustomValidators` is `src/app/shared/validators/custom-validators.ts`. `DocumentPipe` is
`src/app/shared/pipes/document/document-pipe.ts`. `Wrappers` holds the `Option` and `Result`
types.

On a wrong digit count `formatCPF`/`formatCNPJ` return the stripped digits rather than the
original input (see `Helpers.FormatCPF`). With too few digits the pattern does not match, so the stripped digits come
back without punctuation. With too many, the first 11 or 14 digits are punctuated and the rest
follow. The `document` pipe is the operation that checks the exact count and returns the original
input otherwise.

## Model

| member | source | states |
|---|---|---|
| CustomValidators.DigitValue | src/app/shared/validators/custom-validators.ts:93 | `parseInt` of one digit character is its value 0..9, and that value names the character back |
| Helpers.RemoveFormatting | src/app/core/utils/helpers.ts:77-79 | the result contains only digits, is no longer than the input, and equals an input that is all digits already |
| Helpers.RemoveFormattingConcat | src/app/core/utils/helpers.ts:77-79 | stripping a concatenation is the concatenation of the stripped parts, so the digits keep their order |
| Helpers.RemoveFormattingAt | src/app/core/utils/helpers.ts:77-79 | stripping keeps a character exactly when it is a digit, in its place among the stripped neighbours |
| Helpers.RemoveFormattingIdempotent | src/app/core/utils/helpers.ts:77-79 | stripping twice is stripping once |
| Helpers.RemoveFormattingIgnoresNonDigit | src/app/core/utils/helpers.ts:77-79 | inserting a non-digit anywhere does not change the stripped result |
| Helpers.CpfPattern | src/app/core/utils/helpers.ts:63 | the unanchored CPF regular expression on a digit string: fewer than 11 digits unchanged; otherwise the first 11 fit `###.###.###-##` and the remaining digits follow |
| Helpers.CnpjPattern | src/app/core/utils/helpers.ts:71 | the unanchored CNPJ regular expression: fewer than 14 digits unchanged; otherwise the first 14 fit `##.###.###/####-##` and the remaining digits follow |
| Helpers.StripCpfPieces | src/app/core/utils/helpers.ts:63-79 | stripping the CPF pieces joined by `.`, `.` and `-`, followed by any further digits, gives back the digits |
| Helpers.StripCnpjPieces | src/app/core/utils/helpers.ts:71-79 | stripping the CNPJ pieces joined by `.`, `.`, `/` and `-`, followed by any further digits, gives back the digits |
| Helpers.CpfPatternRoundTrip | src/app/core/utils/helpers.ts:63 | stripping the punctuated CPF gives back exactly the digits it was made from |
| Helpers.CnpjPatternRoundTrip | src/app/core/utils/helpers.ts:71 | stripping the punctuated CNPJ gives back exactly the digits it was made from |
| Helpers.FormatCPF | src/app/core/utils/helpers.ts:61-64 | with fewer than 11 digits the stripped digits come back; with exactly 11 the result is `ddd.ddd.ddd-dd`, length 14; with more the first 11 are punctuated and the rest appended |
| Helpers.FormatCNPJ | src/app/core/utils/helpers.ts:69-72 | with fewer than 14 digits the stripped digits come back; with exactly 14 the result is `dd.ddd.ddd/dddd-dd`, length 18; with more the first 14 are punctuated and the rest appended |
| Helpers.FormatCPFRoundTrip | src/app/core/utils/helpers.ts:61-79 | `removeFormatting(formatCPF(s)) == removeFormatting(s)` for every string |
| Helpers.FormatCNPJRoundTrip | src/app/core/utils/helpers.ts:69-79 | `removeFormatting(formatCNPJ(s)) == removeFormatting(s)` for every string |
| Helpers.FormatCPFIdempotent | src/app/core/utils/helpers.ts:61-64 | formatting a formatted CPF changes nothing |
| Helpers.FormatCNPJIdempotent | src/app/core/utils/helpers.ts:69-72 | formatting a formatted CNPJ changes nothing |
| Helpers.FormatCPFExample | src/app/core/utils/helpers.ts:58-64 | an example: `12345678901` becomes `123.456.789-01` |
| Helpers.FormatCNPJExample | src/app/core/utils/helpers.ts:66-72 | the example `11444777000161` becomes `11.444.777/0001-61` |
| Helpers.ToUpper | src/app/core/utils/helpers.ts:117 | a lower-case letter becomes the upper-case letter at the same place in the alphabet; every other character is unchanged; the result is never a lower-case letter |
| Helpers.ToLower | src/app/core/utils/helpers.ts:117 | an upper-case letter becomes the lower-case letter at the same place in the alphabet; every other character is unchanged; the result is never an upper-case letter |
| Helpers.LowerAll | src/app/core/utils/helpers.ts:117 | `toLowerCase` keeps the length, turns each upper-case letter into the lower-case letter at the same place in the alphabet, and leaves every other character unchanged |
| Helpers.Capitalize | src/app/core/utils/helpers.ts:116-118 | the length is kept, the first character is upper-cased, every other character is lower-cased; empty input gives empty output |
| Helpers.CapitalizeIdempotent | src/app/core/utils/helpers.ts:116-118 | capitalizing twice is capitalizing once |
| Helpers.Truncate | src/app/core/utils/helpers.ts:123-126 | a text no longer than maxLength comes back unchanged; a longer one becomes its first maxLength−\|suffix\| characters plus the suffix, of total length maxLength; when maxLength is below the suffix length only the suffix remains |
| Helpers.TruncateIdempotent | src/app/core/utils/helpers.ts:123-126 | truncating a truncated text again with the same arguments changes nothing |
| Helpers.TrimStart | src/app/core/utils/helpers.ts:12 | `trim`'s leading half: the removed prefix is all whitespace and what remains does not start with whitespace |
| Helpers.Trim | src/app/core/utils/helpers.ts:12 | `trim`: the result is the part of the input that starts where its leading whitespace ends, with only whitespace before and after it; it starts and ends with a non-whitespace character, and is empty exactly when the input is all whitespace |
| Helpers.TrimEnd | src/app/core/utils/helpers.ts:12 | `trim`'s trailing half: the removed suffix is all whitespace and what remains does not end with whitespace |
| Helpers.CutEnds | src/app/core/utils/helpers.ts:12 | cutting whitespace off the front and then off the back of a string leaves the part of it that starts where the leading whitespace ends, with only whitespace on either side |
| Helpers.IsNullOrEmpty | src/app/core/utils/helpers.ts:11-13 | true exactly when the value is empty or consists of whitespace only |
| Helpers.EmailPattern | src/app/core/utils/helpers.ts:85-86 | the anchored regular expression: a non-empty run without `@` or whitespace, `@`, a non-empty run, `.`, a non-empty run to the end; whatever it matches has at least five characters and contains `@` and `.` |
| Helpers.IsValidEmail | src/app/core/utils/helpers.ts:84-87 | an accepted address has at least five characters, no whitespace, and exactly one `@` |
| Helpers.IndexOf | src/app/core/utils/helpers.ts:85 | the first occurrence of an element: it is there and does not occur earlier, or the length exactly when the element is absent; it places the `@` of an address and gives the first-occurrence order that `removeDuplicates` keeps |
| Helpers.IsValidEmailSound | src/app/core/utils/helpers.ts:84-87 | whatever `isValidEmail` accepts matches the pattern: a non-empty part without `@` or whitespace, `@`, then a part with a `.` that is neither its first nor its last character |
| Helpers.IsValidEmailComplete | src/app/core/utils/helpers.ts:84-87 | whatever matches that pattern is accepted, so the function and the pattern agree in both directions |
| Helpers.RemoveDuplicates | src/app/core/utils/helpers.ts:131-133 | the result has no repeats, holds exactly the elements of the input, and keeps them in first-occurrence order |
| Helpers.Select | src/app/core/utils/helpers.ts:139-146 | the items of one key, in input order: each of them has that key |
| Helpers.SelectContainsItem | src/app/core/utils/helpers.ts:140-144 | every item lands in the group of its own key |
| Helpers.KeysOf | src/app/core/utils/helpers.ts:140-143 | a key is present exactly when some item has it |
| Helpers.GroupByAsWritten | src/app/core/utils/helpers.ts:138-147 | the call throws exactly when some item's key is a property name the accumulator inherits; the reported key is that of the first such item; otherwise it returns the grouping |
| Helpers.GroupBy | src/app/core/utils/helpers.ts:138-147 | the groups' keys are exactly the items' keys, and each group holds exactly that key's items in input order, never empty |
| Helpers.Accumulate | src/app/core/utils/helpers.ts:139-146 | the `reduce` over the items: every group in the accumulator is non-empty, since a group is created only to receive an item |
| Helpers.AccumulateStep | src/app/core/utils/helpers.ts:140-144 | one more item pushes that item onto the group of its key, created empty if missing |
| Helpers.AccumulateGroups | src/app/core/utils/helpers.ts:139-146 | the reduction over all items yields such a grouping |
| Helpers.GroupKeysStep | src/app/core/utils/helpers.ts:141-143 | creating the missing group adds the new item's key and no other |
| Helpers.GroupOfNextItem | src/app/core/utils/helpers.ts:141-144 | the new item's group after the push is the selection of its key over the longer prefix |
| Helpers.GroupedStep | src/app/core/utils/helpers.ts:141-144 | adding one item to its group, created if missing, keeps the grouping right for the longer prefix |
| CustomValidators.IsValidCPF | src/app/shared/validators/custom-validators.ts:64-111 | what `validateCPF` accepts: 11 digits once stripped, not a placeholder, both check digits right; such a value has at least 11 characters |
| CustomValidators.IsValidCNPJ | src/app/shared/validators/custom-validators.ts:116-169 | what `validateCNPJ` accepts: 14 digits once stripped, not a placeholder, both check digits right; such a value has at least 14 characters |
| CustomValidators.CpfCheckDigit | src/app/shared/validators/custom-validators.ts:96-97 | the CPF remainder rule applied to the sum with weights rising from 2 at the right; always a single digit 0..9 |
| CustomValidators.CnpjCheckDigit | src/app/shared/validators/custom-validators.ts:152 | the CNPJ remainder rule applied to the sum with weights cycling through 2..9 from the right; always a single digit 0..9 |
| CustomValidators.CpfDigitLoop | src/app/shared/validators/custom-validators.ts:89-97 | the loop with weights `11 - i` (or `12 - i`) and the remainder mapping compute the CPF check digit of the digits given |
| CustomValidators.ValidateCPF | src/app/shared/validators/custom-validators.ts:64-111 | true exactly when the stripped value has 11 digits, is not a placeholder and both check digits are right; false for empty input and for every other length |
| CustomValidators.CnpjDigitLoop | src/app/shared/validators/custom-validators.ts:144-152 | the `pos` counter that starts at `length - 7`, counts down and resets to 9 below 2 hands out the weights 2..9 cycling from the rightmost digit, so the loop computes the CNPJ check digit |
| CustomValidators.CounterStep | src/app/shared/validators/custom-validators.ts:148-149 | one decrement of the counter, with its reset, moves one step along the cycle of weights |
| CustomValidators.ValidateCNPJ | src/app/shared/validators/custom-validators.ts:116-169 | true exactly when the stripped value has 14 digits, is not a placeholder and both check digits are right |
| CustomValidators.CpfValidator | src/app/shared/validators/custom-validators.ts:7-15 | no error for an empty value or a valid CPF, otherwise a `cpf` error carrying the value |
| CustomValidators.CnpjValidator | src/app/shared/validators/custom-validators.ts:20-28 | no error for an empty value or a valid CNPJ, otherwise a `cnpj` error carrying the value |
| CustomValidators.PhoneValidator | src/app/shared/validators/custom-validators.ts:33-43 | no error exactly when the value is empty or has 10 or 11 digits, otherwise a `phone` error carrying the value |
| CustomValidators.CepValidator | src/app/shared/validators/custom-validators.ts:48-58 | no error exactly when the value is empty or has 8 digits, otherwise a `cep` error carrying the value |
| CustomValidators.Ramp | src/app/shared/validators/custom-validators.ts:92-93 | the CPF weights as a sequence: one weight per digit, the rightmost `w`, each one larger than the weight to its right |
| CustomValidators.Cycle | src/app/shared/validators/custom-validators.ts:145-149 | the CNPJ weights as a sequence: one weight per digit, the rightmost `w`, running through 2..9 and wrapping to 2 after 9 leftwards |
| CustomValidators.WeightedSumSnoc | src/app/shared/validators/custom-validators.ts:92-93 | a weighted sum read left to right equals the same sum read from the right end |
| CustomValidators.AscendingSumIsWeighted | src/app/shared/validators/custom-validators.ts:92-93 | the CPF sum equals the left-to-right sum with the rising weights |
| CustomValidators.CyclingSumIsWeighted | src/app/shared/validators/custom-validators.ts:147-149 | the CNPJ sum equals the left-to-right sum with the cycling weights |
| CustomValidators.CpfDigitOfSum | src/app/shared/validators/custom-validators.ts:96-97 | ten times the sum modulo 11, with 10 mapped to 0, is the digit that completes the sum to a multiple of 11, or 0 when the sum leaves remainder 1 |
| CustomValidators.CnpjDigitOfSum | src/app/shared/validators/custom-validators.ts:152 | the digit is 0 for a remainder below 2, and otherwise completes the sum to a multiple of 11 |
| CustomValidators.SameRemainderRule | src/app/shared/validators/custom-validators.ts:96-152 | the CPF rule (ten times the sum modulo 11, 10 read as 0) and the CNPJ rule (0 below remainder 2, else 11 minus the remainder) give the same digit for every sum |
| CustomValidators.CpfDigitByTable | src/app/shared/validators/custom-validators.ts:92-107 | the CPF check digit uses the weights 10,9,…,2 over nine digits and 11,10,…,2 over ten |
| CustomValidators.CnpjDigitByTable | src/app/shared/validators/custom-validators.ts:141-165 | the CNPJ check digit uses the weights 5,4,3,2,9,8,7,6,5,4,3,2 over twelve digits and 6,5,4,3,2,9,…,2 over thirteen |
| CustomValidators.IsValidCPFByWeights | src/app/shared/validators/custom-validators.ts:89-110 | an 11-digit non-placeholder CPF is valid exactly when digit 10 is `(Σ dᵢ·(11−i))·10 mod 11` (10 read as 0) and digit 11 the same over ten digits with weights `12−i` |
| CustomValidators.IsValidCNPJByWeights | src/app/shared/validators/custom-validators.ts:141-168 | a 14-digit non-placeholder CNPJ is valid exactly when both check digits match the weight tables and the `sum mod 11 < 2` rule |
| CustomValidators.WeightedSumRepeated | src/app/shared/validators/custom-validators.ts:92-93 | the weighted sum of a repeated digit is the digit times the sum of the weights |
| CustomValidators.RepeatedIsCpfPlaceholder | src/app/shared/validators/custom-validators.ts:74-83 | each of the ten 11-character strings of one repeated digit is on the CPF placeholder list |
| CustomValidators.RepeatedIsCnpjPlaceholder | src/app/shared/validators/custom-validators.ts:126-135 | each of the ten 14-character strings of one repeated digit is on the CNPJ placeholder list |
| CustomValidators.RepeatedCpfDigits | src/app/shared/validators/custom-validators.ts:89-107 | for a repeated digit d, both CPF check digits computed over the repeated base are d itself |
| CustomValidators.RepeatedCnpjFirstDigit | src/app/shared/validators/custom-validators.ts:141-153 | for a repeated digit d, the first CNPJ check digit over twelve copies of d is d exactly when d is 0 |
| CustomValidators.RepeatedCnpjSecondDigit | src/app/shared/validators/custom-validators.ts:155-166 | over thirteen zeros the second CNPJ check digit is 0 |
| CustomValidators.RepeatedCnpjRejected | src/app/shared/validators/custom-validators.ts:123-138 | `validateCNPJ` is false for each of the ten repeated-digit strings |
| CustomValidators.RepeatedCpfPassesChecksum | src/app/shared/validators/custom-validators.ts:74-108 | every repeated-digit CPF has both check digits right, so only the placeholder list rejects it |
| CustomValidators.RepeatedCpfRejected | src/app/shared/validators/custom-validators.ts:71-86 | `validateCPF` is false for each of the ten repeated-digit strings |
| CustomValidators.RepeatedCnpjChecksum | src/app/shared/validators/custom-validators.ts:126-166 | a repeated-digit CNPJ passes the checksum only when the digit is 0, so only `00000000000000` depends on the list |
| CustomValidators.CpfRepeatedSums | src/app/shared/validators/custom-validators.ts:96-97 | for a repeated digit d, the CPF digit of 54·d and of 65·d is d itself |
| CustomValidators.CnpjRepeatedSums | src/app/shared/validators/custom-validators.ts:152 | for a repeated digit d, the CNPJ digit of 58·d is d only when d is 0 |
| CustomValidators.WeightedSumFrom | src/app/shared/validators/custom-validators.ts:92-93 | the weighted sum of a suffix equals the indexed sum from the suffix's start |
| CustomValidators.CpfFirstExampleDigit | src/app/shared/validators/custom-validators.ts:89-97 | the first CPF check digit of `529982247` is 2 |
| CustomValidators.CpfSecondExampleDigit | src/app/shared/validators/custom-validators.ts:100-107 | the second CPF check digit of `5299822472` is 5 |
| CustomValidators.CnpjFirstExampleDigit | src/app/shared/validators/custom-validators.ts:141-153 | the first CNPJ check digit of `114447770001` is 6 |
| CustomValidators.CnpjSecondExampleDigit | src/app/shared/validators/custom-validators.ts:155-166 | the second CNPJ check digit of `1144477700016` is 1 |
| CustomValidators.KnownValidCpf | src/app/shared/validators/custom-validators.ts:64-111 | `52998224725` is a valid CPF |
| CustomValidators.KnownInvalidCpf | src/app/shared/validators/custom-validators.ts:100-108 | `52998224724`, the same number with a wrong last digit, is rejected |
| CustomValidators.KnownValidCnpj | src/app/shared/validators/custom-validators.ts:116-169 | `11444777000161` is a valid CNPJ |
| CustomValidators.KnownInvalidCnpj | src/app/shared/validators/custom-validators.ts:155-166 | `11444777000162`, the same number with a wrong last digit, is rejected |
| CustomValidators.IsValidCPFIgnoresNonDigit | src/app/shared/validators/custom-validators.ts:68 | inserting a non-digit anywhere never changes whether a CPF is valid |
| CustomValidators.IsValidCNPJIgnoresNonDigit | src/app/shared/validators/custom-validators.ts:120 | inserting a non-digit anywhere never changes whether a CNPJ is valid |
| CustomValidators.IsValidCPFOfFormatted | src/app/shared/validators/custom-validators.ts:68 | a CPF formatted with `formatCPF` is valid exactly when the original is |
| CustomValidators.IsValidCNPJOfFormatted | src/app/shared/validators/custom-validators.ts:120 | a CNPJ formatted with `formatCNPJ` is valid exactly when the original is |
| CustomValidators.CpfCheckDigitsDetermined | src/app/shared/validators/custom-validators.ts:88-108 | two valid CPFs with the same nine base digits are the same CPF |
| CustomValidators.CnpjCheckDigitsDetermined | src/app/shared/validators/custom-validators.ts:140-166 | two valid CNPJs with the same twelve base digits are the same CNPJ |
| DocumentPipe.Transform | src/app/shared/pipes/document/document-pipe.ts:8-22 | `''` for an empty value; with type cpf (the default) and exactly 11 digits, the `ddd.ddd.ddd-dd` form; with type cnpj and exactly 14 digits, the `dd.ddd.ddd/dddd-dd` form; in every other case the value exactly as given |
| DocumentPipe.TransformKeepsDigits | src/app/shared/pipes/document/document-pipe.ts:9-21 | every branch keeps the digits of the input, in order |
| DocumentPipe.TransformIdempotent | src/app/shared/pipes/document/document-pipe.ts:8-22 | `transform(transform(v, t), t) == transform(v, t)` |

## Left out

- The `typeof value !== 'string'` guards of `validateCPF`/`validateCNPJ` and non-string control values: inputs are strings, and an absent value (`null`, `undefined`) is the empty string.
- Angular's `AbstractControl`, `ValidatorFn` and `Pipe` plumbing: a validator is a function from the value to an optional error.
- Helpers.ToUpper: upper-cases ASCII letters only; JavaScript's full Unicode case mapping (for example `ß` to `SS`, which changes the length) is not modelled.
- Helpers.ToLower: lower-cases ASCII letters only, for the same reason.
- Helpers.Truncate: `maxLength` is an integer; a fractional or `NaN` maxLength is not modelled. Lengths and cut positions count characters (Unicode scalar values), while JavaScript's `length` and `substring` count UTF-16 code units: a text with characters outside the Basic Multilingual Plane (an emoji, say) is longer in the source than in the model, so `truncate` of two emoji to 3 gives `...` in the source and the text unchanged here, and a cut that falls inside a surrogate pair in the source cannot be expressed, because a Dafny `char` holds no lone surrogate.
- Helpers.RemoveDuplicates: element equality is Dafny's `==`; JavaScript's SameValueZero (`NaN` equal to itself, `+0` equal to `-0`) is not modelled.
- Helpers.GroupBy: the key is given as a function from the item to a string, which stands for `String(item[key])`; the string conversion itself is not modelled.
- Helpers.GroupBy: the result is a `map`, which has no order; the property order of the returned object (integer-like keys ascending, then the other keys in first-insertion order) is not modelled.
- CustomValidators.CnpjDigitLoop: requires 9 to 16 digits, the lengths at which the starting counter `length - 7` lies on the cycle; the source only uses it with 12 and 13.
- `formatCurrency`, `formatDate`, `formatDateTime`: locale formatting of numbers and dates.
- `removeAccents`: Unicode NFD normalisation.
- `generateId`: clock and random numbers.
- `delay`: timers and promises.
- `deepClone`: a JSON round trip.
- `toQueryString`: it depends on `encodeURIComponent`.
- `downloadFile`: the DOM.
- `isNullOrUndefined`: the distinction between `null` and `undefined` does not exist for strings here.
- The example feature (service, facade, page, routes), `src/env.d.ts` and the example model: HTTP, signals, UI and type declarations.

## Findings

| source | as written | input that shows it | evidently intended | confidence | as-written member | corrected member |
|---|---|---|---|---|---|---|
| src/app/core/utils/helpers.ts:139-146 | the accumulator is `{}`, which inherits `Object.prototype`; for a key such as `constructor`, `!result[groupKey]` is false, so no group is created, and `result[groupKey].push(item)` throws a TypeError | one item whose key is `"constructor"` (or `"toString"`, `"__proto__"`, …) | a group `constructor` holding that item, as for any other key | not executed | Helpers.GroupByAsWritten | Helpers.GroupBy |
