/** CPF and CNPJ check-digit validation (Receita Federal scheme) and the form validators built on it,
    from src/app/shared/validators/custom-validators.ts. */
module CustomValidators {
  import opened Wrappers
  import opened Helpers

  // ---------------------------------------------------------------------------
  // Reference definitions of the check digits
  // ---------------------------------------------------------------------------

  /** `parseInt` of a one-character digit string. */
  function DigitValue(c: char): (n: nat)
    requires IsDigit(c)
    ensures n <= 9 && "0123456789"[n] == c
  {
    c as int - '0' as int
  }

  /** Σ digit·weight, the rightmost digit weighted `w`, the next one to its left `w + 1`, and so on. */
  function AscendingSum(ds: string, w: nat): nat
    requires AllDigits(ds)
  {
    if ds == [] then 0
    else DigitValue(ds[|ds| - 1]) * w + AscendingSum(ds[..|ds| - 1], w + 1)
  }

  /** The CNPJ weights run 2, 3, ..., 9 and then start again at 2. */
  function NextCycleWeight(w: nat): nat {
    if w == 9 then 2 else w + 1
  }

  /** Σ digit·weight, the rightmost digit weighted `w` and the weights cycling through 2..9 leftwards. */
  function CyclingSum(ds: string, w: nat): nat
    requires AllDigits(ds)
  {
    if ds == [] then 0
    else DigitValue(ds[|ds| - 1]) * w + CyclingSum(ds[..|ds| - 1], NextCycleWeight(w))
  }

  /** The CPF digit from a weighted sum: ten times the sum modulo 11, with 10 read as 0. */
  function CpfDigitOfSum(sum: nat): (d: nat)
    ensures d <= 9
    ensures (d + sum) % 11 == 0 || (d == 0 && sum % 11 == 1)
  {
    var remainder := (sum * 10) % 11;
    if remainder == 10 || remainder == 11 then 0 else remainder
  }

  /** The CNPJ digit from a weighted sum: 0 below a remainder of 2, otherwise 11 minus the remainder. */
  function CnpjDigitOfSum(sum: nat): (d: nat)
    ensures d <= 9
    ensures (d + sum) % 11 == 0 || (d == 0 && sum % 11 < 2)
  {
    var remainder := sum % 11;
    if remainder < 2 then 0 else 11 - remainder
  }

  /** The CPF check digit of the digits before it: the CPF rule applied to their sum with weights
      rising from 2 at the right. */
  function CpfCheckDigit(ds: string): (d: nat)
    requires AllDigits(ds)
    ensures d <= 9
  {
    CpfDigitOfSum(AscendingSum(ds, 2))
  }

  /** The CNPJ check digit of the digits before it: the CNPJ rule applied to their sum with weights
      cycling through 2..9 from the right. */
  function CnpjCheckDigit(ds: string): (d: nat)
    requires AllDigits(ds)
    ensures d <= 9
  {
    CnpjDigitOfSum(CyclingSum(ds, 2))
  }

  /** The repeated-digit values rejected before any checksum is computed. */
  const CpfPlaceholders: seq<string> := [
    "00000000000", "11111111111", "22222222222", "33333333333", "44444444444",
    "55555555555", "66666666666", "77777777777", "88888888888", "99999999999"
  ]

  const CnpjPlaceholders: seq<string> := [
    "00000000000000", "11111111111111", "22222222222222", "33333333333333", "44444444444444",
    "55555555555555", "66666666666666", "77777777777777", "88888888888888", "99999999999999"
  ]

  /** What validateCPF accepts: 11 digits once stripped, not a placeholder, both check digits right.
      Whatever it accepts has at least 11 characters. */
  predicate IsValidCPF(value: string)
    ensures IsValidCPF(value) ==> 11 <= |value|
  {
    var cpf := RemoveFormatting(value);
    && |cpf| == 11
    && cpf !in CpfPlaceholders
    && DigitValue(cpf[9]) == CpfCheckDigit(cpf[..9])
    && DigitValue(cpf[10]) == CpfCheckDigit(cpf[..10])
  }

  /** What validateCNPJ accepts: 14 digits once stripped, not a placeholder, both check digits right.
      Whatever it accepts has at least 14 characters. */
  predicate IsValidCNPJ(value: string)
    ensures IsValidCNPJ(value) ==> 14 <= |value|
  {
    var cnpj := RemoveFormatting(value);
    && |cnpj| == 14
    && cnpj !in CnpjPlaceholders
    && DigitValue(cnpj[12]) == CnpjCheckDigit(cnpj[..12])
    && DigitValue(cnpj[13]) == CnpjCheckDigit(cnpj[..13])
  }

  // ---------------------------------------------------------------------------
  // validateCPF
  // ---------------------------------------------------------------------------

  /** One CPF check-digit computation: for i from 1 to n, the i-th digit is weighted n + 2 - i (the
      source writes this weight as 11 - i for the nine base digits and 12 - i for ten) and added to
      the sum; the digit is ten times the sum modulo 11, with 10 and 11 replaced by 0. */
  method CpfDigitLoop(numbers: string) returns (remainder: nat)
    requires AllDigits(numbers)
    ensures remainder == CpfCheckDigit(numbers)
  {
    var n := |numbers|;
    var sum := 0;
    var i := 1;
    while i <= n
      invariant 1 <= i <= n + 1
      invariant sum == AscendingSum(numbers[..i - 1], n + 3 - i)
    {
      sum := sum + DigitValue(numbers[i - 1]) * (n + 2 - i);
      assert numbers[..i][..i - 1] == numbers[..i - 1];
      i := i + 1;
    }
    assert numbers[..n] == numbers;
    remainder := (sum * 10) % 11;
    if remainder == 10 || remainder == 11 {
      remainder := 0;
    }
  }

  method ValidateCPF(value: string) returns (valid: bool)
    ensures valid == IsValidCPF(value)
  {
    var cpf := RemoveFormatting(value);
    if cpf == [] || |cpf| != 11 || cpf in CpfPlaceholders {
      return false;
    }
    var remainder := CpfDigitLoop(cpf[..9]);
    if remainder != DigitValue(cpf[9]) {
      return false;
    }
    remainder := CpfDigitLoop(cpf[..10]);
    if remainder != DigitValue(cpf[10]) {
      return false;
    }
    return true;
  }

  // ---------------------------------------------------------------------------
  // validateCNPJ
  // ---------------------------------------------------------------------------

  /** One CNPJ check-digit computation over the digits read left to right, with the position counter
      `pos` starting at `length - 7`, used and decremented at each digit, and reset to 9 when it
      drops below 2. The counter starts on the cycle only for 9 to 16 digits; the source uses 12
      and 13. The loop invariant is the proof that the counter hands out exactly the weights 2..9
      cycling from the rightmost digit. */
  method CnpjDigitLoop(numbers: string) returns (result: nat)
    requires AllDigits(numbers) && 9 <= |numbers| <= 16
    ensures result == CnpjCheckDigit(numbers)
  {
    var length := |numbers|;
    var sum := 0;
    var pos := length - 7;
    var i := length;
    assert (length - 1) % 8 == length - 9;
    while i >= 1
      invariant 0 <= i <= length
      invariant sum == CyclingSum(numbers[..length - i], 2 + i % 8)
      invariant i >= 1 ==> pos == 2 + (i - 1) % 8
    {
      sum := sum + DigitValue(numbers[length - i]) * pos;
      assert numbers[..length - i + 1][..length - i] == numbers[..length - i];
      CounterStep(i);
      pos := pos - 1;
      if pos < 2 {
        pos := 9;
      }
      i := i - 1;
    }
    assert numbers[..length] == numbers;
    result := if sum % 11 < 2 then 0 else 11 - sum % 11;
  }

  /** Decrementing the counter, with the reset from 1 to 9, walks the cycle one step: the weight of
      the digit `i` places from the right end follows the weight of the one `i + 1` places away. */
  lemma CounterStep(i: int)
    requires i >= 1
    ensures NextCycleWeight(2 + (i - 1) % 8) == 2 + i % 8
    ensures i >= 2 ==> (if 1 + (i - 1) % 8 < 2 then 9 else 1 + (i - 1) % 8) == 2 + (i - 2) % 8
  {
  }

  method ValidateCNPJ(value: string) returns (valid: bool)
    ensures valid == IsValidCNPJ(value)
  {
    var cnpj := RemoveFormatting(value);
    if cnpj == [] || |cnpj| != 14 || cnpj in CnpjPlaceholders {
      return false;
    }
    var length := |cnpj| - 2;
    var numbers := cnpj[..length];
    var digits := cnpj[length..];
    var result := CnpjDigitLoop(numbers);
    if result != DigitValue(digits[0]) {
      return false;
    }
    length := length + 1;
    numbers := cnpj[..length];
    result := CnpjDigitLoop(numbers);
    if result != DigitValue(digits[1]) {
      return false;
    }
    return true;
  }

  // ---------------------------------------------------------------------------
  // The validator closures: an absent or empty value passes, otherwise the error carries the value
  // ---------------------------------------------------------------------------

  datatype ValidationError =
    | CpfError(value: string)
    | CnpjError(value: string)
    | PhoneError(value: string)
    | CepError(value: string)

  function CpfValidator(value: string): (error: Option<ValidationError>)
    ensures error.None? <==> value == [] || IsValidCPF(value)
    ensures error.Some? ==> error.value == CpfError(value)
  {
    if value == [] then None
    else if IsValidCPF(value) then None
    else Some(CpfError(value))
  }

  function CnpjValidator(value: string): (error: Option<ValidationError>)
    ensures error.None? <==> value == [] || IsValidCNPJ(value)
    ensures error.Some? ==> error.value == CnpjError(value)
  {
    if value == [] then None
    else if IsValidCNPJ(value) then None
    else Some(CnpjError(value))
  }

  /** A Brazilian phone number has 10 digits (landline) or 11 (mobile). */
  function PhoneValidator(value: string): (error: Option<ValidationError>)
    ensures error.None? <==> value == [] || |RemoveFormatting(value)| in {10, 11}
    ensures error.Some? ==> error.value == PhoneError(value)
  {
    if value == [] then None
    else
      var cleaned := RemoveFormatting(value);
      if |cleaned| == 10 || |cleaned| == 11 then None else Some(PhoneError(value))
  }

  /** A CEP (postal code) has 8 digits. */
  function CepValidator(value: string): (error: Option<ValidationError>)
    ensures error.None? <==> value == [] || |RemoveFormatting(value)| == 8
    ensures error.Some? ==> error.value == CepError(value)
  {
    if value == [] then None
    else
      var cleaned := RemoveFormatting(value);
      if |cleaned| == 8 then None else Some(CepError(value))
  }

  // ---------------------------------------------------------------------------
  // The check digits against the published weight tables
  // ---------------------------------------------------------------------------

  /** Σ ds[k]·weights[k], digits and weights paired left to right. */
  function WeightedSum(ds: string, weights: seq<nat>): nat
    requires AllDigits(ds) && |weights| == |ds|
  {
    if ds == [] then 0 else DigitValue(ds[0]) * weights[0] + WeightedSum(ds[1..], weights[1..])
  }

  /** `n` weights ending in `w`, each one larger than the weight to its right. */
  function Ramp(w: nat, n: nat): (ws: seq<nat>)
    ensures |ws| == n
    ensures forall i :: 0 <= i < n ==> ws[i] == w + n - 1 - i
    decreases n
  {
    if n == 0 then [] else Ramp(w + 1, n - 1) + [w]
  }

  /** `n` weights ending in `w`, cycling through 2..9 leftwards. */
  function Cycle(w: nat, n: nat): (ws: seq<nat>)
    ensures |ws| == n
    ensures 2 <= w <= 9 ==> forall i :: 0 <= i < n ==> ws[i] == 2 + (w - 2 + n - 1 - i) % 8
    decreases n
  {
    if n == 0 then [] else Cycle(NextCycleWeight(w), n - 1) + [w]
  }

  const CpfFirstWeights: seq<nat> := [10, 9, 8, 7, 6, 5, 4, 3, 2]
  const CpfSecondWeights: seq<nat> := [11, 10, 9, 8, 7, 6, 5, 4, 3, 2]
  const CnpjFirstWeights: seq<nat> := [5, 4, 3, 2, 9, 8, 7, 6, 5, 4, 3, 2]
  const CnpjSecondWeights: seq<nat> := [6, 5, 4, 3, 2, 9, 8, 7, 6, 5, 4, 3, 2]

  /** Appending a digit and its weight on the right adds their product. */
  lemma {:induction false} WeightedSumSnoc(ds: string, weights: seq<nat>)
    requires AllDigits(ds) && |weights| == |ds| && ds != []
    ensures WeightedSum(ds, weights)
         == WeightedSum(ds[..|ds| - 1], weights[..|ds| - 1]) + DigitValue(ds[|ds| - 1]) * weights[|ds| - 1]
    decreases |ds|
  {
    if |ds| > 1 {
      WeightedSumSnoc(ds[1..], weights[1..]);
      assert ds[1..][..|ds| - 2] == ds[..|ds| - 1][1..];
      assert weights[1..][..|ds| - 2] == weights[..|ds| - 1][1..];
    }
  }

  lemma {:induction false} AscendingSumIsWeighted(ds: string, w: nat)
    requires AllDigits(ds)
    ensures AscendingSum(ds, w) == WeightedSum(ds, Ramp(w, |ds|))
    decreases |ds|
  {
    if ds != [] {
      var ws := Ramp(w, |ds|);
      AscendingSumIsWeighted(ds[..|ds| - 1], w + 1);
      WeightedSumSnoc(ds, ws);
      assert ws[..|ds| - 1] == Ramp(w + 1, |ds| - 1);
    }
  }

  lemma {:induction false} CyclingSumIsWeighted(ds: string, w: nat)
    requires AllDigits(ds)
    ensures CyclingSum(ds, w) == WeightedSum(ds, Cycle(w, |ds|))
    decreases |ds|
  {
    if ds != [] {
      var ws := Cycle(w, |ds|);
      CyclingSumIsWeighted(ds[..|ds| - 1], NextCycleWeight(w));
      WeightedSumSnoc(ds, ws);
      assert ws[..|ds| - 1] == Cycle(NextCycleWeight(w), |ds| - 1);
    }
  }

  /** Both schemes turn a weighted sum into a digit by the same rule: multiplying by ten modulo 11
      and reading 10 as 0 (CPF) gives what 0 below a remainder of 2, else 11 minus the remainder
      (CNPJ) gives. */
  lemma SameRemainderRule(sum: nat)
    ensures CpfDigitOfSum(sum) == CnpjDigitOfSum(sum)
  {
  }

  /** The CPF check digit of nine or ten digits, by the weight table for that length. */
  lemma {:induction false} CpfDigitByTable(ds: string)
    requires AllDigits(ds) && (|ds| == 9 || |ds| == 10)
    ensures CpfCheckDigit(ds) == CpfDigitOfSum(WeightedSum(ds, if |ds| == 9 then CpfFirstWeights else CpfSecondWeights))
  {
    AscendingSumIsWeighted(ds, 2);
    CpfTables();
  }

  /** The CNPJ check digit of twelve or thirteen digits, by the weight table for that length. */
  lemma {:induction false} CnpjDigitByTable(ds: string)
    requires AllDigits(ds) && (|ds| == 12 || |ds| == 13)
    ensures CnpjCheckDigit(ds) == CnpjDigitOfSum(WeightedSum(ds, if |ds| == 12 then CnpjFirstWeights else CnpjSecondWeights))
  {
    CyclingSumIsWeighted(ds, 2);
    if |ds| == 12 {
      CnpjFirstTable();
    } else {
      CnpjSecondTable();
    }
  }

  /** The rising weights are the CPF tables. */
  lemma CpfTables()
    ensures Ramp(2, 9) == CpfFirstWeights && Ramp(2, 10) == CpfSecondWeights
  {
  }

  /** The cycling weights are the CNPJ tables. */
  lemma CnpjFirstTable()
    ensures Cycle(2, 12) == CnpjFirstWeights
  {
  }

  lemma CnpjSecondTable()
    ensures Cycle(2, 13) == CnpjSecondWeights
  {
  }

  /** validateCPF, for 11 digits that are not a placeholder, checks the tenth digit against weights
      10..2 over the first nine and the eleventh against weights 11..2 over the first ten. */
  lemma {:induction false} IsValidCPFByWeights(value: string)
    ensures var cpf := RemoveFormatting(value);
      IsValidCPF(value)
      <==> && |cpf| == 11
           && cpf !in CpfPlaceholders
           && DigitValue(cpf[9]) == CpfDigitOfSum(WeightedSum(cpf[..9], CpfFirstWeights))
           && DigitValue(cpf[10]) == CpfDigitOfSum(WeightedSum(cpf[..10], CpfSecondWeights))
  {
    var cpf := RemoveFormatting(value);
    if |cpf| == 11 {
      CpfDigitByTable(cpf[..9]);
      CpfDigitByTable(cpf[..10]);
    }
  }

  /** validateCNPJ, for 14 digits that are not a placeholder, checks the 13th digit against weights
      5,4,3,2,9..2 over the first twelve and the 14th against weights 6,5,4,3,2,9..2 over the first 13. */
  lemma {:induction false} IsValidCNPJByWeights(value: string)
    ensures var cnpj := RemoveFormatting(value);
      IsValidCNPJ(value)
      <==> && |cnpj| == 14
           && cnpj !in CnpjPlaceholders
           && DigitValue(cnpj[12]) == CnpjDigitOfSum(WeightedSum(cnpj[..12], CnpjFirstWeights))
           && DigitValue(cnpj[13]) == CnpjDigitOfSum(WeightedSum(cnpj[..13], CnpjSecondWeights))
  {
    var cnpj := RemoveFormatting(value);
    if |cnpj| == 14 {
      CnpjDigitByTable(cnpj[..12]);
      CnpjDigitByTable(cnpj[..13]);
    }
  }

  // ---------------------------------------------------------------------------
  // Repeated digits: why the placeholder lists are there
  // ---------------------------------------------------------------------------

  /** `n` copies of `c`. */
  function Repeated(c: char, n: nat): string {
    seq(n, _ => c)
  }

  function Total(ws: seq<nat>): nat {
    if ws == [] then 0 else ws[0] + Total(ws[1..])
  }

  lemma {:induction false} WeightedSumRepeated(c: char, ws: seq<nat>)
    requires IsDigit(c)
    ensures WeightedSum(Repeated(c, |ws|), ws) == DigitValue(c) * Total(ws)
    decreases |ws|
  {
    if ws != [] {
      assert Repeated(c, |ws|)[1..] == Repeated(c, |ws| - 1);
      WeightedSumRepeated(c, ws[1..]);
    }
  }

  /** A string whose every character is `c` is `c` repeated. */
  lemma RepeatedMatches(c: char, s: string)
    requires forall i :: 0 <= i < |s| ==> s[i] == c
    ensures s == Repeated(c, |s|)
  {
  }

  /** Each eleven-digit repetition is on the CPF placeholder list. */
  lemma {:induction false} RepeatedIsCpfPlaceholder(c: char)
    requires IsDigit(c)
    ensures Repeated(c, 11) in CpfPlaceholders
  {
    if c == '0' {
      RepeatedMatches(c, CpfPlaceholders[0]);
    } else if c == '1' {
      RepeatedMatches(c, CpfPlaceholders[1]);
    } else if c == '2' {
      RepeatedMatches(c, CpfPlaceholders[2]);
    } else if c == '3' {
      RepeatedMatches(c, CpfPlaceholders[3]);
    } else if c == '4' {
      RepeatedMatches(c, CpfPlaceholders[4]);
    } else if c == '5' {
      RepeatedMatches(c, CpfPlaceholders[5]);
    } else if c == '6' {
      RepeatedMatches(c, CpfPlaceholders[6]);
    } else if c == '7' {
      RepeatedMatches(c, CpfPlaceholders[7]);
    } else if c == '8' {
      RepeatedMatches(c, CpfPlaceholders[8]);
    } else {
      RepeatedMatches(c, CpfPlaceholders[9]);
    }
  }

  /** Each fourteen-digit repetition is on the CNPJ placeholder list. */
  lemma {:induction false} RepeatedIsCnpjPlaceholder(c: char)
    requires IsDigit(c)
    ensures Repeated(c, 14) in CnpjPlaceholders
  {
    if c == '0' {
      RepeatedMatches(c, CnpjPlaceholders[0]);
    } else if c == '1' {
      RepeatedMatches(c, CnpjPlaceholders[1]);
    } else if c == '2' {
      RepeatedMatches(c, CnpjPlaceholders[2]);
    } else if c == '3' {
      RepeatedMatches(c, CnpjPlaceholders[3]);
    } else if c == '4' {
      RepeatedMatches(c, CnpjPlaceholders[4]);
    } else if c == '5' {
      RepeatedMatches(c, CnpjPlaceholders[5]);
    } else if c == '6' {
      RepeatedMatches(c, CnpjPlaceholders[6]);
    } else if c == '7' {
      RepeatedMatches(c, CnpjPlaceholders[7]);
    } else if c == '8' {
      RepeatedMatches(c, CnpjPlaceholders[8]);
    } else {
      RepeatedMatches(c, CnpjPlaceholders[9]);
    }
  }

  /** Every repeated-digit CPF has both check digits right (the weights add up to 54 and 65, and
      540 and 650 are both 1 modulo 11), so without the placeholder list they would pass. */
  lemma {:induction false} RepeatedCpfPassesChecksum(c: char)
    requires IsDigit(c)
    ensures var s := Repeated(c, 11);
      && DigitValue(s[9]) == CpfCheckDigit(s[..9])
      && DigitValue(s[10]) == CpfCheckDigit(s[..10])
  {
    var s := Repeated(c, 11);
    assert s[..9] == Repeated(c, 9);
    assert s[..10] == Repeated(c, 10);
    RepeatedCpfDigits(c);
  }

  /** The CPF check digits of a repeated digit `d`, over nine and over ten places, are both `d`. */
  lemma {:induction false} RepeatedCpfDigits(c: char)
    requires IsDigit(c)
    ensures CpfCheckDigit(Repeated(c, 9)) == DigitValue(c)
    ensures CpfCheckDigit(Repeated(c, 10)) == DigitValue(c)
  {
    CpfDigitByTable(Repeated(c, 9));
    CpfDigitByTable(Repeated(c, 10));
    WeightedSumRepeated(c, CpfFirstWeights);
    WeightedSumRepeated(c, CpfSecondWeights);
    CpfTotals();
    CpfRepeatedSums(DigitValue(c));
  }

  /** validateCPF rejects every repeated-digit CPF, through its placeholder list. */
  lemma {:induction false} RepeatedCpfRejected(c: char)
    requires IsDigit(c)
    ensures !IsValidCPF(Repeated(c, 11))
  {
    var s := Repeated(c, 11);
    assert AllDigits(s);
    assert RemoveFormatting(s) == s;
    RepeatedIsCpfPlaceholder(c);
  }

  /** validateCNPJ rejects every repeated-digit CNPJ, through its placeholder list. */
  lemma {:induction false} RepeatedCnpjRejected(c: char)
    requires IsDigit(c)
    ensures !IsValidCNPJ(Repeated(c, 14))
  {
    var s := Repeated(c, 14);
    assert AllDigits(s);
    assert RemoveFormatting(s) == s;
    RepeatedIsCnpjPlaceholder(c);
  }

  /** A repeated-digit CNPJ gets its first check digit right only when the digit is 0 (the weights
      add up to 58, and 58 is 3 modulo 11), so the placeholder list only matters for all zeros. */
  lemma {:induction false} RepeatedCnpjChecksum(c: char)
    requires IsDigit(c)
    ensures var s := Repeated(c, 14);
      (DigitValue(s[12]) == CnpjCheckDigit(s[..12]) && DigitValue(s[13]) == CnpjCheckDigit(s[..13]))
      <==> c == '0'
  {
    var s := Repeated(c, 14);
    assert s[..12] == Repeated(c, 12);
    assert s[..13] == Repeated(c, 13);
    RepeatedCnpjFirstDigit(c);
    if c == '0' {
      RepeatedCnpjSecondDigit(c);
    }
  }

  /** The CNPJ check digit of a repeated digit `d` over twelve places is `d` only for 0. */
  lemma {:induction false} RepeatedCnpjFirstDigit(c: char)
    requires IsDigit(c)
    ensures CnpjCheckDigit(Repeated(c, 12)) == DigitValue(c) <==> c == '0'
  {
    CnpjDigitByTable(Repeated(c, 12));
    WeightedSumRepeated(c, CnpjFirstWeights);
    CnpjTotal();
    CnpjRepeatedSums(DigitValue(c));
  }

  /** Over thirteen places the repeated 0 gets the check digit 0. */
  lemma {:induction false} RepeatedCnpjSecondDigit(c: char)
    requires c == '0'
    ensures CnpjCheckDigit(Repeated(c, 13)) == 0
  {
    CyclingSumOfZeros(Repeated(c, 13), 2);
  }

  /** Zeros weigh nothing. */
  lemma {:induction false} CyclingSumOfZeros(ds: string, w: nat)
    requires forall i :: 0 <= i < |ds| ==> ds[i] == '0'
    ensures AllDigits(ds) && CyclingSum(ds, w) == 0
    decreases |ds|
  {
    if ds != [] {
      CyclingSumOfZeros(ds[..|ds| - 1], NextCycleWeight(w));
    }
  }

  /** The sums of the weight tables that the repeated-digit lemmas use. */
  lemma CpfTotals()
    ensures Total(CpfFirstWeights) == 54 && Total(CpfSecondWeights) == 65
  {
  }

  lemma CnpjTotal()
    ensures Total(CnpjFirstWeights) == 58
  {
  }

  lemma CpfRepeatedSums(v: nat)
    requires v <= 9
    ensures CpfDigitOfSum(v * 54) == v && CpfDigitOfSum(v * 65) == v
  {
    assert v * 54 * 10 == 11 * (49 * v) + v;
    assert v * 65 * 10 == 11 * (59 * v) + v;
  }

  lemma CnpjRepeatedSums(v: nat)
    requires v <= 9
    ensures CnpjDigitOfSum(v * 58) == v <==> v == 0
  {
    assert v * 58 == 11 * (5 * v) + 3 * v;
  }

  // ---------------------------------------------------------------------------
  // Known numbers
  // ---------------------------------------------------------------------------

  /** Σ ds[i]·ws[i] for i from k to the end, indexing instead of slicing. */
  function SumFrom(ds: string, ws: seq<nat>, k: nat): nat
    requires AllDigits(ds) && |ws| == |ds| && k <= |ds|
    decreases |ds| - k
  {
    if k == |ds| then 0 else DigitValue(ds[k]) * ws[k] + SumFrom(ds, ws, k + 1)
  }

  /** The left-to-right weighted sum of a suffix is the indexed sum from where the suffix starts. */
  lemma {:induction false} WeightedSumFrom(ds: string, ws: seq<nat>, k: nat)
    requires AllDigits(ds) && |ws| == |ds| && k <= |ds|
    ensures WeightedSum(ds[k..], ws[k..]) == SumFrom(ds, ws, k)
    decreases |ds| - k
  {
    if k < |ds| {
      WeightedSumFrom(ds, ws, k + 1);
      assert ds[k..][1..] == ds[k + 1..];
      assert ws[k..][1..] == ws[k + 1..];
    }
  }

  /** The check digits of 529.982.247-25 and of 11.444.777/0001-61, each over its base digits. */
  lemma {:induction false} CpfFirstExampleDigit(b: string)
    requires b == "529982247"
    ensures AllDigits(b) && CpfCheckDigit(b) == 2
  {
    var ws := CpfFirstWeights;
    assert AllDigits(b);
    assert SumFrom(b, ws, 9) == 0;
    assert SumFrom(b, ws, 8) == 14;
    assert SumFrom(b, ws, 7) == 26;
    assert SumFrom(b, ws, 6) == 34;
    assert SumFrom(b, ws, 5) == 44;
    assert SumFrom(b, ws, 4) == 92;
    assert SumFrom(b, ws, 3) == 155;
    assert SumFrom(b, ws, 2) == 227;
    assert SumFrom(b, ws, 1) == 245;
    assert SumFrom(b, ws, 0) == 295;
    WeightedSumFrom(b, ws, 0);
    assert b[0..] == b && ws[0..] == ws;
    CpfDigitByTable(b);
  }

  lemma {:induction false} CpfSecondExampleDigit(b: string)
    requires b == "5299822472"
    ensures AllDigits(b) && CpfCheckDigit(b) == 5
  {
    var ws := CpfSecondWeights;
    assert AllDigits(b);
    assert SumFrom(b, ws, 10) == 0;
    assert SumFrom(b, ws, 9) == 4;
    assert SumFrom(b, ws, 8) == 25;
    assert SumFrom(b, ws, 7) == 41;
    assert SumFrom(b, ws, 6) == 51;
    assert SumFrom(b, ws, 5) == 63;
    assert SumFrom(b, ws, 4) == 119;
    assert SumFrom(b, ws, 3) == 191;
    assert SumFrom(b, ws, 2) == 272;
    assert SumFrom(b, ws, 1) == 292;
    assert SumFrom(b, ws, 0) == 347;
    WeightedSumFrom(b, ws, 0);
    assert b[0..] == b && ws[0..] == ws;
    CpfDigitByTable(b);
  }

  lemma {:induction false} CnpjFirstExampleDigit(b: string)
    requires b == "114447770001"
    ensures AllDigits(b) && CnpjCheckDigit(b) == 6
  {
    var ws := CnpjFirstWeights;
    assert AllDigits(b);
    assert SumFrom(b, ws, 12) == 0;
    assert SumFrom(b, ws, 11) == 2;
    assert SumFrom(b, ws, 10) == 2;
    assert SumFrom(b, ws, 9) == 2;
    assert SumFrom(b, ws, 8) == 2;
    assert SumFrom(b, ws, 7) == 44;
    assert SumFrom(b, ws, 6) == 93;
    assert SumFrom(b, ws, 5) == 149;
    assert SumFrom(b, ws, 4) == 185;
    assert SumFrom(b, ws, 3) == 193;
    assert SumFrom(b, ws, 2) == 205;
    assert SumFrom(b, ws, 1) == 209;
    assert SumFrom(b, ws, 0) == 214;
    WeightedSumFrom(b, ws, 0);
    assert b[0..] == b && ws[0..] == ws;
    CnpjDigitByTable(b);
  }

  lemma {:induction false} CnpjSecondExampleDigit(b: string)
    requires b == "1144477700016"
    ensures AllDigits(b) && CnpjCheckDigit(b) == 1
  {
    var ws := CnpjSecondWeights;
    assert AllDigits(b);
    assert SumFrom(b, ws, 13) == 0;
    assert SumFrom(b, ws, 12) == 12;
    assert SumFrom(b, ws, 11) == 15;
    assert SumFrom(b, ws, 10) == 15;
    assert SumFrom(b, ws, 9) == 15;
    assert SumFrom(b, ws, 8) == 15;
    assert SumFrom(b, ws, 7) == 64;
    assert SumFrom(b, ws, 6) == 120;
    assert SumFrom(b, ws, 5) == 183;
    assert SumFrom(b, ws, 4) == 191;
    assert SumFrom(b, ws, 3) == 203;
    assert SumFrom(b, ws, 2) == 219;
    assert SumFrom(b, ws, 1) == 224;
    assert SumFrom(b, ws, 0) == 230;
    WeightedSumFrom(b, ws, 0);
    assert b[0..] == b && ws[0..] == ws;
    CnpjDigitByTable(b);
  }

  /** 529.982.247-25 is a valid CPF, and changing its last digit makes it invalid. */
  lemma {:induction false} KnownValidCpf(s: string)
    requires s == "52998224725"
    ensures IsValidCPF(s)
  {
    assert AllDigits(s);
    assert s[0] != s[1];
    CpfFirstExampleDigit(s[..9]);
    CpfSecondExampleDigit(s[..10]);
  }

  lemma {:induction false} KnownInvalidCpf(s: string)
    requires s == "52998224724"
    ensures !IsValidCPF(s)
  {
    assert AllDigits(s);
    CpfFirstExampleDigit(s[..9]);
    CpfSecondExampleDigit(s[..10]);
  }

  /** 11.444.777/0001-61 is a valid CNPJ, and changing its last digit makes it invalid. */
  lemma {:induction false} KnownValidCnpj(s: string)
    requires s == "11444777000161"
    ensures IsValidCNPJ(s)
  {
    assert AllDigits(s);
    assert s[1] != s[2];
    CnpjFirstExampleDigit(s[..12]);
    CnpjSecondExampleDigit(s[..13]);
  }

  lemma {:induction false} KnownInvalidCnpj(s: string)
    requires s == "11444777000162"
    ensures !IsValidCNPJ(s)
  {
    assert AllDigits(s);
    CnpjFirstExampleDigit(s[..12]);
    CnpjSecondExampleDigit(s[..13]);
  }

  // ---------------------------------------------------------------------------
  // Only the digits count
  // ---------------------------------------------------------------------------

  lemma {:induction false} IsValidCPFIgnoresNonDigit(s: string, i: nat, c: char)
    requires i <= |s| && !IsDigit(c)
    ensures IsValidCPF(s[..i] + [c] + s[i..]) == IsValidCPF(s)
  {
    RemoveFormattingIgnoresNonDigit(s, i, c);
  }

  lemma {:induction false} IsValidCNPJIgnoresNonDigit(s: string, i: nat, c: char)
    requires i <= |s| && !IsDigit(c)
    ensures IsValidCNPJ(s[..i] + [c] + s[i..]) == IsValidCNPJ(s)
  {
    RemoveFormattingIgnoresNonDigit(s, i, c);
  }

  /** Formatting a CPF for display does not change whether it is valid. */
  lemma {:induction false} IsValidCPFOfFormatted(value: string)
    ensures IsValidCPF(FormatCPF(value)) == IsValidCPF(value)
  {
    FormatCPFRoundTrip(value);
  }

  lemma {:induction false} IsValidCNPJOfFormatted(value: string)
    ensures IsValidCNPJ(FormatCNPJ(value)) == IsValidCNPJ(value)
  {
    FormatCNPJRoundTrip(value);
  }

  /** The base digits of a valid CPF determine its check digits. */
  lemma {:induction false} CpfCheckDigitsDetermined(a: string, b: string)
    requires IsValidCPF(a) && IsValidCPF(b)
    requires RemoveFormatting(a)[..9] == RemoveFormatting(b)[..9]
    ensures RemoveFormatting(a) == RemoveFormatting(b)
  {
    var x, y := RemoveFormatting(a), RemoveFormatting(b);
    assert x[9] == "0123456789"[DigitValue(x[9])] == y[9];
    assert x[..10] == x[..9] + [x[9]] && y[..10] == y[..9] + [y[9]];
    assert x[10] == "0123456789"[DigitValue(x[10])] == y[10];
    assert x == x[..10] + [x[10]] && y == y[..10] + [y[10]];
  }

  /** The base digits of a valid CNPJ determine its check digits. */
  lemma {:induction false} CnpjCheckDigitsDetermined(a: string, b: string)
    requires IsValidCNPJ(a) && IsValidCNPJ(b)
    requires RemoveFormatting(a)[..12] == RemoveFormatting(b)[..12]
    ensures RemoveFormatting(a) == RemoveFormatting(b)
  {
    var x, y := RemoveFormatting(a), RemoveFormatting(b);
    assert x[12] == "0123456789"[DigitValue(x[12])] == y[12];
    assert x[..13] == x[..12] + [x[12]] && y[..13] == y[..12] + [y[12]];
    assert x[13] == "0123456789"[DigitValue(x[13])] == y[13];
    assert x == x[..13] + [x[13]] && y == y[..13] + [y[13]];
  }
}
