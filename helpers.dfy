/** The string and collection helpers of src/app/core/utils/helpers.ts. */
module Helpers {
  import opened Wrappers

  // ---------------------------------------------------------------------------
  // Characters
  // ---------------------------------------------------------------------------

  /** The characters the regular-expression class `\d` matches. */
  predicate IsDigit(c: char) { '0' <= c <= '9' }

  predicate AllDigits(s: string) { forall i :: 0 <= i < |s| ==> IsDigit(s[i]) }

  /** The class `\s` of JavaScript regular expressions, which is also the set `String.prototype.trim`
      removes: the WhiteSpace and LineTerminator characters of ECMAScript. */
  predicate IsWhitespace(c: char) {
    c == '\t' || c == '\n' || c == '\U{B}' || c == '\U{C}' || c == '\r' || c == ' '
    || c == '\U{A0}' || c == '\U{1680}' || ('\U{2000}' <= c <= '\U{200A}')
    || c == '\U{2028}' || c == '\U{2029}' || c == '\U{202F}' || c == '\U{205F}'
    || c == '\U{3000}' || c == '\U{FEFF}'
  }

  // ---------------------------------------------------------------------------
  // removeFormatting: every non-digit deleted
  // ---------------------------------------------------------------------------

  /** Deletes every character that is not a digit. */
  function RemoveFormatting(value: string): (r: string)
    ensures AllDigits(r)
    ensures |r| <= |value|
    ensures AllDigits(value) ==> r == value
  {
    if value == [] then []
    else (if IsDigit(value[0]) then [value[0]] else []) + RemoveFormatting(value[1..])
  }

  /** Stripping distributes over concatenation. */
  lemma {:induction false} RemoveFormattingConcat(a: string, b: string)
    ensures RemoveFormatting(a + b) == RemoveFormatting(a) + RemoveFormatting(b)
  {
    if a == [] {
      assert a + b == b;
    } else {
      assert (a + b)[1..] == a[1..] + b;
      RemoveFormattingConcat(a[1..], b);
    }
  }

  /** The result is exactly the digits of the input in their original order: each character of the
      input contributes itself when it is a digit and nothing otherwise, wherever it stands. */
  lemma {:induction false} RemoveFormattingAt(before: string, c: char, after: string)
    ensures RemoveFormatting(before + [c] + after)
         == RemoveFormatting(before) + (if IsDigit(c) then [c] else []) + RemoveFormatting(after)
  {
    RemoveFormattingConcat(before + [c], after);
    RemoveFormattingConcat(before, [c]);
    assert RemoveFormatting([c]) == (if IsDigit(c) then [c] else []) + RemoveFormatting([]);
  }

  lemma {:induction false} RemoveFormattingIdempotent(value: string)
    ensures RemoveFormatting(RemoveFormatting(value)) == RemoveFormatting(value)
  {
  }

  /** Inserting a non-digit character anywhere does not change the stripped digits. */
  lemma {:induction false} RemoveFormattingIgnoresNonDigit(s: string, i: nat, c: char)
    requires i <= |s| && !IsDigit(c)
    ensures RemoveFormatting(s[..i] + [c] + s[i..]) == RemoveFormatting(s)
  {
    assert s == s[..i] + s[i..];
    RemoveFormattingSkip(s[..i], c, s[i..]);
  }

  lemma {:induction false} RemoveFormattingSkip(before: string, c: char, after: string)
    requires !IsDigit(c)
    ensures RemoveFormatting(before + [c] + after) == RemoveFormatting(before + after)
  {
    RemoveFormattingAt(before, c, after);
    RemoveFormattingConcat(before, after);
    assert RemoveFormatting(before) + [] == RemoveFormatting(before);
  }

  // ---------------------------------------------------------------------------
  // formatCPF / formatCNPJ
  // ---------------------------------------------------------------------------

  /** Masks of the punctuated forms; `#` stands for one digit. */
  const CpfMask := "###.###.###-##"
  const CnpjMask := "##.###.###/####-##"

  /** `r` has the mask's length, a digit where the mask has `#` and the mask's own character elsewhere. */
  predicate FitsMask(r: string, mask: string) {
    |r| == |mask| && forall i :: 0 <= i < |r| ==> if mask[i] == '#' then IsDigit(r[i]) else r[i] == mask[i]
  }

  /** The CPF pattern (groups of 3, 3, 3 and 2 digits, rewritten with `.`, `.` and `-` between
      them) applied once to a string of digits only. The pattern is not anchored and has no `g` flag: with 11 digits or more its leftmost match is
      the first 11 digits, which are punctuated while the rest follows unchanged; with fewer
      there is no match and the string comes back as it was. */
  function CpfPattern(digits: string): (r: string)
    requires AllDigits(digits)
    ensures |digits| < 11 ==> r == digits
    ensures |digits| >= 11 ==> |r| == |digits| + 3 && FitsMask(r[..14], CpfMask) && r[14..] == digits[11..]
  {
    if |digits| < 11 then digits
    else digits[..3] + "." + digits[3..6] + "." + digits[6..9] + "-" + digits[9..11] + digits[11..]
  }

  /** The CNPJ pattern (groups of 2, 3, 3, 4 and 2 digits, rewritten with `.`, `.`, `/` and `-`
      between them) applied once to a string of digits only: the first 14 digits are punctuated when there are that many, otherwise nothing changes. */
  function CnpjPattern(digits: string): (r: string)
    requires AllDigits(digits)
    ensures |digits| < 14 ==> r == digits
    ensures |digits| >= 14 ==> |r| == |digits| + 4 && FitsMask(r[..18], CnpjMask) && r[18..] == digits[14..]
  {
    if |digits| < 14 then digits
    else digits[..2] + "." + digits[2..5] + "." + digits[5..8] + "/" + digits[8..12] + "-" + digits[12..14]
         + digits[14..]
  }

  /** Stripping a block of digits followed by a separator keeps the block and drops the separator. */
  lemma {:induction false} SkipSeparator(block: string, sep: char, rest: string)
    requires AllDigits(block) && !IsDigit(sep)
    ensures RemoveFormatting(block + ([sep] + rest)) == block + RemoveFormatting(rest)
  {
    RemoveFormattingAt(block, sep, rest);
    assert block + ([sep] + rest) == block + [sep] + rest;
    assert block + [] + RemoveFormatting(rest) == block + RemoveFormatting(rest);
  }

  /** Appending a piece to a string adds the piece's digits to the digits of the string. */
  lemma {:induction false} StripAppend(a: string, piece: string, before: string, after: string)
    requires RemoveFormatting(a) == before
    requires after == before + RemoveFormatting(piece)
    ensures RemoveFormatting(a + piece) == after
  {
    RemoveFormattingConcat(a, piece);
  }

  /** Stripping the punctuated CPF pieces, appended one at a time, leaves the digits. */
  lemma {:induction false} StripCpfPieces(digits: string)
    requires AllDigits(digits) && |digits| >= 11
    ensures RemoveFormatting(digits[..3] + "." + digits[3..6] + "." + digits[6..9] + "-" + digits[9..11] + digits[11..])
         == digits
  {
    var a4 := digits[..3] + "." + digits[3..6] + "." + digits[6..9];
    StripCpfHead(digits);
    var a5 := a4 + "-";
    var a6 := a5 + digits[9..11];
    assert RemoveFormatting(a5) == digits[..9] by {
      StripAppend(a4, "-", digits[..9], digits[..9]);
    }
    assert RemoveFormatting(a6) == digits[..11] by {
      StripAppend(a5, digits[9..11], digits[..9], digits[..11]);
    }
    assert RemoveFormatting(a6 + digits[11..]) == digits by {
      StripAppend(a6, digits[11..], digits[..11], digits);
    }
  }

  /** The first three CPF pieces with their dots strip to the first nine digits. */
  lemma {:induction false} StripCpfHead(digits: string)
    requires AllDigits(digits) && |digits| >= 9
    ensures RemoveFormatting(digits[..3] + "." + digits[3..6] + "." + digits[6..9]) == digits[..9]
  {
    var a1 := digits[..3] + ".";
    var a2 := a1 + digits[3..6];
    var a3 := a2 + ".";
    assert RemoveFormatting(a1) == digits[..3] by {
      StripAppend(digits[..3], ".", digits[..3], digits[..3]);
    }
    assert RemoveFormatting(a2) == digits[..6] by {
      StripAppend(a1, digits[3..6], digits[..3], digits[..6]);
    }
    assert RemoveFormatting(a3) == digits[..6] by {
      StripAppend(a2, ".", digits[..6], digits[..6]);
    }
    StripAppend(a3, digits[6..9], digits[..6], digits[..9]);
  }

  /** The first three CNPJ pieces with their dots strip to the first eight digits. */
  lemma {:induction false} StripCnpjHead(digits: string)
    requires AllDigits(digits) && |digits| >= 8
    ensures RemoveFormatting(digits[..2] + "." + digits[2..5] + "." + digits[5..8]) == digits[..8]
  {
    var a1 := digits[..2] + ".";
    var a2 := a1 + digits[2..5];
    var a3 := a2 + ".";
    assert RemoveFormatting(a1) == digits[..2] by {
      StripAppend(digits[..2], ".", digits[..2], digits[..2]);
    }
    assert RemoveFormatting(a2) == digits[..5] by {
      StripAppend(a1, digits[2..5], digits[..2], digits[..5]);
    }
    assert RemoveFormatting(a3) == digits[..5] by {
      StripAppend(a2, ".", digits[..5], digits[..5]);
    }
    StripAppend(a3, digits[5..8], digits[..5], digits[..8]);
  }

  /** Stripping the punctuated CNPJ pieces, appended one at a time, leaves the digits. */
  lemma {:induction false} StripCnpjPieces(digits: string)
    requires AllDigits(digits) && |digits| >= 14
    ensures RemoveFormatting(digits[..2] + "." + digits[2..5] + "." + digits[5..8] + "/" + digits[8..12] + "-"
                             + digits[12..14] + digits[14..])
         == digits
  {
    var a4 := digits[..2] + "." + digits[2..5] + "." + digits[5..8];
    StripCnpjHead(digits);
    var a5 := a4 + "/";
    var a6 := a5 + digits[8..12];
    var a7 := a6 + "-";
    var a8 := a7 + digits[12..14];
    assert RemoveFormatting(a5) == digits[..8] by {
      StripAppend(a4, "/", digits[..8], digits[..8]);
    }
    assert RemoveFormatting(a6) == digits[..12] by {
      StripAppend(a5, digits[8..12], digits[..8], digits[..12]);
    }
    assert RemoveFormatting(a7) == digits[..12] by {
      StripAppend(a6, "-", digits[..12], digits[..12]);
    }
    assert RemoveFormatting(a8) == digits[..14] by {
      StripAppend(a7, digits[12..14], digits[..12], digits[..14]);
    }
    assert RemoveFormatting(a8 + digits[14..]) == digits by {
      StripAppend(a8, digits[14..], digits[..14], digits);
    }
  }

  /** Punctuation added by the CPF pattern is removed again by stripping. */
  lemma {:induction false} CpfPatternRoundTrip(digits: string)
    requires AllDigits(digits)
    ensures RemoveFormatting(CpfPattern(digits)) == digits
  {
    if |digits| >= 11 {
      StripCpfPieces(digits);
    }
  }

  /** Punctuation added by the CNPJ pattern is removed again by stripping. */
  lemma {:induction false} CnpjPatternRoundTrip(digits: string)
    requires AllDigits(digits)
    ensures RemoveFormatting(CnpjPattern(digits)) == digits
  {
    if |digits| >= 14 {
      StripCnpjPieces(digits);
    }
  }

  /** formatCPF: strip, then apply the CPF pattern. */
  function FormatCPF(cpf: string): (r: string)
    ensures var d := RemoveFormatting(cpf);
      && (|d| < 11 ==> r == d)
      && (|d| >= 11 ==> |r| == |d| + 3)
      && (|d| == 11 ==> FitsMask(r, CpfMask))
      && (|d| > 11 ==> FitsMask(r[..14], CpfMask) && r[14..] == d[11..])
  {
    CpfPattern(RemoveFormatting(cpf))
  }

  /** formatCNPJ: strip, then apply the CNPJ pattern. */
  function FormatCNPJ(cnpj: string): (r: string)
    ensures var d := RemoveFormatting(cnpj);
      && (|d| < 14 ==> r == d)
      && (|d| >= 14 ==> |r| == |d| + 4)
      && (|d| == 14 ==> FitsMask(r, CnpjMask))
      && (|d| > 14 ==> FitsMask(r[..18], CnpjMask) && r[18..] == d[14..])
  {
    CnpjPattern(RemoveFormatting(cnpj))
  }

  /** Formatting keeps the digits: stripping a formatted value gives the stripped input. */
  lemma {:induction false} FormatCPFRoundTrip(cpf: string)
    ensures RemoveFormatting(FormatCPF(cpf)) == RemoveFormatting(cpf)
  {
    CpfPatternRoundTrip(RemoveFormatting(cpf));
  }

  lemma {:induction false} FormatCNPJRoundTrip(cnpj: string)
    ensures RemoveFormatting(FormatCNPJ(cnpj)) == RemoveFormatting(cnpj)
  {
    CnpjPatternRoundTrip(RemoveFormatting(cnpj));
  }

  /** Formatting an already formatted value changes nothing. */
  lemma {:induction false} FormatCPFIdempotent(cpf: string)
    ensures FormatCPF(FormatCPF(cpf)) == FormatCPF(cpf)
  {
    FormatCPFRoundTrip(cpf);
  }

  lemma {:induction false} FormatCNPJIdempotent(cnpj: string)
    ensures FormatCNPJ(FormatCNPJ(cnpj)) == FormatCNPJ(cnpj)
  {
    FormatCNPJRoundTrip(cnpj);
  }

  /** Examples of the two masks. */
  lemma {:induction false} FormatCPFExample(d: string)
    requires d == "12345678901"
    ensures FormatCPF(d) == "123.456.789-01"
  {
    assert AllDigits(d);
    assert d[..3] == "123" && d[3..6] == "456" && d[6..9] == "789" && d[9..11] == "01";
    assert d[11..] == [];
  }

  lemma {:induction false} FormatCNPJExample(d: string)
    requires d == "11444777000161"
    ensures FormatCNPJ(d) == "11.444.777/0001-61"
  {
    assert AllDigits(d);
    assert d[..2] == "11" && d[2..5] == "444" && d[5..8] == "777" && d[8..12] == "0001" && d[12..14] == "61";
    assert d[14..] == [];
  }

  // ---------------------------------------------------------------------------
  // capitalize
  // ---------------------------------------------------------------------------

  /** `toUpperCase` of one character, restricted to ASCII letters. */
  function ToUpper(c: char): (u: char)
    ensures !('a' <= u <= 'z')
    ensures ('A' <= c <= 'Z' || 'a' <= c <= 'z') <==> 'A' <= u <= 'Z'
    ensures !('a' <= c <= 'z') ==> u == c
    ensures 'a' <= c <= 'z' ==> u as int - 'A' as int == c as int - 'a' as int
  {
    if 'a' <= c <= 'z' then (c as int - 32) as char else c
  }

  /** `toLowerCase` of one character, restricted to ASCII letters. */
  function ToLower(c: char): (l: char)
    ensures !('A' <= l <= 'Z')
    ensures ('A' <= c <= 'Z' || 'a' <= c <= 'z') <==> 'a' <= l <= 'z'
    ensures !('A' <= c <= 'Z') ==> l == c
    ensures 'A' <= c <= 'Z' ==> l as int - 'a' as int == c as int - 'A' as int
  {
    if 'A' <= c <= 'Z' then (c as int + 32) as char else c
  }

  /** `toLowerCase` of a whole string: no upper-case letter is left, and a character changes
      exactly when it was an upper-case letter. */
  function LowerAll(s: string): (r: string)
    ensures |r| == |s|
    ensures forall i :: 0 <= i < |r| ==> !('A' <= r[i] <= 'Z')
    ensures forall i :: 0 <= i < |r| ==> (r[i] == s[i] <==> !('A' <= s[i] <= 'Z'))
    ensures forall i :: 0 <= i < |s| && 'A' <= s[i] <= 'Z' ==> r[i] as int - 'a' as int == s[i] as int - 'A' as int
  {
    seq(|s|, i requires 0 <= i < |s| => ToLower(s[i]))
  }

  /** The first character upper-cased, followed by the rest lower-cased. */
  function Capitalize(text: string): (r: string)
    ensures |r| == |text|
    ensures |text| > 0 ==> r[0] == ToUpper(text[0])
    ensures forall i :: 1 <= i < |r| ==> r[i] == ToLower(text[i])
  {
    if text == [] then [] else [ToUpper(text[0])] + LowerAll(text[1..])
  }

  lemma {:induction false} CapitalizeIdempotent(text: string)
    ensures Capitalize(Capitalize(text)) == Capitalize(text)
  {
    var once := Capitalize(text);
    var twice := Capitalize(once);
    forall i | 0 <= i < |text| ensures twice[i] == once[i] {
      if i == 0 {
        assert twice[0] == ToUpper(ToUpper(text[0]));
      } else {
        assert twice[i] == ToLower(ToLower(text[i]));
      }
    }
  }

  // ---------------------------------------------------------------------------
  // truncate
  // ---------------------------------------------------------------------------

  /** truncate, whose suffix defaults to three dots. Taking a prefix clamps a negative end to 0;
      the end is never beyond the text, because it is only computed when the text is longer than maxLength. */
  function Truncate(text: string, maxLength: int, suffix: string := "..."): (r: string)
    ensures |text| <= maxLength ==> r == text
    ensures |text| > maxLength >= |suffix| ==> |r| == maxLength && r == text[..maxLength - |suffix|] + suffix
    ensures |text| > maxLength && maxLength < |suffix| ==> r == suffix
  {
    if |text| <= maxLength then text
    else
      var end := if maxLength - |suffix| < 0 then 0 else maxLength - |suffix|;
      text[..end] + suffix
  }

  /** Truncating a truncated text again changes nothing. */
  lemma {:induction false} TruncateIdempotent(text: string, maxLength: int, suffix: string)
    ensures Truncate(Truncate(text, maxLength, suffix), maxLength, suffix) == Truncate(text, maxLength, suffix)
  {
    if |text| > maxLength && maxLength < |suffix| {
      assert suffix[..0] + suffix == suffix;
    }
  }

  // ---------------------------------------------------------------------------
  // isNullOrEmpty: absent, empty, or whitespace only
  // ---------------------------------------------------------------------------

  predicate AllWhitespace(s: string) { forall i :: 0 <= i < |s| ==> IsWhitespace(s[i]) }

  /** Leading whitespace removed: a suffix of `s` that starts with a non-whitespace character, if any. */
  function TrimStart(s: string): (r: string)
    ensures |r| <= |s| && r == s[|s| - |r|..]
    ensures AllWhitespace(s[..|s| - |r|])
    ensures r == [] || !IsWhitespace(r[0])
  {
    if s != [] && IsWhitespace(s[0]) then TrimStart(s[1..]) else s
  }

  /** Trailing whitespace removed: a prefix of `s` that ends with a non-whitespace character, if any. */
  function TrimEnd(s: string): (r: string)
    ensures |r| <= |s| && r == s[..|r|]
    ensures AllWhitespace(s[|r|..])
    ensures r == [] || !IsWhitespace(r[|r| - 1])
  {
    if s != [] && IsWhitespace(s[|s| - 1]) then TrimEnd(s[..|s| - 1]) else s
  }

  /** `trim`: what remains starts and ends with a non-whitespace character, and is empty exactly
      when the whole string was whitespace. */
  function Trim(s: string): (r: string)
    ensures |r| <= |s|
    ensures r == [] || (!IsWhitespace(r[0]) && !IsWhitespace(r[|r| - 1]))
    ensures r == [] <==> AllWhitespace(s)
    ensures CutOnlyEnds(s, |s| - |TrimStart(s)|, r)
  {
    CutEnds(s, TrimStart(s), TrimEnd(TrimStart(s)));
    TrimEnd(TrimStart(s))
  }

  /** Whitespace cut off the front, then off the back, leaves a contiguous part of the string. */
  lemma {:induction false} CutEnds(s: string, start: string, r: string)
    requires |start| <= |s| && start == s[|s| - |start|..] && AllWhitespace(s[..|s| - |start|])
    requires |r| <= |start| && r == start[..|r|] && AllWhitespace(start[|r|..])
    ensures CutOnlyEnds(s, |s| - |start|, r)
  {
    SliceOfSuffix(s, |s| - |start|, |r|);
  }

  /** `r` is `s` with whitespace cut off its two ends: the part of `s` from offset `a` on, with
      only whitespace before and after it. */
  predicate CutOnlyEnds(s: string, a: nat, r: string)
  {
    a + |r| <= |s| && r == s[a..a + |r|] && AllWhitespace(s[..a]) && AllWhitespace(s[a + |r|..])
  }

  /** Slicing a suffix is slicing the whole string further along. */
  lemma SliceOfSuffix(s: string, a: nat, n: nat)
    requires a + n <= |s|
    ensures s[a..][..n] == s[a..a + n] && s[a..][n..] == s[a + n..]
  {
  }

  /** An absent value is modelled as the empty string. */
  function IsNullOrEmpty(value: string): (r: bool)
    ensures r <==> AllWhitespace(value)
  {
    value == [] || |Trim(value)| == 0
  }

  // ---------------------------------------------------------------------------
  // isValidEmail: an anchored pattern of the form local@domain.tld
  // ---------------------------------------------------------------------------

  /** Every character of `s[lo..hi]` belongs to the class `[^\s@]`. */
  predicate PlainRange(s: string, lo: int, hi: int)
    requires 0 <= lo <= hi <= |s|
  {
    forall i :: lo <= i < hi ==> !IsWhitespace(s[i]) && s[i] != '@'
  }

  /** What the anchored pattern matches: a non-empty run of `[^\s@]`, `@`, a non-empty run, `.`,
      and a non-empty run reaching the end. */
  ghost function EmailPattern(s: string): (m: bool)
    ensures m ==> 5 <= |s| && '@' in s && '.' in s
  {
    exists at, dot :: 0 < at && at + 1 < dot && dot + 1 < |s| && s[at] == '@' && s[dot] == '.'
      && PlainRange(s, 0, at) && PlainRange(s, at + 1, dot) && PlainRange(s, dot + 1, |s|)
  }

  /** Index of the first occurrence of `x`, or `|s|` when there is none (`indexOf`, and the position
      at which a `Set` first meets an element). */
  function IndexOf<T(==)>(s: seq<T>, x: T): (k: nat)
    ensures k <= |s| && (k < |s| <==> x in s)
    ensures k < |s| ==> s[k] == x
    ensures forall i :: 0 <= i < k ==> s[i] != x
  {
    if s == [] then 0 else if s[0] == x then 0 else 1 + IndexOf(s[1..], x)
  }

  /** Exactly one `@`, no whitespace, something before the `@`, and after it a `.` that is neither
      the first nor the last character of the part after the `@`. */
  function IsValidEmail(email: string): (ok: bool)
    ensures ok ==> 5 <= |email| && IndexOf(email, '@') < |email|
    ensures ok ==> forall i :: 0 <= i < |email| ==>
      !IsWhitespace(email[i]) && (email[i] == '@' <==> i == IndexOf(email, '@'))
  {
    var at := IndexOf(email, '@');
    0 < at < |email| && PlainRange(email, 0, at) && PlainRange(email, at + 1, |email|)
    && exists dot :: at + 1 < dot < |email| - 1 && email[dot] == '.'
  }

  /** Whatever the function accepts, the pattern matches. */
  lemma {:induction false} IsValidEmailSound(email: string)
    requires IsValidEmail(email)
    ensures EmailPattern(email)
  {
    var at := IndexOf(email, '@');
    var dot :| at + 1 < dot < |email| - 1 && email[dot] == '.';
    assert PlainRange(email, at + 1, dot);
    assert PlainRange(email, dot + 1, |email|);
  }

  /** Whatever the pattern matches, the function accepts: the `@` of any match is the first `@`. */
  lemma {:induction false} IsValidEmailComplete(email: string)
    requires EmailPattern(email)
    ensures IsValidEmail(email)
  {
    var at, dot :| 0 < at && at + 1 < dot && dot + 1 < |email| && email[at] == '@' && email[dot] == '.'
      && PlainRange(email, 0, at) && PlainRange(email, at + 1, dot) && PlainRange(email, dot + 1, |email|);
    IndexOfFirst(email, '@', at);
    assert !IsWhitespace('.');
    PlainRangeJoin(email, at + 1, dot, |email|);
  }

  /** A position holding `c` with no `c` before it is the first occurrence. */
  lemma {:induction false} IndexOfFirst<T>(s: seq<T>, c: T, k: nat)
    requires k < |s| && s[k] == c && forall i :: 0 <= i < k ==> s[i] != c
    ensures IndexOf(s, c) == k
  {
  }

  /** Two plain ranges around one plain character form one plain range. */
  lemma {:induction false} PlainRangeJoin(s: string, lo: int, mid: int, hi: int)
    requires 0 <= lo <= mid < hi <= |s|
    requires PlainRange(s, lo, mid) && PlainRange(s, mid + 1, hi)
    requires !IsWhitespace(s[mid]) && s[mid] != '@'
    ensures PlainRange(s, lo, hi)
  {
  }

  // ---------------------------------------------------------------------------
  // removeDuplicates: the elements read back from a Set built over the array
  // ---------------------------------------------------------------------------

  predicate NoDuplicates<T(==)>(s: seq<T>) { forall i, j :: 0 <= i < j < |s| ==> s[i] != s[j] }

  /** A `Set` keeps the first insertion of each element and is read back in insertion order. */
  method RemoveDuplicates<T(==)>(items: seq<T>) returns (r: seq<T>)
    ensures NoDuplicates(r)
    ensures forall x :: x in r <==> x in items
    ensures forall i, j :: 0 <= i < j < |r| ==> IndexOf(items, r[i]) < IndexOf(items, r[j])
  {
    var seen: set<T> := {};
    r := [];
    for n := 0 to |items|
      invariant seen == set x | x in r
      invariant NoDuplicates(r)
      invariant forall x :: x in r <==> x in items[..n]
      invariant forall i :: 0 <= i < |r| ==> r[i] in items && IndexOf(items, r[i]) < n
      invariant forall i, j :: 0 <= i < j < |r| ==> IndexOf(items, r[i]) < IndexOf(items, r[j])
    {
      var x := items[n];
      assert items[..n + 1] == items[..n] + [x];
      if x !in seen {
        var f := IndexOf(items, x);
        assert f == n;
        r := r + [x];
        seen := seen + {x};
      }
    }
    assert items[..|items|] == items;
  }

  // ---------------------------------------------------------------------------
  // groupBy: a reduction over the items into a plain object of arrays, one per key
  // ---------------------------------------------------------------------------

  /** The items whose key is `k`, in their original order. */
  function Select<T>(items: seq<T>, keyOf: T -> string, k: string): (r: seq<T>)
    ensures |r| <= |items|
    ensures forall i :: 0 <= i < |r| ==> keyOf(r[i]) == k
  {
    if items == [] then []
    else
      var last := items[|items| - 1];
      Select(items[..|items| - 1], keyOf, k) + (if keyOf(last) == k then [last] else [])
  }

  /** Every item belongs to the group of its own key. */
  lemma {:induction false} SelectContainsItem<T>(items: seq<T>, keyOf: T -> string, i: nat)
    requires i < |items|
    ensures items[i] in Select(items, keyOf, keyOf(items[i]))
  {
    if i < |items| - 1 {
      SelectContainsItem(items[..|items| - 1], keyOf, i);
    }
  }

  /** The keys of the items. */
  function KeysOf<T>(items: seq<T>, keyOf: T -> string): (keys: set<string>)
    ensures forall k :: k in keys <==> exists i :: 0 <= i < |items| && keyOf(items[i]) == k
  {
    if items == [] then {}
    else
      var prefix := items[..|items| - 1];
      assert forall i :: 0 <= i < |prefix| ==> prefix[i] == items[i];
      KeysOf(prefix, keyOf) + {keyOf(items[|items| - 1])}
  }

  /** Property names an object literal `{}` inherits from `Object.prototype`. Looking one of them up
      yields a function or an object, which is truthy and has no `push`. */
  const InheritedKeys: set<string> := {
    "constructor", "__proto__", "toString", "toLocaleString", "valueOf", "hasOwnProperty",
    "isPrototypeOf", "propertyIsEnumerable", "__defineGetter__", "__defineSetter__",
    "__lookupGetter__", "__lookupSetter__"
  }

  /** groupBy as written. The accumulator is a plain object that inherits the property names
      `inherited` (by default those of `Object.prototype`). For an item whose key is one of them
      `!result[groupKey]` is false, so no group is created, and `result[groupKey].push(item)` throws
      a TypeError, which ends the whole call. */
  method GroupByAsWritten<T>(items: seq<T>, keyOf: T -> string, inherited: set<string> := InheritedKeys)
    returns (r: Result<map<string, seq<T>>, string>)
    ensures r.Failure? <==> exists i :: 0 <= i < |items| && keyOf(items[i]) in inherited
    ensures r.Failure? ==> r.error in inherited
    ensures r.Failure? ==> exists i :: 0 <= i < |items| && keyOf(items[i]) == r.error
                                    && forall j :: 0 <= j < i ==> keyOf(items[j]) !in inherited
    ensures r.Success? ==> Grouped(r.value, items, keyOf)
  {
    var result: map<string, seq<T>> := map[];
    var n := 0;
    while n < |items| && keyOf(items[n]) !in inherited
      invariant n <= |items|
      invariant forall i :: 0 <= i < n ==> keyOf(items[i]) !in inherited
      invariant result == Accumulate(items[..n], keyOf)
    {
      var item := items[n];
      var groupKey := keyOf(item);
      if groupKey !in result {
        result := result[groupKey := []];
      }
      result := result[groupKey := result[groupKey] + [item]];
      AccumulateStep(items, keyOf, n);
      n := n + 1;
    }
    if n < |items| {
      // the push on the inherited, non-array value throws
      r := Failure(keyOf(items[n]));
    } else {
      assert items[..n] == items;
      AccumulateGroups(items, keyOf);
      r := Success(result);
    }
  }

  /** groupBy as intended: every key gets its own group, including the names `Object.prototype` has. */
  method GroupBy<T>(items: seq<T>, keyOf: T -> string) returns (result: map<string, seq<T>>)
    ensures Grouped(result, items, keyOf)
  {
    result := map[];
    for n := 0 to |items|
      invariant result == Accumulate(items[..n], keyOf)
    {
      var item := items[n];
      var groupKey := keyOf(item);
      if groupKey !in result {
        result := result[groupKey := []];
      }
      result := result[groupKey := result[groupKey] + [item]];
      AccumulateStep(items, keyOf, n);
    }
    assert items[..|items|] == items;
    AccumulateGroups(items, keyOf);
  }

  /** The accumulator after the reduce callback has run on every item, each item pushed onto the
      group of its key, the group created empty when missing. */
  function Accumulate<T>(items: seq<T>, keyOf: T -> string): (groups: map<string, seq<T>>)
    ensures forall k :: k in groups ==> groups[k] != []
  {
    if items == [] then map[]
    else
      var groups := Accumulate(items[..|items| - 1], keyOf);
      var item := items[|items| - 1];
      var key := keyOf(item);
      groups[key := (if key in groups then groups[key] else []) + [item]]
  }

  /** The accumulator one item further: the item pushed onto the group of its key. */
  lemma {:induction false} AccumulateStep<T>(items: seq<T>, keyOf: T -> string, n: nat)
    requires n < |items|
    ensures var groups := Accumulate(items[..n], keyOf);
      var key := keyOf(items[n]);
      Accumulate(items[..n + 1], keyOf) == groups[key := (if key in groups then groups[key] else []) + [items[n]]]
  {
    assert items[..n + 1][..n] == items[..n];
  }

  /** `groups` has one non-empty group per key of `items`, holding the items of that key in order. */
  ghost predicate Grouped<T>(groups: map<string, seq<T>>, items: seq<T>, keyOf: T -> string) {
    && groups.Keys == KeysOf(items, keyOf)
    && forall k :: k in groups ==> groups[k] == Select(items, keyOf, k) && groups[k] != []
  }

  /** The accumulated groups are exactly the groups by key. */
  lemma {:induction false} AccumulateGroups<T>(items: seq<T>, keyOf: T -> string)
    ensures Grouped(Accumulate(items, keyOf), items, keyOf)
  {
    if items != [] {
      var n := |items| - 1;
      assert items[..n + 1] == items;
      AccumulateGroups(items[..n], keyOf);
      GroupedStep(Accumulate(items[..n], keyOf), Accumulate(items, keyOf), items, keyOf, n);
    }
  }

  /** Pushing the next item onto its group (created empty if missing) keeps the groups exact. */
  lemma {:induction false} GroupedStep<T>(before: map<string, seq<T>>, after: map<string, seq<T>>,
                                          items: seq<T>, keyOf: T -> string, n: nat)
    requires n < |items| && Grouped(before, items[..n], keyOf)
    requires var key := keyOf(items[n]);
      after == before[key := (if key in before then before[key] else []) + [items[n]]]
    ensures Grouped(after, items[..n + 1], keyOf)
  {
    GroupKeysStep(before, after, items, keyOf, n);
    forall k | k in after ensures after[k] == Select(items[..n + 1], keyOf, k) && after[k] != [] {
      GroupAfterStep(before, after, items, keyOf, n, k);
    }
  }

  /** The push adds the next item's key to the keys and no other. */
  lemma {:induction false} GroupKeysStep<T>(before: map<string, seq<T>>, after: map<string, seq<T>>,
                                            items: seq<T>, keyOf: T -> string, n: nat)
    requires n < |items| && before.Keys == KeysOf(items[..n], keyOf)
    requires var key := keyOf(items[n]);
      after == before[key := (if key in before then before[key] else []) + [items[n]]]
    ensures after.Keys == KeysOf(items[..n + 1], keyOf)
  {
    KeysStep(items, keyOf, n);
    assert after.Keys == before.Keys + {keyOf(items[n])};
  }

  /** One group after the push: the pushed key's group grows by the item, every other group stays. */
  lemma {:induction false} GroupAfterStep<T>(before: map<string, seq<T>>, after: map<string, seq<T>>,
                                             items: seq<T>, keyOf: T -> string, n: nat, k: string)
    requires n < |items| && Grouped(before, items[..n], keyOf)
    requires var key := keyOf(items[n]);
      after == before[key := (if key in before then before[key] else []) + [items[n]]]
    requires k in after
    ensures after[k] == Select(items[..n + 1], keyOf, k) && after[k] != []
  {
    if k == keyOf(items[n]) {
      GroupOfNextItem(before, items, keyOf, n);
    } else {
      SelectStep(items, keyOf, n, k);
    }
  }

  /** The group of the next item's key, after the push, is that key's selection one item further. */
  lemma {:induction false} GroupOfNextItem<T>(before: map<string, seq<T>>, items: seq<T>, keyOf: T -> string, n: nat)
    requires n < |items| && Grouped(before, items[..n], keyOf)
    ensures var key := keyOf(items[n]);
      (if key in before then before[key] else []) + [items[n]] == Select(items[..n + 1], keyOf, key)
  {
    var key := keyOf(items[n]);
    SelectStep(items, keyOf, n, key);
    if key !in before {
      var prefix := items[..n];
      forall i | 0 <= i < |prefix| ensures keyOf(prefix[i]) != key {
        if keyOf(prefix[i]) == key {
          assert false;
        }
      }
      SelectAbsent(prefix, keyOf, key);
    }
  }

  /** What one more item adds to a group. */
  lemma {:induction false} SelectStep<T>(items: seq<T>, keyOf: T -> string, n: nat, k: string)
    requires n < |items|
    ensures Select(items[..n + 1], keyOf, k)
         == Select(items[..n], keyOf, k) + (if keyOf(items[n]) == k then [items[n]] else [])
  {
    assert items[..n + 1][..n] == items[..n];
  }

  /** What one more item adds to the keys. */
  lemma {:induction false} KeysStep<T>(items: seq<T>, keyOf: T -> string, n: nat)
    requires n < |items|
    ensures KeysOf(items[..n + 1], keyOf) == KeysOf(items[..n], keyOf) + {keyOf(items[n])}
  {
    assert items[..n + 1][..n] == items[..n];
  }

  /** A key no item has selects nothing. */
  lemma {:induction false} SelectAbsent<T>(items: seq<T>, keyOf: T -> string, k: string)
    requires forall i :: 0 <= i < |items| ==> keyOf(items[i]) != k
    ensures Select(items, keyOf, k) == []
  {
    if items != [] {
      SelectAbsent(items[..|items| - 1], keyOf, k);
    }
  }
}
