/** The `document` display pipe, from src/app/shared/pipes/document/document-pipe.ts: it punctuates a
    CPF or a CNPJ when the digit count is exactly right for the requested kind, and otherwise shows
    the value as it was given. */
module DocumentPipe {
  import opened Helpers

  /** The pipe's `type` argument: 'cpf' (the default) or 'cnpj'. */
  datatype DocumentType = Cpf | Cnpj

  function Transform(value: string, kind: DocumentType := Cpf): (r: string)
    ensures value == [] ==> r == []
    ensures var cleaned := RemoveFormatting(value);
      && (value != [] && kind == Cpf && |cleaned| == 11 ==> |r| == 14 && FitsMask(r, CpfMask) && r == FormatCPF(value))
      && (value != [] && kind == Cnpj && |cleaned| == 14 ==> |r| == 18 && FitsMask(r, CnpjMask) && r == FormatCNPJ(value))
      && (!(kind == Cpf && |cleaned| == 11) && !(kind == Cnpj && |cleaned| == 14) ==> r == value)
  {
    if value == [] then []
    else
      var cleaned := RemoveFormatting(value);
      if kind == Cpf && |cleaned| == 11 then CpfPattern(cleaned)
      else if kind == Cnpj && |cleaned| == 14 then CnpjPattern(cleaned)
      else value
  }

  /** Every branch keeps the digits of the input, in order. */
  lemma {:induction false} TransformKeepsDigits(value: string, kind: DocumentType)
    ensures RemoveFormatting(Transform(value, kind)) == RemoveFormatting(value)
  {
    if value != [] {
      var cleaned := RemoveFormatting(value);
      if kind == Cpf && |cleaned| == 11 {
        CpfPatternRoundTrip(cleaned);
      } else if kind == Cnpj && |cleaned| == 14 {
        CnpjPatternRoundTrip(cleaned);
      }
    }
  }

  /** Applying the pipe twice with the same kind gives what applying it once gave. */
  lemma {:induction false} TransformIdempotent(value: string, kind: DocumentType)
    ensures Transform(Transform(value, kind), kind) == Transform(value, kind)
  {
    var once := Transform(value, kind);
    TransformKeepsDigits(value, kind);
    var cleaned := RemoveFormatting(value);
    if value != [] && ((kind == Cpf && |cleaned| == 11) || (kind == Cnpj && |cleaned| == 14)) {
      assert once != [];
      assert RemoveFormatting(once) == cleaned;
    }
  }
}
