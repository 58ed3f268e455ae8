/** The sign-up form: CPF (Brazilian taxpayer number) validation and the
    `ddd.ddd.ddd-dd` input mask, and the order in which a submission is
    rejected before `onSignUp` is called. */
module SignUp {
  import opened Wrappers
  import opened Text

  /** `validateCPF`: the input holds exactly eleven digits once every other
      character is removed. */
  function ValidateCpf(cpf: string): (b: bool)
    ensures b ==> |cpf| >= 11
  {
    |Digits(cpf)| == 11
  }

  /** The mask applied by `replace(/(\d{3})(\d{3})(\d{3})(\d{2})/, '$1.$2.$3-$4')`
      to a string of digits. The pattern is unanchored and not global, so its
      first match starts at the first digit and anything after the eleventh
      digit is kept as it is. */
  function Mask(d: string): string
    requires |d| >= 11
  {
    d[..3] + "." + d[3..6] + "." + d[6..9] + "-" + d[9..11] + d[11..]
  }

  /** `formatCPF`: keep the digits, and mask them once there are at least
      eleven, which adds two dots and a dash. */
  function FormatCpf(value: string): (r: string)
    ensures |Digits(value)| < 11 ==> r == Digits(value)
    ensures |Digits(value)| >= 11 ==> |r| == |Digits(value)| + 3 && r[3] == '.' && r[7] == '.' && r[11] == '-'
  {
    var clean := Digits(value);
    if |clean| >= 11 then Mask(clean) else clean
  }

  /** The shape `ddd.ddd.ddd-dd`. */
  predicate IsMaskedCpf(s: string) {
    && |s| == 14
    && s[3] == '.' && s[7] == '.' && s[11] == '-'
    && forall i | 0 <= i < 14 && i != 3 && i != 7 && i != 11 :: IsDigit(s[i])
  }

  /** What `handleSubmit` does with the form: the first failing check wins,
      and only a form that passes all three reaches `onSignUp`, with an empty
      CPF passed as `undefined`. */
  datatype SignUpCheck =
    | PasswordsDiffer
    | PasswordTooShort
    | InvalidCpf
    | Submit(email: string, password: string, nome: string, cpf: Option<string>)

  datatype SignUpForm = SignUpForm(email: string, password: string, confirmPassword: string, nome: string, cpf: string)

  /** `handleSubmit` up to the call of `onSignUp`. */
  function CheckSubmit(f: SignUpForm): (r: SignUpCheck)
    ensures r.PasswordsDiffer? <==> f.password != f.confirmPassword
    ensures r.PasswordTooShort? <==> f.password == f.confirmPassword && |f.password| < 6
    ensures r.InvalidCpf? <==> f.password == f.confirmPassword && |f.password| >= 6
                               && f.cpf != "" && !ValidateCpf(f.cpf)
    ensures r.Submit? ==> && f.password == f.confirmPassword && |f.password| >= 6
                          && (f.cpf == "" || ValidateCpf(f.cpf))
                          && r.email == f.email && r.password == f.password && r.nome == f.nome
                          && (r.cpf.None? <==> f.cpf == "")
                          && (r.cpf.Some? ==> r.cpf.value == f.cpf)
  {
    if f.password != f.confirmPassword then PasswordsDiffer
    else if |f.password| < 6 then PasswordTooShort
    else if f.cpf != "" && !ValidateCpf(f.cpf) then InvalidCpf
    else Submit(f.email, f.password, f.nome, NonEmpty(f.cpf))
  }

  // ---------------------------------------------------------------- lemmas

  /** Validation ignores every non-digit: inserting any other character
      anywhere leaves the verdict unchanged. */
  lemma ValidateIgnoresNonDigits(a: string, c: char, b: string)
    requires !IsDigit(c)
    ensures ValidateCpf(a + [c] + b) == ValidateCpf(a + b)
  {
    DigitsAppend(a + [c], b);
    DigitsAppend(a, [c]);
    DigitsAppend(a, b);
  }

  /** On a string of digits alone, validation is a length check for eleven. */
  lemma ValidateDigitsOnly(d: string)
    requires AllDigits(d)
    ensures ValidateCpf(d) <==> |d| == 11
  {
    DigitsOfDigits(d);
  }

  /** A run of digits, one separator and a tail keep the run and the tail's digits. */
  lemma DigitsAroundSeparator(x: string, sep: char, y: string)
    requires AllDigits(x) && !IsDigit(sep)
    ensures Digits(x + [sep] + y) == x + Digits(y)
  {
    assert Digits(x + [sep]) == x by {
      DigitsAppend(x, [sep]);
      DigitsOfDigits(x);
      assert Digits([sep]) == [] by { DigitsOfNonDigits([sep]); }
    }
    DigitsAppend(x + [sep], y);
  }

  /** A separator appended to a string adds no digit. */
  lemma SeparatorAddsNothing(x: string, sep: char)
    requires !IsDigit(sep)
    ensures Digits(x + [sep]) == Digits(x)
  {
    DigitsAppend(x, [sep]);
    DigitsOfNonDigits([sep]);
  }

  /** A run of digits appended to a string is kept whole. */
  lemma RunKept(x: string, y: string)
    requires AllDigits(y)
    ensures Digits(x + y) == Digits(x) + y
  {
    DigitsAppend(x, y);
    DigitsOfDigits(y);
  }

  /** Digit runs joined by the mask's separators keep exactly their digits. */
  lemma {:induction false} MaskParts(a: string, b: string, c: string, e: string)
    requires AllDigits(a) && AllDigits(b) && AllDigits(c) && AllDigits(e)
    ensures Digits(a + "." + b + "." + c + "-" + e) == a + b + c + e
  {
    RunKept([], a);
    assert [] + a == a;
    SeparatorAddsNothing(a, '.');
    RunKept(a + ".", b);
    SeparatorAddsNothing(a + "." + b, '.');
    RunKept(a + "." + b + ".", c);
    SeparatorAddsNothing(a + "." + b + "." + c, '-');
    RunKept(a + "." + b + "." + c + "-", e);
  }

  /** The mask keeps the digits in order and adds only separators. */
  lemma MaskKeepsDigits(d: string)
    requires |d| >= 11 && AllDigits(d)
    ensures Digits(Mask(d)) == d
  {
    assert Mask(d) == d[..3] + "." + d[3..6] + "." + d[6..9] + "-" + d[9..] by {
      assert d[9..11] + d[11..] == d[9..];
    }
    MaskParts(d[..3], d[3..6], d[6..9], d[9..]);
    assert d[..3] + d[3..6] + d[6..9] + d[9..] == d;
  }

  /** Formatting preserves the digit sequence: removing the non-digits from
      the output gives the input's digits. */
  lemma FormatKeepsDigits(value: string)
    ensures Digits(FormatCpf(value)) == Digits(value)
  {
    var clean := Digits(value);
    if |clean| >= 11 {
      MaskKeepsDigits(clean);
    } else {
      DigitsOfDigits(clean);
    }
  }

  /** Formatting twice is formatting once, so re-formatting the field on each
      keystroke never changes an already formatted value. */
  lemma FormatIdempotent(value: string)
    ensures FormatCpf(FormatCpf(value)) == FormatCpf(value)
  {
    FormatKeepsDigits(value);
  }

  /** With exactly eleven digits the output has the shape `ddd.ddd.ddd-dd`;
      with fewer it is the bare digit string. */
  lemma FormatShape(value: string)
    ensures |Digits(value)| == 11 ==> IsMaskedCpf(FormatCpf(value))
    ensures |Digits(value)| < 11 ==> FormatCpf(value) == Digits(value)
  {
    var d := Digits(value);
    if |d| == 11 {
      var m := Mask(d);
      assert m[..3] == d[..3];
      assert m[4..7] == d[3..6];
      assert m[8..11] == d[6..9];
      assert m[12..14] == d[9..11];
      forall i | 0 <= i < 14 && i != 3 && i != 7 && i != 11
        ensures IsDigit(m[i])
      {
        if i < 3 { assert m[i] == d[i]; }
        else if i < 7 { assert m[i] == d[i - 1]; }
        else if i < 11 { assert m[i] == d[i - 2]; }
        else { assert m[i] == d[i - 3]; }
      }
    }
  }

  /** A formatted CPF is valid exactly when the raw input was. */
  lemma FormatKeepsValidity(value: string)
    ensures ValidateCpf(FormatCpf(value)) == ValidateCpf(value)
  {
    FormatKeepsDigits(value);
  }

  /** The CPF input holds `formatCPF` of what was typed. Checking the
      formatted field gives the verdict the typed text would get whenever that
      text is empty or holds a digit, and the formatted CPF is what is sent.
      Text without any digit is the exception: it would be rejected as typed,
      but it formats to `""` and is then submitted without a CPF. */
  lemma CheckSubmitOnFormattedField(f: SignUpForm)
    ensures var raw, shown := CheckSubmit(f), CheckSubmit(f.(cpf := FormatCpf(f.cpf)));
      (f.cpf == "" || Digits(f.cpf) != "") ==>
        && raw.PasswordsDiffer? == shown.PasswordsDiffer?
        && raw.PasswordTooShort? == shown.PasswordTooShort?
        && raw.InvalidCpf? == shown.InvalidCpf?
        && raw.Submit? == shown.Submit?
        && (shown.Submit? ==> shown.cpf == NonEmpty(FormatCpf(f.cpf)))
    ensures f.cpf != "" && Digits(f.cpf) == "" && f.password == f.confirmPassword && |f.password| >= 6 ==>
      CheckSubmit(f).InvalidCpf? && CheckSubmit(f.(cpf := FormatCpf(f.cpf))).Submit?
  {
    FormatKeepsValidity(f.cpf);
    FormatKeepsDigits(f.cpf);
    assert Digits("") == "";
  }

  /** An empty CPF is never validated and reaches `onSignUp` as absent, so a
      form with matching passwords of six or more characters and no CPF is
      always submitted. */
  lemma EmptyCpfSubmits(f: SignUpForm)
    requires f.cpf == "" && f.password == f.confirmPassword && |f.password| >= 6
    ensures CheckSubmit(f) == Submit(f.email, f.password, f.nome, None)
  {
  }
}
