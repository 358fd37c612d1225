/** A bank customer: identity fields with their validation and normalisation, age and account eligibility. */
module Customers {
  import opened Wrappers
  import opened Calendar
  import opened Text

  /** One constructor per exception message the customer's setters can throw. */
  datatype CustomerError =
    | BlankName              // "Nome não pode ser vazio"
    | NameTooShort           // "Nome deve ter pelo menos 2 caracteres"
    | BlankCpf               // "CPF não pode ser vazio"
    | CpfNotElevenDigits     // "CPF deve ter 11 dígitos"
    | NullBirthDate          // "Data de nascimento não pode ser nula"
    | FutureBirthDate        // "Data de nascimento não pode ser futura"
    | AdultNeedsNoEmancipation
    | AdultNeedsNoGuardian
    | GuardianIsMinor
    | InvalidEmail
    | PhoneDigitCount        // "Telefone deve ter 10 ou 11 dígitos"

  /** Age of majority, used by emancipation, guardianship and checking-account eligibility. */
  const AdultAge := 18

  /** Renders 11 digits as ddd.ddd.ddd-dd. */
  function FormatCpf(d: string): (r: string)
    requires |d| == 11
    ensures |r| == 14 && r[3] == '.' && r[7] == '.' && r[11] == '-'
  {
    d[0..3] + "." + d[3..6] + "." + d[6..9] + "-" + d[9..11]
  }

  /** Renders 10 digits as (dd) dddd-dddd and 11 digits as (dd) ddddd-dddd. */
  function FormatPhone(d: string): (r: string)
    requires |d| == 10 || |d| == 11
    ensures |r| == |d| + 4 && r[0] == '(' && r[3] == ')' && r[4] == ' ' && r[|d| - 1] == '-'
  {
    if |d| == 10 then "(" + d[0..2] + ") " + d[2..6] + "-" + d[6..10]
    else "(" + d[0..2] + ") " + d[2..7] + "-" + d[7..11]
  }

  /** Digits of a string with a separator run in between: the separator contributes nothing. */
  lemma {:induction false} DigitsAround(a: string, sep: string, b: string)
    requires forall i :: 0 <= i < |sep| ==> !IsDigit(sep[i])
    ensures Digits(a + sep + b) == Digits(a) + Digits(b)
  {
    DigitsConcat(a + sep, b);
    DigitsConcat(a, sep);
    DigitsOfSeparators(sep);
  }

  /** The separators FormatCpf inserts carry no digit: its digit string is its input. */
  lemma {:induction false} CpfDigitsRoundTrip(d: string)
    requires |d| == 11 && AllDigits(d)
    ensures Digits(FormatCpf(d)) == d
  {
    var a, b, c, e := d[0..3], d[3..6], d[6..9], d[9..11];
    DigitsOfDigits(a); DigitsOfDigits(b); DigitsOfDigits(c); DigitsOfDigits(e);
    DigitsAround(a, ".", b);
    DigitsAround(a + "." + b, ".", c);
    DigitsAround(a + "." + b + "." + c, "-", e);
    assert a + b + c + e == d;
  }

  /** The digit string of a formatted phone number is the number itself. */
  lemma {:induction false} PhoneDigitsRoundTrip(d: string)
    requires (|d| == 10 || |d| == 11) && AllDigits(d)
    ensures Digits(FormatPhone(d)) == d
  {
    var k := |d| - 4;
    var a, b, c := d[0..2], d[2..k], d[k..];
    assert FormatPhone(d) == "(" + a + ") " + b + "-" + c;
    DigitsOfGroups("(", a, ") ", b, "-", c);
    assert a + b + c == d;
  }

  /** Three digit groups behind separators that carry no digit: the digit string is the groups joined. */
  lemma {:induction false} DigitsOfGroups(p: string, a: string, q: string, b: string, r: string, c: string)
    requires forall i :: 0 <= i < |p| ==> !IsDigit(p[i])
    requires forall i :: 0 <= i < |q| ==> !IsDigit(q[i])
    requires forall i :: 0 <= i < |r| ==> !IsDigit(r[i])
    requires AllDigits(a) && AllDigits(b) && AllDigits(c)
    ensures Digits(p + a + q + b + r + c) == a + b + c
  {
    DigitsOfDigits(a); DigitsOfDigits(b); DigitsOfDigits(c);
    DigitsOfSeparators(p);
    DigitsConcat(p, a);
    assert Digits(p + a) == a;
    DigitsAround(p + a, q, b);
    DigitsAround(p + a + q + b, r, c);
  }

  /**
   * `setNome`: rejects null and blank names, then names shorter than 2 UTF-16
   * code units before trimming; keeps the trimmed name.
   */
  function CheckName(n: Option<string>): (r: Result<string, CustomerError>)
    ensures r.Success? <==> n.Some? && !IsBlank(n.value) && Utf16Length(n.value) >= 2
    ensures r.Failure? ==> r.error == (if n.None? || IsBlank(n.value) then BlankName else NameTooShort)
    ensures r.Success? ==> r.value == Trim(n.value) && IsTrimmedName(r.value)
  {
    if n.None? || IsBlank(n.value) then Failure(BlankName)
    else if Utf16Length(n.value) < 2 then Failure(NameTooShort)
    else (TrimEmptyIffBlank(n.value); Success(Trim(n.value)))
  }

  /** A stored name: not empty, no trimmable character at either end. */
  predicate IsTrimmedName(n: string)
  {
    n != [] && !IsTrimmable(n[0]) && !IsTrimmable(n[|n| - 1])
  }

  /** `setCpf`: rejects null or blank input, strips every non-digit, requires exactly 11 digits and formats them. */
  function CheckCpf(c: Option<string>): (r: Result<string, CustomerError>)
    ensures r.Success? <==> c.Some? && !IsBlank(c.value) && |Digits(c.value)| == 11
    ensures r.Success? ==> |r.value| == 14 && r.value == FormatCpf(Digits(c.value))
    ensures r.Failure? ==> r.error == (if c.None? || IsBlank(c.value) then BlankCpf else CpfNotElevenDigits)
  {
    if c.None? || IsBlank(c.value) then Failure(BlankCpf)
    else if |Digits(c.value)| != 11 then Failure(CpfNotElevenDigits)
    else Success(FormatCpf(Digits(c.value)))
  }

  /** A stored CPF: ddd.ddd.ddd-dd, position by position. */
  predicate IsFormattedCpf(s: string)
  {
    |s| == 14
    && forall i :: 0 <= i < 14 ==>
         if i == 3 || i == 7 then s[i] == '.' else if i == 11 then s[i] == '-' else IsDigit(s[i])
  }

  /** Whatever `setCpf` stores is a formatted CPF, and a formatted CPF is stored unchanged. */
  lemma {:induction false} CpfIdempotent(c: Option<string>)
    requires CheckCpf(c).Success?
    ensures IsFormattedCpf(CheckCpf(c).value)
    ensures CheckCpf(Some(CheckCpf(c).value)) == CheckCpf(c)
  {
    var d := Digits(c.value);
    DigitsAreDigits(c.value);
    var s := FormatCpf(d);
    assert IsFormattedCpf(s);
    FormattedCpfIsFixed(s);
  }

  lemma {:induction false} FormattedCpfIsFixed(s: string)
    requires IsFormattedCpf(s)
    ensures CheckCpf(Some(s)) == Success(s)
  {
    var a, b, c, e := s[0..3], s[4..7], s[8..11], s[12..14];
    var d := a + b + c + e;
    assert AllDigits(d) by {
      assert AllDigits(a) && AllDigits(b) && AllDigits(c) && AllDigits(e);
    }
    assert FormatCpf(d) == s by {
      assert d[0..3] == a && d[3..6] == b && d[6..9] == c && d[9..11] == e;
      assert s == a + "." + b + "." + c + "-" + e;
    }
    CpfDigitsRoundTrip(d);
    assert !IsTrimmable(s[3]);
  }

  /** `setTelefone`: null or blank becomes null; otherwise 10 or 11 digits, formatted. */
  function CheckPhone(p: Option<string>): (r: Result<Option<string>, CustomerError>)
    ensures p.None? || IsBlank(p.value) ==> r == Success(None)
    ensures r.Failure? <==> p.Some? && !IsBlank(p.value) && !(10 <= |Digits(p.value)| <= 11)
    ensures r.Success? && r.value.Some? ==> r.value.value == FormatPhone(Digits(p.value))
    ensures p.Some? && !IsBlank(p.value) && r.Success? ==> r.value == Some(FormatPhone(Digits(p.value)))
    ensures r.Failure? ==> r.error == PhoneDigitCount
  {
    if p.None? || IsBlank(p.value) then Success(None)
    else if |Digits(p.value)| < 10 || |Digits(p.value)| > 11 then Failure(PhoneDigitCount)
    else Success(Some(FormatPhone(Digits(p.value))))
  }

  /** A stored phone: (dd) dddd-dddd or (dd) ddddd-dddd, position by position. */
  predicate IsFormattedPhone(s: string)
  {
    (|s| == 14 || |s| == 15)
    && forall i :: 0 <= i < |s| ==>
         if i == 0 then s[i] == '(' else if i == 3 then s[i] == ')' else if i == 4 then s[i] == ' '
         else if i == |s| - 5 then s[i] == '-' else IsDigit(s[i])
  }

  /** Whatever `setTelefone` stores is a formatted phone, and a formatted phone is stored unchanged. */
  lemma {:induction false} PhoneIdempotent(p: Option<string>)
    requires CheckPhone(p).Success? && CheckPhone(p).value.Some?
    ensures IsFormattedPhone(CheckPhone(p).value.value)
    ensures CheckPhone(CheckPhone(p).value) == CheckPhone(p)
  {
    var d := Digits(p.value);
    DigitsAreDigits(p.value);
    var s := FormatPhone(d);
    assert IsFormattedPhone(s);
    FormattedPhoneIsFixed(s);
  }

  lemma {:induction false} FormattedPhoneIsFixed(s: string)
    requires IsFormattedPhone(s)
    ensures CheckPhone(Some(s)) == Success(Some(s))
  {
    var a, b, c := s[1..3], s[5..|s| - 5], s[|s| - 4..];
    PhonePieces(s, a, b, c);
    PhoneReassembles(s, a, b, c);
    assert !IsBlank(s) by { assert !IsTrimmable(s[0]); }
  }

  /** Formatting the three digit groups of a formatted phone gives it back. */
  lemma {:induction false} PhoneReassembles(s: string, a: string, b: string, c: string)
    requires IsFormattedPhone(s)
    requires a == s[1..3] && b == s[5..|s| - 5] && c == s[|s| - 4..]
    ensures |a + b + c| == |s| - 4 && FormatPhone(a + b + c) == s
  {
    var d := a + b + c;
    if |s| == 14 {
      assert d[0..2] == a && d[2..6] == b && d[6..10] == c;
    } else {
      assert d[0..2] == a && d[2..7] == b && d[7..11] == c;
    }
    assert s == "(" + a + ") " + b + "-" + c;
  }

  /** The digit string of a formatted phone is its three digit groups. */
  lemma {:induction false} PhonePieces(s: string, a: string, b: string, c: string)
    requires IsFormattedPhone(s)
    requires a == s[1..3] && b == s[5..|s| - 5] && c == s[|s| - 4..]
    ensures Digits(s) == a + b + c
  {
    assert AllDigits(a) && AllDigits(b) && AllDigits(c);
    assert s == "(" + a + ") " + b + "-" + c;
    DigitsOfGroups("(", a, ") ", b, "-", c);
  }

  /** `setEmail`: null or blank becomes null; otherwise it must contain '@' and '.', and is stored trimmed and lower-cased. */
  function CheckEmail(e: Option<string>): (r: Result<Option<string>, CustomerError>)
    ensures e.None? || IsBlank(e.value) ==> r == Success(None)
    ensures r.Failure? <==> e.Some? && !IsBlank(e.value) && !(Contains(e.value, '@') && Contains(e.value, '.'))
    ensures r.Success? && r.value.Some? ==> r.value.value == LowerAscii(Trim(e.value))
    ensures e.Some? && !IsBlank(e.value) && r.Success? ==> r.value == Some(LowerAscii(Trim(e.value)))
    ensures r.Failure? ==> r.error == InvalidEmail
  {
    if e.None? || IsBlank(e.value) then Success(None)
    else if !Contains(e.value, '@') || !Contains(e.value, '.') then Failure(InvalidEmail)
    else Success(Some(LowerAscii(Trim(e.value))))
  }

  /** A character above U+0020 survives trimming. */
  lemma {:induction false} TrimKeeps(s: string, c: char)
    requires Contains(s, c) && !IsTrimmable(c)
    ensures Contains(Trim(s), c)
  {
    var i :| 0 <= i < |s| && s[i] == c;
    TrimDropsOnlyTrimmable(s, i);
    var lo := SkipLeading(s, 0);
    assert Trim(s)[i - lo] == c;
  }

  /** A stored e-mail still contains both '@' and '.'. */
  lemma {:induction false} EmailKeepsMarkers(e: Option<string>)
    requires CheckEmail(e).Success? && CheckEmail(e).value.Some?
    ensures Contains(CheckEmail(e).value.value, '@') && Contains(CheckEmail(e).value.value, '.')
  {
    TrimKeeps(e.value, '@');
    TrimKeeps(e.value, '.');
    var t := Trim(e.value);
    var i :| 0 <= i < |t| && t[i] == '@';
    var j :| 0 <= j < |t| && t[j] == '.';
    assert LowerAscii(t)[i] == '@' && LowerAscii(t)[j] == '.';
  }

  /** `setDataNascimento`: rejects null and dates after today. */
  function CheckBirthDate(d: Option<Date>, today: Date): (r: Result<Date, CustomerError>)
    ensures r.Success? <==> d.Some? && !IsAfter(d.value, today)
    ensures r.Success? ==> r.value == d.value
    ensures r.Failure? ==> r.error == (if d.None? then NullBirthDate else FutureBirthDate)
  {
    if d.None? then Failure(NullBirthDate)
    else if IsAfter(d.value, today) then Failure(FutureBirthDate)
    else Success(d.value)
  }

  class Customer {
    var name: string
    var cpf: string
    var birthDate: Date
    var email: Option<string>
    var phone: Option<string>
    var emancipated: bool
    var guardian: Customer?

    /** The shape every setter leaves its field in. */
    ghost predicate Valid()
      reads this
    {
      IsTrimmedName(name)
      && IsFormattedCpf(cpf)
      && (phone.Some? ==> IsFormattedPhone(phone.value))
      && (email.Some? ==> Contains(email.value, '@') && Contains(email.value, '.'))
    }

    /** Stores already validated fields; the public way in is Create. */
    constructor Init(name: string, cpf: string, birthDate: Date)
      ensures this.name == name && this.cpf == cpf && this.birthDate == birthDate
      ensures email == None && phone == None && !emancipated && guardian == null
    {
      this.name := name;
      this.cpf := cpf;
      this.birthDate := birthDate;
      email := None;
      phone := None;
      emancipated := false;
      guardian := null;
    }

    /** The main constructor: validates name, then CPF, then birth date (throwing at the first failure); not emancipated, no guardian. */
    static method Create(name: Option<string>, cpf: Option<string>, birthDate: Option<Date>, today: Date)
      returns (r: Result<Customer, CustomerError>)
      ensures r.Failure? <==> CheckName(name).Failure? || CheckCpf(cpf).Failure? || CheckBirthDate(birthDate, today).Failure?
      ensures r.Failure? ==> r.error == (if CheckName(name).Failure? then CheckName(name).error
                                        else if CheckCpf(cpf).Failure? then CheckCpf(cpf).error
                                        else CheckBirthDate(birthDate, today).error)
      ensures r.Success? ==> fresh(r.value) && r.value.Valid()
      ensures r.Success? ==>
        r.value.name == CheckName(name).value && r.value.cpf == CheckCpf(cpf).value && r.value.birthDate == birthDate.value
      ensures r.Success? ==>
        r.value.email == None && r.value.phone == None && !r.value.emancipated && r.value.guardian == null
    {
      var n := CheckName(name);
      if n.Failure? { return Failure(n.error); }
      var c := CheckCpf(cpf);
      if c.Failure? { return Failure(c.error); }
      var d := CheckBirthDate(birthDate, today);
      if d.Failure? { return Failure(d.error); }
      CpfIdempotent(cpf);
      var customer := new Customer.Init(n.value, c.value, d.value);
      return Success(customer);
    }

    /** The simplified constructor: birth date 1990-01-01. */
    static method CreateWithDefaultBirth(name: Option<string>, cpf: Option<string>, today: Date)
      returns (r: Result<Customer, CustomerError>)
      ensures r.Failure? <==> CheckName(name).Failure? || CheckCpf(cpf).Failure? || IsAfter(Date(1990, 1, 1), today)
      ensures r.Failure? ==> r.error == (if CheckName(name).Failure? then CheckName(name).error
                                        else if CheckCpf(cpf).Failure? then CheckCpf(cpf).error
                                        else FutureBirthDate)
      ensures r.Success? ==> fresh(r.value) && r.value.Valid() && r.value.birthDate == Date(1990, 1, 1)
      ensures r.Success? ==> r.value.name == CheckName(name).value && r.value.cpf == CheckCpf(cpf).value
      ensures r.Success? ==>
        r.value.email == None && r.value.phone == None && !r.value.emancipated && r.value.guardian == null
    {
      r := Create(name, cpf, Some(Date(1990, 1, 1)), today);
    }

    /** The constructor for minors: the main constructor, then setResponsavelLegal. */
    static method CreateWithGuardian(name: Option<string>, cpf: Option<string>, birthDate: Option<Date>,
                                     guardian: Customer?, today: Date)
      returns (r: Result<Customer, CustomerError>)
      ensures r.Failure? <==>
        CheckName(name).Failure? || CheckCpf(cpf).Failure? || CheckBirthDate(birthDate, today).Failure?
        || YearsBetween(birthDate.value, today) >= AdultAge
        || (guardian != null && guardian.Age(today) < AdultAge)
      ensures r.Failure? ==> r.error == (if CheckName(name).Failure? then CheckName(name).error
                                        else if CheckCpf(cpf).Failure? then CheckCpf(cpf).error
                                        else if CheckBirthDate(birthDate, today).Failure? then CheckBirthDate(birthDate, today).error
                                        else if YearsBetween(birthDate.value, today) >= AdultAge then AdultNeedsNoGuardian
                                        else GuardianIsMinor)
      ensures r.Success? ==> fresh(r.value) && r.value.Valid() && r.value.guardian == guardian
      ensures r.Success? ==>
        r.value.name == CheckName(name).value && r.value.cpf == CheckCpf(cpf).value && r.value.birthDate == birthDate.value
      ensures r.Success? ==> r.value.email == None && r.value.phone == None && !r.value.emancipated
      ensures r.Success? ==> YearsBetween(r.value.birthDate, today) < AdultAge
      ensures r.Success? && guardian != null ==> guardian.Age(today) >= AdultAge
    {
      r := Create(name, cpf, birthDate, today);
      if r.Success? {
        var customer := r.value;
        var outcome := customer.SetGuardian(guardian, today);
        if outcome.Fail? { r := Failure(outcome.error); }
      }
    }

    /** `getIdade`: whole years from the birth date to today. */
    function Age(today: Date): int
      reads this
    {
      YearsBetween(birthDate, today)
    }

    /** A savings account is open to every customer, of any age. */
    function CanOpenSavings(): bool
    {
      true
    }

    /** A checking account needs an adult or an emancipated minor. */
    function CanOpenChecking(today: Date): bool
      reads this
    {
      Age(today) >= AdultAge || emancipated
    }

    /** `equals`: the same object, or another customer with the same CPF. */
    predicate Equals(other: Customer?)
      reads this, other
    {
      other != null && (this == other || cpf == other.cpf)
    }

    /** `hashCode`: the hash of the CPF string. */
    function Hash(): int
      reads this
    {
      StringHash(cpf)
    }

    method SetName(n: Option<string>) returns (r: Outcome<CustomerError>)
      requires Valid()
      modifies this`name
      ensures Valid()
      ensures r == (if CheckName(n).Failure? then Fail(CheckName(n).error) else Pass)
      ensures name == (if r.Pass? then CheckName(n).value else old(name))
    {
      var checked := CheckName(n);
      if checked.Failure? { return Fail(checked.error); }
      name := checked.value;
      return Pass;
    }

    method SetCpf(c: Option<string>) returns (r: Outcome<CustomerError>)
      requires Valid()
      modifies this`cpf
      ensures Valid()
      ensures r == (if CheckCpf(c).Failure? then Fail(CheckCpf(c).error) else Pass)
      ensures cpf == (if r.Pass? then CheckCpf(c).value else old(cpf))
    {
      var checked := CheckCpf(c);
      if checked.Failure? { return Fail(checked.error); }
      CpfIdempotent(c);
      cpf := checked.value;
      return Pass;
    }

    method SetBirthDate(d: Option<Date>, today: Date) returns (r: Outcome<CustomerError>)
      requires Valid()
      modifies this`birthDate
      ensures Valid()
      ensures r == (if CheckBirthDate(d, today).Failure? then Fail(CheckBirthDate(d, today).error) else Pass)
      ensures birthDate == (if r.Pass? then d.value else old(birthDate))
    {
      var checked := CheckBirthDate(d, today);
      if checked.Failure? { return Fail(checked.error); }
      birthDate := checked.value;
      return Pass;
    }

    method SetEmail(e: Option<string>) returns (r: Outcome<CustomerError>)
      requires Valid()
      modifies this`email
      ensures Valid()
      ensures r == (if CheckEmail(e).Failure? then Fail(CheckEmail(e).error) else Pass)
      ensures email == (if r.Pass? then CheckEmail(e).value else old(email))
    {
      var checked := CheckEmail(e);
      if checked.Failure? { return Fail(checked.error); }
      if checked.value.Some? { EmailKeepsMarkers(e); }
      email := checked.value;
      return Pass;
    }

    method SetPhone(p: Option<string>) returns (r: Outcome<CustomerError>)
      requires Valid()
      modifies this`phone
      ensures Valid()
      ensures r == (if CheckPhone(p).Failure? then Fail(CheckPhone(p).error) else Pass)
      ensures phone == (if r.Pass? then CheckPhone(p).value else old(phone))
    {
      var checked := CheckPhone(p);
      if checked.Failure? { return Fail(checked.error); }
      if checked.value.Some? { PhoneIdempotent(p); }
      phone := checked.value;
      return Pass;
    }

    /** Only a minor can be declared emancipated; clearing the flag always succeeds. */
    method SetEmancipated(flag: bool, today: Date) returns (r: Outcome<CustomerError>)
      requires Valid()
      modifies this`emancipated
      ensures Valid()
      ensures r.Fail? <==> flag && Age(today) >= AdultAge
      ensures r.Fail? ==> r.error == AdultNeedsNoEmancipation
      ensures emancipated == (if r.Pass? then flag else old(emancipated))
    {
      if flag && Age(today) >= AdultAge { return Fail(AdultNeedsNoEmancipation); }
      emancipated := flag;
      return Pass;
    }

    /** Only a minor takes a guardian, and the guardian (when given) must be an adult. */
    method SetGuardian(g: Customer?, today: Date) returns (r: Outcome<CustomerError>)
      requires Valid()
      modifies this`guardian
      ensures Valid()
      ensures r.Fail? <==> Age(today) >= AdultAge || (g != null && g.Age(today) < AdultAge)
      ensures r.Fail? ==> r.error == (if Age(today) >= AdultAge then AdultNeedsNoGuardian else GuardianIsMinor)
      ensures guardian == (if r.Pass? then g else old(guardian))
    {
      if Age(today) >= AdultAge { return Fail(AdultNeedsNoGuardian); }
      if g != null && g.Age(today) < AdultAge { return Fail(GuardianIsMinor); }
      guardian := g;
      return Pass;
    }
  }

  /** Customers equal under `equals` have equal hash codes, and `equals` is an equivalence on customers. */
  lemma {:induction false} EqualsIsCpfEquality(a: Customer, b: Customer, c: Customer)
    ensures a.Equals(b) <==> a.cpf == b.cpf
    ensures a.Equals(b) ==> a.Hash() == b.Hash()
    ensures a.Equals(a)
    ensures a.Equals(b) ==> b.Equals(a)
    ensures a.Equals(b) && b.Equals(c) ==> a.Equals(c)
  {
  }

  /** For a past birth date, a non-emancipated customer may open a checking account exactly from the 18th birthday on. */
  lemma {:induction false} CheckingFromEighteenthBirthday(c: Customer, today: Date)
    requires !c.emancipated && c.birthDate.WellFormed() && today.WellFormed() && !IsAfter(c.birthDate, today)
    ensures c.CanOpenChecking(today) <==> BirthdaysPassed(c.birthDate, today) >= AdultAge
  {
    YearsBetweenIsBirthdays(c.birthDate, today);
  }

  /** One supplementary character is two UTF-16 code units, so it is a name long enough; one BMP letter is not. */
  lemma {:induction false} NameLengthInCodeUnits()
    ensures CheckName(Some("\U{1D538}")) == Success("\U{1D538}")
    ensures CheckName(Some("a")) == Failure(NameTooShort)
  {
    assert Utf16Length("\U{1D538}") == 2 by {
      assert "\U{1D538}"[..0] == [];
    }
    assert !IsBlank("\U{1D538}") by {
      assert !IsTrimmable("\U{1D538}"[0]);
    }
    assert SkipLeading("\U{1D538}", 0) == 0;
    assert "\U{1D538}"[0..1] == "\U{1D538}";
    assert Utf16Length("a") == 1 by {
      assert "a"[..0] == [];
    }
    assert !IsBlank("a") by {
      assert !IsTrimmable("a"[0]);
    }
  }

  /** The untrimmed-length check lets " a" through and stores the one-character name "a". */
  lemma {:induction false} NameLengthCheckedBeforeTrim()
    ensures CheckName(Some(" a")) == Success("a")
  {
    assert SkipLeading(" a", 0) == 1;
    assert " a"[1..2] == "a";
  }
}
