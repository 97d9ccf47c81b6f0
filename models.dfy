/** The client records of models.py: the `Cliente` class and its three
    subclasses, the email and phone rules its validating setters enforce,
    the per-subclass benefit text and equality by id. */
module Models {
  import opened Results
  import opened Text

  /** Which class a client object has: `Base` is a plain `Cliente`, the others
      are its subclasses with the attribute each adds. */
  datatype Variant =
    | Base
    | Regular
    | Premium(descuento: int := 15)
    | Corporativo(empresa: string)

  /** The attributes of a client object, as read by the store. */
  datatype Record = Record(
    idCliente: string,
    nombre: string,
    email: string,
    telefono: string,
    variant: Variant)

  /** The `ValueError`s the setters raise, with the offending value. */
  datatype ValidationError = InvalidEmail(valor: string) | InvalidPhone(valor: string)

  /** The text of the `ValueError`: the email error ends with the rejected
      value, the phone error is a fixed text. */
  function Message(e: ValidationError): (m: string)
    ensures e.InvalidEmail? ==> |m| > |e.valor| && m[|m| - |e.valor|..] == e.valor
    ensures e.InvalidPhone? ==> m == PhoneErrorText
  {
    match e
    case InvalidEmail(v) => EmailErrorLead + v
    case InvalidPhone(_) => PhoneErrorText
  }

  const EmailErrorLead := "Formato de email inválido: "
  const PhoneErrorText := "Número de teléfono inválido. " + "Debe ser numérico y mayor a 7 dígitos."

  /** The email error names the value, so two rejected emails give two
      different messages, and no email error reads like the phone error. */
  lemma MessageIdentifiesError(e: ValidationError, f: ValidationError)
    requires e.InvalidEmail? && Message(e) == Message(f)
    ensures e == f
  {
    if f.InvalidEmail? {
      var m := Message(e);
      assert m == EmailErrorLead + e.valor && m == EmailErrorLead + f.valor;
      assert e.valor == m[|EmailErrorLead|..] == f.valor;
    } else {
      ErrorTextsDiffer();
    }
  }

  /** The two error texts differ in their first character. */
  lemma ErrorTextsDiffer()
    ensures EmailErrorLead[0] == 'F' && PhoneErrorText[0] == 'N'
  {
    assert PhoneErrorText[0] == "Número de teléfono inválido. "[0];
  }

  // ---------------------------------------------------------------------------
  // The email rule: re.match(r"[^@]+@[^@]+\.[^@]+", valor)

  /** `p` matches the whole pattern, with its `@` at index `i` and the `.` that
      precedes the last run at index `j`: `p[..i]`, `p[i+1..j]` and `p[j+1..]`
      are non-empty and free of `@`. */
  predicate SplitsAt(p: string, i: nat, j: nat) {
    && 0 < i && i + 1 < j && j + 1 < |p|
    && '@' !in p[..i] && p[i] == '@'
    && '@' !in p[i + 1..j] && p[j] == '.'
    && '@' !in p[j + 1..]
  }

  ghost predicate FullMatch(p: string) {
    exists i: nat, j: nat :: SplitsAt(p, i, j)
  }

  /** What `re.match` decides: it anchors at the start only, so the email is
      accepted when some prefix of it matches the whole pattern. */
  ghost predicate EmailPattern(s: string) {
    exists n: nat :: n <= |s| && FullMatch(s[..n])
  }

  /** Index of the first `@` in `s`, or `|s|` when there is none. */
  function FirstAt(s: string): (i: nat)
    ensures i <= |s| && '@' !in s[..i]
    ensures i < |s| ==> s[i] == '@'
  {
    if |s| == 0 || s[0] == '@' then 0 else 1 + FirstAt(s[1..])
  }

  /** The part after the `@` holds a `.` with at least one character before
      it and one after it, all ahead of the next `@`. */
  predicate DomainAccepted(t: string) {
    var m := FirstAt(t);
    m >= 3 && '.' in t[1..m - 1]
  }

  /** The email check as the setter performs it, scanning the text once. */
  predicate EmailAccepted(s: string) {
    var i := FirstAt(s);
    0 < i < |s| && DomainAccepted(s[i + 1..])
  }

  lemma FirstAtIs(s: string, i: nat)
    requires i < |s| && '@' !in s[..i] && s[i] == '@'
    ensures FirstAt(s) == i
  {
  }

  lemma FirstAtAtLeast(s: string, k: nat)
    requires k <= |s| && '@' !in s[..k]
    ensures FirstAt(s) >= k
  {
  }

  /** The `.` the domain check found, with a non-`@` character on each side,
      ahead of the first `@`. */
  lemma DomainDot(t: string) returns (jj: nat)
    requires DomainAccepted(t)
    ensures 1 <= jj && jj + 1 < |t|
    ensures '@' !in t[..jj] && t[jj] == '.' && t[jj + 1] != '@'
  {
    var m := FirstAt(t);
    var q :| 0 <= q < |t[1..m - 1]| && t[1..m - 1][q] == '.';
    jj := q + 1;
    assert t[..jj] == t[..m][..jj];
    assert t[jj + 1] == t[..m][jj + 1];
  }

  /** A match found by the scan is a prefix matching the whole pattern. */
  lemma EmailAcceptedMatches(s: string)
    requires EmailAccepted(s)
    ensures EmailPattern(s)
  {
    var i := FirstAt(s);
    var t := s[i + 1..];
    var jj := DomainDot(t);
    var n := i + jj + 3;
    var l, d, tld := s[..i], t[..jj], [t[jj + 1]];
    assert s[..n] == l + "@" + d + "." + tld;
    EmailFromParts(l, d, tld);
    EmailSuffixIgnored(s[..n], s[n..]);
    assert s[..n] + s[n..] == s;
  }

  /** A `.` with a non-`@` character on each side, ahead of the first `@`,
      satisfies the domain check. */
  lemma DomainAcceptedAt(t: string, jj: nat)
    requires 1 <= jj && jj + 1 < |t|
    requires '@' !in t[..jj] && t[jj] == '.' && t[jj + 1] != '@'
    ensures DomainAccepted(t)
  {
    assert t[..jj + 2] == t[..jj] + [t[jj], t[jj + 1]];
    FirstAtAtLeast(t, jj + 2);
    var m := FirstAt(t);
    assert t[1..m - 1][jj - 1] == '.';
  }

  /** A prefix matching the whole pattern is found by the scan. */
  lemma EmailMatchAccepted(s: string)
    requires EmailPattern(s)
    ensures EmailAccepted(s)
  {
    var n: nat :| n <= |s| && FullMatch(s[..n]);
    var p := s[..n];
    var i: nat, j: nat :| SplitsAt(p, i, j);
    assert i < j < n;
    assert p[..i] == s[..i] && s[i] == p[i] == '@';
    FirstAtIs(s, i);
    var t := s[i + 1..];
    var jj := j - i - 1;
    assert t[..jj] == p[i + 1..j];
    assert t[jj] == p[j] == '.';
    assert t[jj + 1] == p[j + 1..][0] != '@';
    DomainAcceptedAt(t, jj);
  }

  /** The scanning check accepts exactly the emails `re.match` accepts. */
  lemma EmailAcceptedIff(s: string)
    ensures EmailAccepted(s) <==> EmailPattern(s)
  {
    if EmailAccepted(s) {
      EmailAcceptedMatches(s);
    }
    if EmailPattern(s) {
      EmailMatchAccepted(s);
    }
  }

  /** Every `local@domain.tld` whose three parts are non-empty and free of `@`
      is accepted. */
  lemma EmailFromParts(l: string, d: string, t: string)
    requires l != [] && d != [] && t != []
    requires '@' !in l && '@' !in d && '@' !in t
    ensures EmailPattern(l + "@" + d + "." + t)
  {
    var s := l + "@" + d + "." + t;
    var i, j := |l|, |l| + 1 + |d|;
    assert s[..i] == l && s[i + 1..j] == d && s[j + 1..] == t;
    assert SplitsAt(s, i, j);
    assert s[..|s|] == s;
  }

  /** Text after a matching prefix is never looked at. */
  lemma EmailSuffixIgnored(s: string, rest: string)
    requires EmailPattern(s)
    ensures EmailPattern(s + rest)
  {
    var n: nat :| n <= |s| && FullMatch(s[..n]);
    assert (s + rest)[..n] == s[..n];
  }

  /** No `@`, or no `.` after the first `@`: the email is rejected. */
  lemma EmailWithoutAtOrDotRejected(s: string)
    requires '@' !in s || '.' !in s[FirstAt(s)..]
    ensures !EmailPattern(s)
  {
    EmailAcceptedIff(s);
  }

  // ---------------------------------------------------------------------------
  // The phone rule: str(valor).isdigit() and len(str(valor)) >= 7

  /** Only the digits '0' to '9', and at least seven of them. */
  predicate PhoneAccepted(s: string) {
    AllDigits(s) && |s| >= 7
  }

  // ---------------------------------------------------------------------------
  // The validating setters and the constructor

  /** The check of the `email` setter. */
  function CheckEmail(valor: string): (o: Outcome<ValidationError>)
    ensures o.Pass? <==> EmailPattern(valor)
    ensures o.Fail? ==> o.error == InvalidEmail(valor)
  {
    EmailAcceptedIff(valor);
    if EmailAccepted(valor) then Pass else Fail(InvalidEmail(valor))
  }

  /** The check of the `telefono` setter. */
  function CheckTelefono(valor: string): (o: Outcome<ValidationError>)
    ensures o.Pass? <==> AllDigits(valor) && |valor| >= 7
    ensures o.Fail? ==> o.error == InvalidPhone(valor)
  {
    if PhoneAccepted(valor) then Pass else Fail(InvalidPhone(valor))
  }

  /** The checks the constructor runs, in its order: the email setter first,
      so an invalid email is reported even when the phone is invalid too. */
  function Validate(email: string, telefono: string): (o: Outcome<ValidationError>)
    ensures o.Pass? <==> EmailPattern(email) && PhoneAccepted(telefono)
    ensures !EmailPattern(email) ==> o == Fail(InvalidEmail(email))
    ensures EmailPattern(email) && !PhoneAccepted(telefono) ==> o == Fail(InvalidPhone(telefono))
  {
    match CheckEmail(email)
    case Fail(e) => Fail(e)
    case Pass => CheckTelefono(telefono)
  }

  /** A client object. The subclass and its attribute are fixed at
      construction; email and phone change only through the validating
      setters, so every object holds values that passed them. */
  class Cliente {
    const idCliente: string
    var nombre: string
    var email: string
    var telefono: string
    const variant: Variant

    ghost predicate Valid()
      reads this
    {
      EmailPattern(email) && PhoneAccepted(telefono)
    }

    function Snapshot(): Record
      reads this
    {
      Record(idCliente, nombre, email, telefono, variant)
    }

    /** Allocation of an object whose values have passed both checks; `Create`
        is the constructor callers use. */
    constructor (idCliente: string, nombre: string, email: string, telefono: string, variant: Variant)
      requires EmailPattern(email) && PhoneAccepted(telefono)
      ensures Valid()
      ensures Snapshot() == Record(idCliente, nombre, email, telefono, variant)
    {
      this.idCliente := idCliente;
      this.nombre := nombre;
      this.email := email;
      this.telefono := telefono;
      this.variant := variant;
    }

    /** `Cliente(...)` and the subclass constructors: id and name are taken as
        given, then the email setter and the phone setter run; the first one
        that raises ends construction and no object is produced. */
    static method Create(idCliente: string, nombre: string, email: string, telefono: string, variant: Variant)
      returns (r: Result<Cliente, ValidationError>)
      ensures r.Ok? <==> EmailPattern(email) && PhoneAccepted(telefono)
      ensures r.Err? ==> Validate(email, telefono) == Fail(r.error)
      ensures r.Ok? ==> fresh(r.value) && r.value.Valid()
      ensures r.Ok? ==> r.value.Snapshot() == Record(idCliente, nombre, email, telefono, variant)
    {
      var o := CheckEmail(email);
      if o.Fail? {
        return Err(o.error);
      }
      o := CheckTelefono(telefono);
      if o.Fail? {
        return Err(o.error);
      }
      var c := new Cliente(idCliente, nombre, email, telefono, variant);
      r := Ok(c);
    }

    /** The `email` setter: stores the value if it passes, raises otherwise. */
    method SetEmail(valor: string) returns (o: Outcome<ValidationError>)
      requires Valid()
      modifies this`email
      ensures Valid()
      ensures o.Pass? <==> EmailPattern(valor)
      ensures o.Fail? ==> o.error == InvalidEmail(valor)
      ensures email == if o.Pass? then valor else old(email)
    {
      o := CheckEmail(valor);
      if o.Pass? {
        email := valor;
      }
    }

    /** The `telefono` setter: stores the value if it passes, raises otherwise. */
    method SetTelefono(valor: string) returns (o: Outcome<ValidationError>)
      requires Valid()
      modifies this`telefono
      ensures Valid()
      ensures o.Pass? <==> PhoneAccepted(valor)
      ensures o.Fail? ==> o.error == InvalidPhone(valor)
      ensures telefono == if o.Pass? then valor else old(telefono)
    {
      o := CheckTelefono(valor);
      if o.Pass? {
        telefono := valor;
      }
    }
  }

  // ---------------------------------------------------------------------------
  // obtener_beneficio

  const BaseBenefit := "Acceso básico al sistema."
  const RegularBenefit := "Cliente Regular: Sin descuentos especiales."
  const PremiumLead := "Cliente Premium: Posee un "
  const PremiumTail := "% de descuento."
  const CorporativoLead := "Cliente Corporativo: Facturación directa para "
  const CorporativoTail := "."

  /** The ninth character of each text tells the four classes apart. */
  function ClassMark(v: Variant): char {
    match v
    case Base => 'á'
    case Regular => 'R'
    case Premium(_) => 'P'
    case Corporativo(_) => 'C'
  }

  /** The benefit text each class returns; it depends on the class and its
      attribute only, and its ninth character tells the four classes apart. */
  function ObtenerBeneficio(v: Variant): (b: string)
    ensures |b| > 8 && b[8] == ClassMark(v)
  {
    match v
    case Base =>
      assert BaseBenefit[8] == 'á';
      BaseBenefit
    case Regular =>
      assert RegularBenefit[8] == 'R';
      RegularBenefit
    case Premium(d) =>
      assert (PremiumLead + IntToString(d) + PremiumTail)[8] == PremiumLead[8] == 'P';
      PremiumLead + IntToString(d) + PremiumTail
    case Corporativo(e) =>
      assert (CorporativoLead + e + CorporativoTail)[8] == CorporativoLead[8] == 'C';
      CorporativoLead + e + CorporativoTail
  }

  /** A premium client's text shows its discount followed by `%`. */
  lemma PremiumBenefitShowsDiscount(d: int)
    ensures Contains(ObtenerBeneficio(Premium(d)), IntToString(d) + "%")
  {
    var tail := PremiumTail[1..];
    assert PremiumTail == "%" + tail;
    assert ObtenerBeneficio(Premium(d)) == PremiumLead + (IntToString(d) + "%") + tail;
    ContainsMiddle(PremiumLead, IntToString(d) + "%", tail);
  }

  /** A premium client built without a discount gets 15; one built with 25
      has a text containing "25%". */
  lemma PremiumDefaultAndExample()
    ensures Premium().descuento == 15
    ensures Contains(ObtenerBeneficio(Premium(25)), "25%")
  {
    assert IntToString(25) + "%" == "25%";
    PremiumBenefitShowsDiscount(25);
  }

  /** A corporate client's text names its company. */
  lemma CorporativoBenefitShowsEmpresa(e: string)
    ensures Contains(ObtenerBeneficio(Corporativo(e)), e)
  {
    ContainsMiddle(CorporativoLead, e, CorporativoTail);
  }

  /** Different classes, discounts or companies never share a benefit text. */
  lemma BenefitDeterminesVariant(v: Variant, w: Variant)
    requires ObtenerBeneficio(v) == ObtenerBeneficio(w)
    ensures v == w
  {
    var s := ObtenerBeneficio(v);
    if v.Premium? && w.Premium? {
      MiddleDetermined(PremiumLead, IntToString(v.descuento), IntToString(w.descuento), PremiumTail);
      IntToStringInjective(v.descuento, w.descuento);
    } else if v.Corporativo? && w.Corporativo? {
      assert s == CorporativoLead + v.empresa + CorporativoTail;
      MiddleDetermined(CorporativoLead, v.empresa, w.empresa, CorporativoTail);
    }
  }

  // ---------------------------------------------------------------------------
  // __eq__

  /** The right-hand side of `==`: a client object or anything else. */
  datatype Operand = ClienteOperand(record: Record) | OtherOperand

  /** `__eq__`: the other value is a client with the same id. */
  function Equals(a: Record, otro: Operand): bool {
    otro.ClienteOperand? && a.idCliente == otro.record.idCliente
  }

  /** Equality looks at the id only, rejects whatever is not a client, and is
      an equivalence on clients. */
  lemma EqualsIsIdentityOfId(a: Record, b: Record, c: Record)
    ensures Equals(a, ClienteOperand(b)) <==> a.idCliente == b.idCliente
    ensures !Equals(a, OtherOperand)
    ensures Equals(a, ClienteOperand(a))
    ensures Equals(a, ClienteOperand(b)) ==> Equals(b, ClienteOperand(a))
    ensures Equals(a, ClienteOperand(b)) && Equals(b, ClienteOperand(c)) ==> Equals(a, ClienteOperand(c))
  {
  }
}
