/** The sign-in / sign-up form: the ordered validation chain, the e-mail shape
    of the pattern ^[^\s@]+@[^\s@]+\.[^\s@]+$, the display name taken from the
    e-mail's local part, and the mode toggle. No credential is checked against
    anything: a well-formed form simply signs the user in locally. */
module AuthScreen {
  import opened Records
  import opened SessionStore

  // ---------------------------------------------------------------------------
  // The e-mail shape

  /** The characters the pattern class \s matches in JavaScript. */
  predicate IsWhitespace(c: char)
  {
    c == ' ' || c == '\t' || c == '\n' || c == '\U{000B}' || c == '\U{000C}' || c == '\r' ||
    c == '\U{00A0}' || c == '\U{1680}' || ('\U{2000}' <= c <= '\U{200A}') ||
    c == '\U{2028}' || c == '\U{2029}' || c == '\U{202F}' || c == '\U{205F}' || c == '\U{3000}' || c == '\U{FEFF}'
  }

  /** Text matched by [^\s@]*: no whitespace and no '@'. */
  predicate Plain(s: string)
  {
    forall i :: 0 <= i < |s| ==> s[i] != '@' && !IsWhitespace(s[i])
  }

  /** The pattern read literally: three non-empty plain parts joined by '@' and '.'. */
  ghost predicate MatchesEmailPattern(e: string)
  {
    exists a: string, b: string, c: string ::
      e == a + "@" + b + "." + c && |a| > 0 && |b| > 0 && |c| > 0 && Plain(a) && Plain(b) && Plain(c)
  }

  /** Index of the first '@', or the length when there is none. */
  function FirstAt(e: string): (k: nat)
    ensures k <= |e|
    ensures forall i :: 0 <= i < k ==> e[i] != '@'
    ensures k < |e| ==> e[k] == '@'
  {
    if e == [] || e[0] == '@' then 0 else 1 + FirstAt(e[1..])
  }

  predicate NoAt(s: string)
  {
    forall i :: 0 <= i < |s| ==> s[i] != '@'
  }

  /** A '.' with at least one character on each side. */
  predicate HasInnerDot(d: string)
  {
    exists j :: 0 < j < |d| - 1 && d[j] == '.'
  }

  /** The check as a scan: a non-empty part before the first '@', and after it
      a part with no second '@', no whitespace and a dot strictly inside it. */
  predicate IsValidEmail(e: string)
  {
    var k := FirstAt(e);
    0 < k < |e| && Plain(e[..k]) && Plain(e[k + 1..]) && HasInnerDot(e[k + 1..])
  }

  lemma PlainConcat(x: string, y: string)
    ensures Plain(x + y) <==> Plain(x) && Plain(y)
  {
    if Plain(x + y) {
      assert forall i :: 0 <= i < |x| ==> x[i] == (x + y)[i];
      assert forall i :: 0 <= i < |y| ==> y[i] == (x + y)[|x| + i];
    }
  }

  /** The text on either side of a position of a plain text is plain. */
  lemma PlainPieces(d: string, j: nat)
    requires Plain(d) && j < |d|
    ensures Plain(d[..j]) && Plain(d[j + 1..])
  {
    var rest := d[j + 1..];
    assert forall i :: 0 <= i < |rest| ==> rest[i] == d[j + 1 + i];
  }

  /** Every string the scan accepts matches the pattern. */
  lemma EmailCheckSound(e: string)
    requires IsValidEmail(e)
    ensures MatchesEmailPattern(e)
  {
    var k := FirstAt(e);
    var d := e[k + 1..];
    var j :| 0 < j < |d| - 1 && d[j] == '.';
    var a, b, c := e[..k], d[..j], d[j + 1..];
    PlainPieces(d, j);
    assert d == b + "." + c;
    assert e == a + "@" + d;
    assert e == a + "@" + b + "." + c;
    assert |a| > 0 && |b| > 0 && |c| > 0 && Plain(a) && Plain(b) && Plain(c);
  }

  /** In `a` + "@" + `d` with no '@' in `a`, the first '@' follows `a`. */
  lemma FirstAtAfterLocal(a: string, d: string)
    requires NoAt(a)
    ensures FirstAt(a + "@" + d) == |a|
  {
    var e := a + "@" + d;
    assert e[|a|] == '@';
    assert forall i :: 0 <= i < |a| ==> e[i] == a[i];
  }

  /** Two non-empty plain parts joined by '.' form a plain text with an inner dot. */
  lemma DottedDomain(b: string, c: string)
    requires |b| > 0 && |c| > 0 && Plain(b) && Plain(c)
    ensures Plain(b + "." + c) && HasInnerDot(b + "." + c)
  {
    var d := b + "." + c;
    assert d[|b|] == '.';
    PlainConcat(b, "." + c);
    PlainConcat(".", c);
    assert "." + c == ['.'] + c;
    assert b + "." + c == b + ("." + c);
  }

  /** Every string the pattern matches passes the scan. */
  lemma EmailCheckComplete(e: string, a: string, b: string, c: string)
    requires e == a + "@" + b + "." + c && |a| > 0 && |b| > 0 && |c| > 0 && Plain(a) && Plain(b) && Plain(c)
    ensures IsValidEmail(e)
  {
    var d := b + "." + c;
    assert e == a + "@" + d;
    FirstAtAfterLocal(a, d);
    DottedDomain(b, c);
    assert e[..|a|] == a;
    assert e[|a| + 1..] == d;
  }

  /** The scan accepts exactly the strings the pattern matches. */
  lemma EmailCheckMatchesPattern(e: string)
    ensures IsValidEmail(e) <==> MatchesEmailPattern(e)
  {
    if IsValidEmail(e) {
      EmailCheckSound(e);
    }
    if MatchesEmailPattern(e) {
      var a: string, b: string, c: string :|
        e == a + "@" + b + "." + c && |a| > 0 && |b| > 0 && |c| > 0 && Plain(a) && Plain(b) && Plain(c);
      EmailCheckComplete(e, a, b, c);
    }
  }

  /** The text before the first '@' (the whole text when there is none), as
      splitting on '@' and taking the first piece gives. */
  function LocalPart(e: string): (r: string)
    ensures NoAt(r)
    ensures r <= e
    ensures |r| < |e| ==> e[|r|] == '@'
  {
    e[..FirstAt(e)]
  }

  /** For an accepted e-mail, the local part is the non-empty text before its only
      '@': the e-mail is that text, '@', then the domain. */
  lemma LocalPartOfValidEmail(e: string)
    requires IsValidEmail(e)
    ensures |LocalPart(e)| > 0 && NoAt(LocalPart(e))
    ensures e == LocalPart(e) + "@" + e[|LocalPart(e)| + 1..]
  {
    var k := FirstAt(e);
    assert e == e[..k] + [e[k]] + e[k + 1..];
  }

  // ---------------------------------------------------------------------------
  // The validation chain

  datatype AuthError = MissingFields | MissingName | InvalidEmail | ShortPassword

  /** The text shown for each failed check; never empty, so a failure is always
      visible (a cleared error is the empty text). */
  function Message(e: AuthError): (r: string)
    ensures r != ""
  {
    match e
    case MissingFields => "Preencha todos os campos"
    case MissingName => "Preencha seu nome"
    case InvalidEmail => "E-mail inválido"
    case ShortPassword => "Senha deve ter no mínimo 6 caracteres"
  }

  /** Each failed check has its own text, so the message tells which one failed. */
  lemma MessageIdentifiesError(e: AuthError, f: AuthError)
    ensures Message(e) == Message(f) <==> e == f
  {
    assert |Message(MissingFields)| == 24 && |Message(MissingName)| == 17;
    assert |Message(InvalidEmail)| == 15 && |Message(ShortPassword)| == 37;
  }

  const MinPasswordLength: nat := 6

  datatype Verdict = Accepted(user: User) | Rejected(error: AuthError)

  /** The checks in order, the first failing one deciding the error: both e-mail
      and password present, then a name when registering, then the e-mail shape,
      then a password of at least six characters. On success the display name is
      the e-mail's local part when signing in and the typed name when registering. */
  function Validate(isLogin: bool, email: string, password: string, name: string): (r: Verdict)
    ensures r == Rejected(MissingFields) <==> email == "" || password == ""
    ensures r == Rejected(MissingName) <==> email != "" && password != "" && !isLogin && name == ""
    ensures r == Rejected(InvalidEmail) <==>
      email != "" && password != "" && (isLogin || name != "") && !MatchesEmailPattern(email)
    ensures r == Rejected(ShortPassword) <==>
      email != "" && password != "" && (isLogin || name != "") && MatchesEmailPattern(email) &&
      |password| < MinPasswordLength
    ensures r.Accepted? ==> r.user.email == email && |r.user.name| > 0
    ensures r.Accepted? && isLogin ==> r.user.name == LocalPart(email)
    ensures r.Accepted? && !isLogin ==> r.user.name == name
  {
    EmailCheckMatchesPattern(email);
    if email == "" || password == "" then Rejected(MissingFields)
    else if !isLogin && name == "" then Rejected(MissingName)
    else if !IsValidEmail(email) then Rejected(InvalidEmail)
    else if |password| < MinPasswordLength then Rejected(ShortPassword)
    else
      Accepted(User(email, if isLogin then LocalPart(email) else name))
  }

  // ---------------------------------------------------------------------------
  // The form

  class AuthForm {
    var isLogin: bool
    var email: string
    var password: string
    var name: string
    var error: string

    constructor ()
      ensures isLogin && email == "" && password == "" && name == "" && error == ""
    {
      isLogin, email, password, name, error := true, "", "", "", "";
    }

    /** Typing into the fields. */
    method Fill(email: string, password: string, name: string)
      modifies this
      ensures this.email == email && this.password == password && this.name == name
      ensures isLogin == old(isLogin) && error == old(error)
    {
      this.email, this.password, this.name := email, password, name;
    }

    /** Submit: the error is cleared, then set to the first failing check's message;
        on success the identity is written to storage and handed to the page
        (`login`), with the same e-mail and name. */
    method Submit(store: Storage) returns (login: Option<User>)
      modifies this, store
      ensures isLogin == old(isLogin) && email == old(email) && password == old(password) && name == old(name)
      ensures match Validate(isLogin, email, password, name)
              case Rejected(e) => error == Message(e) && login == None && store.items == old(store.items)
              case Accepted(u) => error == "" && login == Some(u) &&
                                  store.items == old(store.items)[UserKey := UserEntry(u)]
    {
      error := "";
      match Validate(isLogin, email, password, name)
      case Rejected(e) =>
        error := Message(e);
        login := None;
      case Accepted(u) =>
        store.SetItem(UserKey, UserEntry(u));
        login := Some(u);
    }

    /** Switching between signing in and registering clears the error. */
    method ToggleMode()
      modifies this
      ensures isLogin == !old(isLogin) && error == ""
      ensures email == old(email) && password == old(password) && name == old(name)
    {
      isLogin := !isLogin;
      error := "";
    }
  }
}
