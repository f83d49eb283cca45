/** The registration page: the client-side validator that gates the signup
    request, and the submit handler around it. */
module Register {
  import opened Common

  // ---------------------------------------------------------------------
  // Character classes of the two patterns. A `char` stands for one UTF-16
  // code unit, which is what JavaScript's `length` and a non-Unicode regex
  // count.
  // ---------------------------------------------------------------------

  /** The characters JavaScript's `\s` matches. */
  predicate IsWhitespace(c: char)
  {
    || c == '\t' || c == '\n' || c == '\U{000B}' || c == '\U{000C}' || c == '\r' || c == ' '
    || c == '\U{00A0}' || c == '\U{1680}' || ('\U{2000}' <= c <= '\U{200A}')
    || c == '\U{2028}' || c == '\U{2029}' || c == '\U{202F}' || c == '\U{205F}'
    || c == '\U{3000}' || c == '\U{FEFF}'
  }

  /** The line terminators, the only characters JavaScript's `.` does not match. */
  predicate IsLineTerminator(c: char)
  {
    c == '\n' || c == '\r' || c == '\U{2028}' || c == '\U{2029}'
  }

  /** `[A-Z]` */
  predicate IsUpper(c: char)
  {
    'A' <= c <= 'Z'
  }

  /** `[!@#$%^&*]` */
  predicate IsSpecial(c: char)
  {
    c in "!@#$%^&*"
  }

  /** `[^\s@]` */
  predicate IsAddressChar(c: char)
  {
    !IsWhitespace(c) && c != '@'
  }

  predicate AllAddressChars(t: string)
  {
    forall i :: 0 <= i < |t| ==> IsAddressChar(t[i])
  }

  predicate NoWhitespace(t: string)
  {
    forall i :: 0 <= i < |t| ==> !IsWhitespace(t[i])
  }

  predicate NoLineTerminator(t: string)
  {
    forall i :: 0 <= i < |t| ==> !IsLineTerminator(t[i])
  }

  // ---------------------------------------------------------------------
  // The e-mail pattern /^[^\s@]+@[^\s@]+\.[^\s@]+$/
  // ---------------------------------------------------------------------

  /** What the regular expression matches, read off its structure: three
      non-empty runs of `[^\s@]`, the first two separated by '@', the last
      two by '.'. */
  ghost predicate EmailRegex(s: string)
  {
    exists at, dot :: EmailSplit(s, at, dot)
  }

  /** The regular expression matches `s` with its '@' at `at` and its '.' at `dot`. */
  ghost predicate EmailSplit(s: string, at: int, dot: int)
  {
    0 < at && at + 1 < dot && dot + 1 < |s| &&
    s[at] == '@' && s[dot] == '.' &&
    AllAddressChars(s[..at]) && AllAddressChars(s[at + 1..dot]) && AllAddressChars(s[dot + 1..])
  }

  /** A '.' that is neither the first nor the last character. */
  predicate HasInnerDot(d: string)
  {
    exists i :: 0 < i < |d| - 1 && d[i] == '.'
  }

  /** The e-mail check the validator performs: no whitespace, exactly one
      '@', something before it, and after it a '.' that is neither first
      nor last. */
  predicate EmailAccepted(s: string)
  {
    && NoWhitespace(s)
    && multiset(s)['@'] == 1
    && exists k :: 0 < k < |s| && s[k] == '@' && HasInnerDot(s[k + 1..])
  }

  /** A character that occurs exactly once occurs nowhere but at the one place found. */
  lemma OnlyOccurrence(s: string, c: char, k: int, j: int)
    requires multiset(s)[c] == 1
    requires 0 <= k < |s| && s[k] == c
    requires 0 <= j < |s| && j != k
    ensures s[j] != c
  {
    var lo, hi := if j < k then j else k, if j < k then k else j;
    assert s == s[..lo] + [s[lo]] + s[lo + 1..hi] + [s[hi]] + s[hi + 1..];
    assert multiset(s)[s[lo]] >= 1 + multiset([s[hi]])[s[lo]];
  }

  lemma NoAtSign(t: string)
    requires AllAddressChars(t)
    ensures multiset(t)['@'] == 0
  {
  }

  /** Three runs of `[^\s@]` joined by '@' and '.' contain no whitespace. */
  lemma JoinedRunsNoWhitespace(local: string, host: string, top: string)
    requires AllAddressChars(local) && AllAddressChars(host) && AllAddressChars(top)
    ensures NoWhitespace(local + ['@'] + host + ['.'] + top)
  {
    var s := local + ['@'] + host + ['.'] + top;
    var at, dot := |local|, |local| + 1 + |host|;
    forall i | 0 <= i < |s| ensures !IsWhitespace(s[i]) {
      if i < at {
        assert s[i] == local[i];
      } else if at < i < dot {
        assert s[i] == host[i - at - 1];
      } else if dot < i {
        assert s[i] == top[i - dot - 1];
      }
    }
  }

  /** ... and exactly one '@'. */
  lemma JoinedRunsOneAt(local: string, host: string, top: string)
    requires AllAddressChars(local) && AllAddressChars(host) && AllAddressChars(top)
    ensures multiset(local + ['@'] + host + ['.'] + top)['@'] == 1
  {
    NoAtSign(local);
    NoAtSign(host);
    NoAtSign(top);
    assert multiset(local + ['@'] + host + ['.'] + top)
        == multiset(local) + multiset{'@'} + multiset(host) + multiset{'.'} + multiset(top);
  }

  /** Three runs of `[^\s@]` joined by '@' and '.' pass the validator's e-mail check. */
  lemma JoinedRunsAccepted(local: string, host: string, top: string)
    requires |local| > 0 && |host| > 0 && |top| > 0
    requires AllAddressChars(local) && AllAddressChars(host) && AllAddressChars(top)
    ensures EmailAccepted(local + ['@'] + host + ['.'] + top)
  {
    var s := local + ['@'] + host + ['.'] + top;
    JoinedRunsNoWhitespace(local, host, top);
    JoinedRunsOneAt(local, host, top);
    var k := |local|;
    var d := s[k + 1..];
    assert d == host + ['.'] + top;
    assert d[|host|] == '.';
    assert s[k] == '@';
  }

  lemma EmailRegexIsAccepted(s: string)
    requires EmailRegex(s)
    ensures EmailAccepted(s)
  {
    var at, dot :| EmailSplit(s, at, dot);
    assert s == s[..at] + ['@'] + s[at + 1..dot] + ['.'] + s[dot + 1..];
    JoinedRunsAccepted(s[..at], s[at + 1..dot], s[dot + 1..]);
  }

  lemma EmailAcceptedIsRegex(s: string)
    requires EmailAccepted(s)
    ensures EmailRegex(s)
  {
    var k :| 0 < k < |s| && s[k] == '@' && HasInnerDot(s[k + 1..]);
    var d := s[k + 1..];
    var i :| 0 < i < |d| - 1 && d[i] == '.';
    var dot := k + 1 + i;
    forall j | 0 <= j < |s| && j != k ensures IsAddressChar(s[j]) {
      OnlyOccurrence(s, '@', k, j);
    }
    assert AllAddressChars(s[..k]);
    assert AllAddressChars(s[k + 1..dot]);
    assert AllAddressChars(s[dot + 1..]);
    assert EmailSplit(s, k, dot);
  }

  /** The validator's e-mail check accepts exactly what the regular expression matches. */
  lemma EmailAcceptedIffRegex(s: string)
    ensures EmailAccepted(s) <==> EmailRegex(s)
  {
    if EmailAccepted(s) { EmailAcceptedIsRegex(s); }
    if EmailRegex(s) { EmailRegexIsAccepted(s); }
  }

  // ---------------------------------------------------------------------
  // The password pattern /^(?=.*[A-Z])(?=.*[!@#$%^&*]).{8,16}$/
  // ---------------------------------------------------------------------

  /** What the regular expression matches, read off its structure: each
      look-ahead finds its character after a run of non-line-terminators,
      and the whole string is 8 to 16 non-line-terminators. */
  ghost predicate PasswordRegex(p: string)
  {
    && (exists i :: 0 <= i < |p| && NoLineTerminator(p[..i]) && IsUpper(p[i]))
    && (exists j :: 0 <= j < |p| && NoLineTerminator(p[..j]) && IsSpecial(p[j]))
    && 8 <= |p| <= 16 && NoLineTerminator(p)
  }

  predicate HasUpper(p: string)
  {
    exists i :: 0 <= i < |p| && IsUpper(p[i])
  }

  predicate HasSpecial(p: string)
  {
    exists i :: 0 <= i < |p| && IsSpecial(p[i])
  }

  /** The password check the validator performs. */
  predicate PasswordAccepted(p: string)
  {
    8 <= |p| <= 16 && NoLineTerminator(p) && HasUpper(p) && HasSpecial(p)
  }

  /** The validator's password check accepts exactly what the regular expression matches. */
  lemma PasswordAcceptedIffRegex(p: string)
    ensures PasswordAccepted(p) <==> PasswordRegex(p)
  {
  }

  // ---------------------------------------------------------------------
  // The validator
  // ---------------------------------------------------------------------

  const NameMessage := "Name must be between 20 and 60 characters."
  const AddressMessage := "Address must be less than 400 characters."
  const EmailMessage := "Invalid email format."
  const PasswordMessage := "Password must be 8\U{2013}16 characters, with 1 uppercase and 1 special character."

  datatype Form = Form(name: string, email: string, address: string, password: string)
  {
    function Get(f: Field): string
    {
      match f
      case Name => name
      case Email => email
      case Address => address
      case Password => password
    }

    /** `{ ...form, [field]: value }` */
    function With(f: Field, value: string): (r: Form)
      ensures r.Get(f) == value
      ensures forall g :: g != f ==> r.Get(g) == Get(g)
    {
      match f
      case Name => this.(name := value)
      case Email => this.(email := value)
      case Address => this.(address := value)
      case Password => this.(password := value)
    }
  }

  /** The `name` attributes of the page's inputs. */
  datatype Field = Name | Email | Address | Password

  predicate NameOk(name: string)
  {
    20 <= |name| <= 60
  }

  predicate AddressOk(address: string)
  {
    |address| <= 400
  }

  predicate AllChecksPass(f: Form)
  {
    NameOk(f.name) && AddressOk(f.address) && EmailAccepted(f.email) && PasswordAccepted(f.password)
  }

  /** The chain of guarded returns: the message of the first failing check,
      in the order name, address, e-mail, password, or "" when all pass. */
  function Validate(f: Form): (r: string)
    ensures r == "" <==> AllChecksPass(f)
    ensures r == NameMessage <==> !NameOk(f.name)
    ensures r == AddressMessage <==> NameOk(f.name) && !AddressOk(f.address)
    ensures r == EmailMessage <==> NameOk(f.name) && AddressOk(f.address) && !EmailAccepted(f.email)
    ensures r == PasswordMessage <==>
              NameOk(f.name) && AddressOk(f.address) && EmailAccepted(f.email) && !PasswordAccepted(f.password)
  {
    if !NameOk(f.name) then NameMessage
    else if !AddressOk(f.address) then AddressMessage
    else if !EmailAccepted(f.email) then EmailMessage
    else if !PasswordAccepted(f.password) then PasswordMessage
    else ""
  }

  /** An ordered list of checks, each with the message it reports on failure. */
  datatype Check = Check(passed: bool, message: string)

  function Checks(f: Form): seq<Check>
  {
    [ Check(NameOk(f.name), NameMessage),
      Check(AddressOk(f.address), AddressMessage),
      Check(EmailAccepted(f.email), EmailMessage),
      Check(PasswordAccepted(f.password), PasswordMessage) ]
  }

  /** Reference reading of an ordered check list: scan it, stop at the first failure. */
  function FirstFailure(cs: seq<Check>): string
  {
    if cs == [] then "" else if !cs[0].passed then cs[0].message else FirstFailure(cs[1..])
  }

  /** The scan reports the message of the first failing check, or "" when
      every check passes (messages being non-empty). */
  lemma {:induction false} FirstFailureIsFirst(cs: seq<Check>)
    requires forall i :: 0 <= i < |cs| ==> cs[i].message != ""
    ensures FirstFailure(cs) == "" <==> forall i :: 0 <= i < |cs| ==> cs[i].passed
    ensures FirstFailure(cs) != "" ==>
              exists i :: 0 <= i < |cs| && !cs[i].passed && FirstFailure(cs) == cs[i].message &&
                          forall j :: 0 <= j < i ==> cs[j].passed
  {
    if cs != [] && cs[0].passed {
      FirstFailureIsFirst(cs[1..]);
      if FirstFailure(cs) != "" {
        var i :| 0 <= i < |cs[1..]| && !cs[1..][i].passed && FirstFailure(cs[1..]) == cs[1..][i].message &&
                 forall j :: 0 <= j < i ==> cs[1..][j].passed;
        assert forall j :: 0 <= j < i + 1 ==> cs[j].passed by {
          forall j | 0 <= j < i + 1 ensures cs[j].passed {
            if j > 0 { assert cs[j] == cs[1..][j - 1]; }
          }
        }
      }
      assert (forall i :: 0 <= i < |cs| ==> cs[i].passed) <==> (forall i :: 0 <= i < |cs[1..]| ==> cs[1..][i].passed) by {
        if forall i :: 0 <= i < |cs[1..]| ==> cs[1..][i].passed {
          forall i | 0 <= i < |cs| ensures cs[i].passed { if i > 0 { assert cs[i] == cs[1..][i - 1]; } }
        }
      }
    }
  }

  /** The validator is the first-failure scan of the four checks in source order. */
  lemma ValidateIsFirstFailure(f: Form)
    ensures Validate(f) == FirstFailure(Checks(f))
    ensures Validate(f) != "" ==>
              exists i :: 0 <= i < 4 && !Checks(f)[i].passed && Validate(f) == Checks(f)[i].message &&
                          forall j :: 0 <= j < i ==> Checks(f)[j].passed
  {
    var cs := Checks(f);
    assert cs[1..] == [cs[1], cs[2], cs[3]];
    assert cs[1..][1..] == [cs[2], cs[3]];
    assert cs[1..][1..][1..] == [cs[3]];
    assert cs[1..][1..][1..][1..] == [];
    assert FirstFailure([cs[3]]) == if cs[3].passed then "" else PasswordMessage;
    assert FirstFailure([cs[2], cs[3]]) == if cs[2].passed then FirstFailure([cs[3]]) else EmailMessage;
    assert FirstFailure(cs[1..]) == if cs[1].passed then FirstFailure([cs[2], cs[3]]) else AddressMessage;
    FirstFailureIsFirst(cs);
  }

  /** Both ends of the name range pass the name check; one past either end fails with its message. */
  lemma NameBounds(f: Form)
    ensures |f.name| == 20 || |f.name| == 60 ==> Validate(f) != NameMessage
    ensures |f.name| == 19 || |f.name| == 61 ==> Validate(f) == NameMessage
  {
  }

  /** An address of exactly 400 characters passes although the message says
      "less than 400"; 401 characters are rejected once the name passes. */
  lemma AddressBoundary(f: Form)
    requires NameOk(f.name)
    ensures |f.address| == 400 ==> Validate(f) != AddressMessage
    ensures |f.address| >= 401 ==> Validate(f) == AddressMessage
  {
  }

  /** Sample passwords: "Passw0rd!" and "PASSWORD!" pass the pattern, "password" does not. */
  lemma PasswordExamples()
    ensures PasswordAccepted("Passw0rd!")
    ensures PasswordAccepted("PASSWORD!")
    ensures !PasswordAccepted("password")
  {
    assert IsUpper("Passw0rd!"[0]) && IsSpecial("Passw0rd!"[8]);
    assert IsUpper("PASSWORD!"[0]) && IsSpecial("PASSWORD!"[8]);
    assert !IsSpecial("password"[7]);
  }

  /** Sample addresses: "a@b.c" is well-formed, "a@b." and "a@@b.c" are not. */
  lemma EmailExamples()
    ensures EmailAccepted("a@b.c")
    ensures !EmailAccepted("a@b.")
    ensures !EmailAccepted("a@@b.c")
  {
    assert "a@b.c"[1] == '@' && "a@b.c"[2..][1] == '.';
    assert multiset("a@b.c") == multiset{'a', '@', 'b', '.', 'c'};
    assert multiset("a@@b.c") == multiset{'a', '@', '@', 'b', '.', 'c'};
    assert multiset("a@b.") == multiset{'a', '@', 'b', '.'};
  }

  // ---------------------------------------------------------------------
  // The page
  // ---------------------------------------------------------------------

  /** The requests this page sends. */
  datatype Request = Signup(name: string, email: string, address: string, password: string, role: string)

  /** `{ ...form, role: 'user' }`: the signup body always asks for role "user". */
  function SignupBody(f: Form): (r: Request)
    ensures r.role == "user"
    ensures r.name == f.name && r.email == f.email && r.address == f.address && r.password == f.password
  {
    Signup(f.name, f.email, f.address, f.password, "user")
  }

  const SignupFailed := "Signup failed."
  const Registered := "User registered successfully. Redirecting to login..."

  class RegisterView {
    var form: Form
    var error: string
    var success: string
    var effects: seq<Effect<Request>>

    constructor ()
      ensures form == Form("", "", "", "") && error == "" && success == "" && effects == []
    {
      form := Form("", "", "", "");
      error, success := "", "";
      effects := [];
    }

    /** One input changed: only that field of the form takes the new value. */
    method HandleChange(field: Field, value: string)
      modifies this
      ensures form == old(form).With(field, value)
      ensures error == old(error) && success == old(success) && effects == old(effects)
    {
      form := form.With(field, value);
    }

    /** Submit: clear both messages, validate, and only when validation passes
        send the signup request; `resp` is the server's answer to it. */
    method HandleSubmit(resp: Response<()>)
      modifies this
      ensures form == old(form)
      ensures Validate(old(form)) != "" ==>
                error == Validate(old(form)) && success == "" && effects == old(effects)
      ensures Validate(old(form)) == "" ==>
                effects == old(effects) + [Send(SignupBody(old(form)))] &&
                (resp.Ok? ==> error == "" && success == Registered) &&
                (resp.Err? ==> error == ErrorText(resp.message, SignupFailed) && success == "")
    {
      error := "";
      success := "";
      var validationError := Validate(form);
      if validationError != "" {
        error := validationError;
        return;
      }
      effects := effects + [Send(SignupBody(form))];
      match resp
      case Ok(_) =>
        success := Registered;
      case Err(m) =>
        error := ErrorText(m, SignupFailed);
    }
  }
}
