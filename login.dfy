/** The login page: send the credentials, hand the returned token and role
    to the session store, then route by role. */
module Login {
  import opened Common

  datatype Credentials = Credentials(email: string, password: string)
  {
    function Get(f: Field): string
    {
      match f
      case Email => email
      case Password => password
    }

    /** `{ ...form, [field]: value }` */
    function With(f: Field, value: string): (r: Credentials)
      ensures r.Get(f) == value
      ensures forall g :: g != f ==> r.Get(g) == Get(g)
    {
      match f
      case Email => this.(email := value)
      case Password => this.(password := value)
    }
  }

  datatype Field = Email | Password

  /** The part of a successful login's body the page uses: `token` and `user.role`. */
  datatype LoginReply = LoginReply(token: string, role: string)

  datatype Request = SignIn(credentials: Credentials)

  /** Where a freshly signed-in user goes: every role value has exactly one route. */
  function RouteFor(role: string): (r: Route)
    ensures r == AdminHome <==> role == "admin"
    ensures r == OwnerHome <==> role == "store_owner"
    ensures r == UserHome <==> role != "admin" && role != "store_owner"
    ensures r != Entry
  {
    if role == "admin" then AdminHome
    else if role == "store_owner" then OwnerHome
    else UserHome
  }

  const LoginFailed := "Login failed"

  /** Everything a submit does outside the page, in order. */
  function SubmitEffects(form: Credentials, resp: Response<LoginReply>): (es: seq<Effect<Request>>)
    ensures |es| > 0 && es[0] == Send(SignIn(form))
  {
    match resp
    case Ok(reply) => [Send(SignIn(form)), LogIn(reply.token, reply.role), Navigate(RouteFor(reply.role))]
    case Err(_) => [Send(SignIn(form))]
  }

  /** The error text a submit leaves on the page. */
  function SubmitError(resp: Response<LoginReply>): (e: string)
    ensures resp.Ok? ==> e == ""
    ensures resp.Err? ==> e == ErrorText(resp.message, LoginFailed) && e != ""
  {
    match resp
    case Ok(_) => ""
    case Err(m) => ErrorText(m, LoginFailed)
  }

  /** A successful login leaves the returned credentials in the session
      whatever came before, and the only navigation goes to the role's route
      and comes after `login`. */
  lemma SuccessSignsIn(s: Session, before: seq<Effect<Request>>, form: Credentials, reply: LoginReply)
    ensures SessionAfter(s, before + SubmitEffects(form, Ok(reply))) == SignedIn(reply.token, reply.role)
    ensures forall i :: 0 <= i < |SubmitEffects(form, Ok(reply))| && SubmitEffects(form, Ok(reply))[i].Navigate? ==>
              i == 2 && SubmitEffects(form, Ok(reply))[i].route == RouteFor(reply.role) &&
              SubmitEffects(form, Ok(reply))[1] == LogIn(reply.token, reply.role)
  {
    LoginThenNavigate(s, before, SignIn(form), reply.token, reply.role, RouteFor(reply.role));
  }

  /** A failed login navigates nowhere and leaves the session as it was. */
  lemma FailureStays(s: Session, before: seq<Effect<Request>>, form: Credentials, m: Option<string>)
    ensures forall i :: 0 <= i < |SubmitEffects(form, Err(m))| ==> !SubmitEffects(form, Err(m))[i].Navigate?
    ensures SessionAfter(s, before + SubmitEffects(form, Err(m))) == SessionAfter(s, before)
  {
    SendsKeepSession(s, before, SubmitEffects(form, Err(m)));
  }

  class LoginView {
    var form: Credentials
    var error: string
    var effects: seq<Effect<Request>>

    constructor ()
      ensures form == Credentials("", "") && error == "" && effects == []
    {
      form := Credentials("", "");
      error := "";
      effects := [];
    }

    /** One input changed: only that field of the form takes the new value. */
    method HandleChange(field: Field, value: string)
      modifies this
      ensures form == old(form).With(field, value)
      ensures error == old(error) && effects == old(effects)
    {
      form := form.With(field, value);
    }

    /** Submit: clear the error, send the credentials, and on success call
        `login(token, role)` and then navigate; `resp` is the server's answer. */
    method HandleSubmit(resp: Response<LoginReply>)
      modifies this
      ensures form == old(form)
      ensures effects == old(effects) + SubmitEffects(old(form), resp)
      ensures error == SubmitError(resp)
    {
      error := "";
      effects := effects + [Send(SignIn(form))];
      match resp
      case Ok(reply) =>
        effects := effects + [LogIn(reply.token, reply.role)];
        effects := effects + [Navigate(RouteFor(reply.role))];
      case Err(_) =>
        error := SubmitError(resp);
    }
  }
}
