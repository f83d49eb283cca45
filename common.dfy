/** Shared vocabulary of the four views: server answers, status messages,
    routes, the outward effects a handler performs, and the session store
    that `login` and `logout` act on. */
module Common {

  datatype Option<+T> = None | Some(value: T)

  /** The outcome of one HTTP request as a view sees it: the response body
      on success, or the failure's optional `response.data.message`. */
  datatype Response<+T> = Ok(data: T) | Err(message: Option<string>)

  /** JavaScript truthiness of an optional server message: present and non-empty. */
  predicate Truthy(m: Option<string>)
  {
    m.Some? && m.value != ""
  }

  /** `err.response?.data?.message || fallback`: the server's message when it
      is truthy, otherwise the view's fixed fallback text. */
  function ErrorText(m: Option<string>, fallback: string): (r: string)
    ensures Truthy(m) ==> r == m.value
    ensures !Truthy(m) ==> r == fallback
    ensures fallback != "" ==> r != ""
  {
    if Truthy(m) then m.value else fallback
  }

  /** The `{ type, text }` objects the dashboards show as feedback. */
  datatype Kind = Success | Error
  datatype Message = Message(kind: Kind, text: string)

  /** The client-side routes the views navigate to. */
  datatype Route = Entry | AdminHome | OwnerHome | UserHome
  {
    function Path(): (p: string)
      ensures |p| > 0 && p[0] == '/'
    {
      match this
      case Entry => "/"
      case AdminHome => "/admin"
      case OwnerHome => "/owner"
      case UserHome => "/user"
    }
  }

  /** What a handler does to the world outside its own state, in order: send
      a request, call `login`/`logout` of the session store, or navigate. */
  datatype Effect<+Req> =
    | Send(request: Req)
    | LogIn(token: string, role: string)
    | LogOut
    | Navigate(route: Route)

  /** The session store's state: who is signed in, if anyone. */
  datatype Session = SignedOut | SignedIn(token: string, role: string)

  /** How one effect changes the session: `login` replaces it, `logout`
      clears it, everything else leaves it alone. */
  function Apply<Req>(s: Session, e: Effect<Req>): (r: Session)
    ensures e.LogIn? ==> r == SignedIn(e.token, e.role)
    ensures e.LogOut? ==> r == SignedOut
    ensures e.Send? || e.Navigate? ==> r == s
  {
    match e
    case LogIn(t, role) => SignedIn(t, role)
    case LogOut => SignedOut
    case _ => s
  }

  /** The session after a sequence of effects, starting from `s`. */
  function SessionAfter<Req>(s: Session, es: seq<Effect<Req>>): Session
    decreases |es|
  {
    if es == [] then s else SessionAfter(Apply(s, es[0]), es[1..])
  }

  predicate TouchesSession<Req>(e: Effect<Req>)
  {
    e.LogIn? || e.LogOut?
  }

  /** Running two effect sequences one after the other is running their concatenation. */
  lemma {:induction false} SessionAfterAppend<Req>(s: Session, a: seq<Effect<Req>>, b: seq<Effect<Req>>)
    ensures SessionAfter(s, a + b) == SessionAfter(SessionAfter(s, a), b)
    decreases |a|
  {
    if a == [] {
      assert a + b == b;
    } else {
      assert (a + b)[0] == a[0];
      assert (a + b)[1..] == a[1..] + b;
      SessionAfterAppend(Apply(s, a[0]), a[1..], b);
    }
  }

  /** Requests and navigation never change who is signed in. */
  lemma {:induction false} SessionUntouched<Req>(s: Session, es: seq<Effect<Req>>)
    requires forall i :: 0 <= i < |es| ==> !TouchesSession(es[i])
    ensures SessionAfter(s, es) == s
    decreases |es|
  {
    if es != [] {
      assert !TouchesSession(es[0]);
      SessionUntouched(Apply(s, es[0]), es[1..]);
    }
  }

  /** After any history, sending a request, then logging in and then
      navigating leaves exactly the new credentials in the session. */
  lemma LoginThenNavigate<Req>(s: Session, before: seq<Effect<Req>>, req: Req, token: string, role: string, r: Route)
    ensures SessionAfter(s, before + [Send(req), LogIn(token, role), Navigate(r)]) == SignedIn(token, role)
  {
    var tail: seq<Effect<Req>> := [Send(req), LogIn(token, role), Navigate(r)];
    SessionAfterAppend(s, before, tail);
    var mid := SessionAfter(s, before);
    assert tail[1..] == [LogIn(token, role), Navigate(r)];
    assert tail[1..][1..] == [Navigate(r)];
    assert SessionAfter(mid, tail) == SessionAfter<Req>(SignedIn(token, role), [Navigate(r)]);
  }

  /** After any history, a request whose failure makes the view log out and
      then navigate leaves nobody signed in. */
  lemma LogoutThenNavigate<Req>(s: Session, before: seq<Effect<Req>>, req: Req, r: Route)
    ensures SessionAfter(s, before + [Send(req), LogOut, Navigate(r)]) == SignedOut
  {
    var tail: seq<Effect<Req>> := [Send(req), LogOut, Navigate(r)];
    SessionAfterAppend(s, before, tail);
    assert tail[1..] == [LogOut, Navigate(r)];
    assert tail[1..][1..] == [Navigate(r)];
    assert SessionAfter(SessionAfter(s, before), tail) == SessionAfter<Req>(SignedOut, [Navigate(r)]);
  }

  /** Sending requests and nothing else keeps the session as it was. */
  lemma SendsKeepSession<Req>(s: Session, before: seq<Effect<Req>>, sent: seq<Effect<Req>>)
    requires forall i :: 0 <= i < |sent| ==> sent[i].Send?
    ensures SessionAfter(s, before + sent) == SessionAfter(s, before)
  {
    SessionAfterAppend(s, before, sent);
    SessionUntouched(SessionAfter(s, before), sent);
  }
}
