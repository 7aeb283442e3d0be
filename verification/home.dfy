/**
 The home page: the signed-in user types a job role and starts an interview
 session; on success the router moves to the interview page with the new
 session id and the role, otherwise an alert explains the failure.

 The identity provider is an input (`Auth`), the create-session round trip is
 split into its synchronous start and the handling of its `Response`, and the
 `alert` and `navigate` calls become the page's visible `Effect`s.
 */
module Home {
  import opened Common

  /** The page's React state. */
  datatype State = State(jobRole: string, isLoading: bool)

  /** The body of a create-session request. */
  datatype Request = StartInterview(jobRole: string, clerkUserId: string)

  /** The fields of a create-session reply the page reads. */
  datatype StartReply = StartReply(interviewId: Option<string>, error: Option<string>)

  /** What the user sees once a request settles: the move to the interview page
      with its route state, or an alert with a message. */
  datatype Effect =
    | NavigateToInterview(interviewId: string, jobRole: string)
    | Alert(message: string)

  /** The synchronous half of the submit handler. */
  datatype Transition = Transition(next: State, request: Option<Request>)

  const ConnectionError: string := "Connection error."
  const BackendUnreachable: string := "Failed to reach backend."

  const Initial: State := State("", false)

  /** The control rendered under the role input. */
  datatype Control = LoadingSpinner | SubmitButton | SignInNotice

  // ---------------------------------------------------------------------------
  // Handlers
  // ---------------------------------------------------------------------------

  /** The role input's `onChange`. */
  function EditRole(s: State, text: string): (n: State)
    ensures n.jobRole == text && n.isLoading == s.isLoading
  {
    s.(jobRole := text)
  }

  /** `handleStartInterview` up to its `await`: a blank role or a missing user
      id refuses the submission without any change; otherwise loading starts and
      the untrimmed role is sent with the user id. */
  function StartSubmit(s: State, auth: Auth): (t: Transition)
    ensures Blank(s.jobRole) || !Truthy(auth.userId) ==> t.next == s && t.request == None
    ensures !Blank(s.jobRole) && Truthy(auth.userId) ==>
              && t.next == s.(isLoading := true)
              && t.request == Some(StartInterview(s.jobRole, auth.userId.value))
  {
    if Blank(s.jobRole) || !Truthy(auth.userId) then Transition(s, None)
    else Transition(s.(isLoading := true), Some(StartInterview(s.jobRole, auth.userId.value)))
  }

  /** The message alerted for a reply that does not lead to the interview:
      the body's `error` when truthy, else the default. */
  function AlertMessage(error: Option<string>): (m: string)
    ensures Truthy(error) ==> m == error.value
    ensures !Truthy(error) ==> m == ConnectionError
    ensures m != ""
  {
    if Truthy(error) then error.value else ConnectionError
  }

  /** `handleStartInterview` after its `await`, for the request `req` it sent:
      navigate exactly when the status is ok and the reply carries a truthy
      session id, passing that id and the role that was sent; otherwise alert.
      Loading ends in every case. */
  function StartEnd(s: State, req: Request, reply: Response<StartReply>): (r: (State, Effect))
    ensures !r.0.isLoading && r.0.jobRole == s.jobRole
    ensures r.1.NavigateToInterview? <==> reply.Ok? && Truthy(reply.data.interviewId)
    ensures r.1.NavigateToInterview? ==>
              r.1 == NavigateToInterview(reply.data.interviewId.value, req.jobRole)
    ensures reply.Ok? && !Truthy(reply.data.interviewId) ==> r.1 == Alert(AlertMessage(reply.data.error))
    ensures reply.NotOk? ==> r.1 == Alert(AlertMessage(reply.error))
    ensures reply.TransportError? ==> r.1 == Alert(BackendUnreachable)
  {
    var effect := match reply
      case Ok(body) =>
        if Truthy(body.interviewId) then NavigateToInterview(body.interviewId.value, req.jobRole)
        else Alert(AlertMessage(body.error))
      case NotOk(e) => Alert(AlertMessage(e))
      case TransportError => Alert(BackendUnreachable);
    (s.(isLoading := false), effect)
  }

  // ---------------------------------------------------------------------------
  // Rendering guards
  // ---------------------------------------------------------------------------

  /** The role input accepts typing only for a signed-in user. Once the
      identity provider has loaded, that is exactly when the submit button,
      and not the sign-in notice, is rendered under it. */
  predicate RoleInputEnabled(auth: Auth)
    ensures auth.isLoaded ==> (RoleInputEnabled(auth) <==> ControlShown(auth) == SubmitButton)
    ensures ControlShown(auth) == SignInNotice ==> !RoleInputEnabled(auth)
  {
    Truthy(auth.userId)
  }

  /** Which control is rendered under the input. */
  function ControlShown(auth: Auth): (c: Control)
    ensures c == SubmitButton <==> auth.isLoaded && Truthy(auth.userId)
    ensures c == LoadingSpinner <==> !auth.isLoaded
  {
    if !auth.isLoaded then LoadingSpinner
    else if Truthy(auth.userId) then SubmitButton
    else SignInNotice
  }

  /** The submit button is rendered and not disabled: the provider has loaded
      a user, no request is in flight, and the role holds a character other
      than whitespace. A user who can submit can also type. */
  predicate SubmitEnabled(s: State, auth: Auth)
    ensures SubmitEnabled(s, auth) <==>
              auth.isLoaded && Truthy(auth.userId) && !s.isLoading && !AllWhitespace(s.jobRole)
    ensures SubmitEnabled(s, auth) ==> RoleInputEnabled(auth)
  {
    BlankIffAllWhitespace(s.jobRole);
    ControlShown(auth) == SubmitButton && !(s.isLoading || Blank(s.jobRole))
  }

  /** An enabled submit button always gets past the handler's guard. */
  lemma EnabledSubmitSends(s: State, auth: Auth)
    requires SubmitEnabled(s, auth)
    ensures StartSubmit(s, auth).request == Some(StartInterview(s.jobRole, auth.userId.value))
    ensures StartSubmit(s, auth).next.isLoading
  {
  }

  // ---------------------------------------------------------------------------
  // The page as a transition system
  // ---------------------------------------------------------------------------

  /** A mounted page: its state, the identity it currently sees, the request
      whose reply is awaited (if any), and the effects shown so far. */
  datatype Page = Page(state: State, auth: Auth, inFlight: Option<Request>, shown: seq<Effect>)

  datatype Event =
    | TypeRole(text: string)
    | ClickSubmit
    | AuthChanged(auth: Auth)
    | StartReplied(reply: Response<StartReply>)

  function Mount(auth: Auth): Page {
    Page(Initial, auth, None, [])
  }

  /** One event, or `None` when the page cannot receive it. */
  function Step(p: Page, e: Event): Option<Page>
  {
    match e
    case TypeRole(text) =>
      if RoleInputEnabled(p.auth) then Some(p.(state := EditRole(p.state, text))) else None
    case ClickSubmit =>
      if SubmitEnabled(p.state, p.auth) then
        var t := StartSubmit(p.state, p.auth);
        Some(p.(state := t.next, inFlight := t.request))
      else None
    case AuthChanged(a) =>
      Some(p.(auth := a))
    case StartReplied(reply) =>
      if p.inFlight.Some? then
        var r := StartEnd(p.state, p.inFlight.value, reply);
        Some(p.(state := r.0, inFlight := None, shown := p.shown + [r.1]))
      else None
  }

  /** How the page wires its controls: typing is received exactly when the
      input is enabled and replaces the role; the form submits exactly when
      the submit button is rendered and enabled, starting loading with the
      request for the role and user in flight; a reply is received exactly
      while a request is in flight, ends loading and shows one more effect;
      an identity update only changes the identity. */
  lemma StepFollowsControls(p: Page, e: Event)
    ensures e.TypeRole? ==> (Step(p, e).Some? <==> RoleInputEnabled(p.auth))
    ensures e.TypeRole? && Step(p, e).Some? ==>
              Step(p, e).value == p.(state := p.state.(jobRole := e.text))
    ensures e.ClickSubmit? ==> (Step(p, e).Some? <==> SubmitEnabled(p.state, p.auth))
    ensures e.ClickSubmit? && Step(p, e).Some? ==>
              && Step(p, e).value.inFlight == Some(StartInterview(p.state.jobRole, p.auth.userId.value))
              && Step(p, e).value.state == p.state.(isLoading := true)
              && Step(p, e).value.shown == p.shown
    ensures e.StartReplied? ==> (Step(p, e).Some? <==> p.inFlight.Some?)
    ensures e.StartReplied? && Step(p, e).Some? ==>
              && Step(p, e).value.inFlight == None && !Step(p, e).value.state.isLoading
              && |Step(p, e).value.shown| == |p.shown| + 1
              && Step(p, e).value.shown[..|p.shown|] == p.shown
    ensures e.AuthChanged? ==> Step(p, e) == Some(p.(auth := e.auth))
  {
    if e.StartReplied? && p.inFlight.Some? {
      var r := StartEnd(p.state, p.inFlight.value, e.reply);
      assert (p.shown + [r.1])[..|p.shown|] == p.shown;
    }
  }

  function Run(p: Page, es: seq<Event>): Option<Page>
    decreases |es|
  {
    if es == [] then Some(p)
    else match Step(p, es[0])
      case None => None
      case Some(q) => Run(q, es[1..])
  }

  /** The navigations shown so far carry a truthy session id and a non-blank role. */
  predicate NavigationsWellFormed(shown: seq<Effect>) {
    forall k :: 0 <= k < |shown| ==> shown[k].NavigateToInterview? ==>
      shown[k].interviewId != "" && !Blank(shown[k].jobRole)
  }

  /** The page invariant: loading exactly while a request is in flight, the
      request in flight carries a non-blank role, and every navigation shown
      so far carries a truthy session id and a non-blank role. */
  predicate Inv(p: Page) {
    && (p.state.isLoading <==> p.inFlight.Some?)
    && (p.inFlight.Some? ==> !Blank(p.inFlight.value.jobRole) && p.inFlight.value.clerkUserId != "")
    && NavigationsWellFormed(p.shown)
  }

  /** Appending a well-formed effect keeps the navigations well-formed. */
  lemma NavigationAppended(shown: seq<Effect>, f: Effect)
    requires NavigationsWellFormed(shown)
    requires f.NavigateToInterview? ==> f.interviewId != "" && !Blank(f.jobRole)
    ensures NavigationsWellFormed(shown + [f])
  {
    forall k | 0 <= k < |shown + [f]| && (shown + [f])[k].NavigateToInterview?
      ensures (shown + [f])[k].interviewId != "" && !Blank((shown + [f])[k].jobRole)
    {
      if k < |shown| { assert (shown + [f])[k] == shown[k]; }
    }
  }

  lemma MountEstablishesInv(auth: Auth)
    ensures Inv(Mount(auth))
  {
  }

  lemma StepPreservesInv(p: Page, e: Event)
    requires Inv(p) && Step(p, e).Some?
    ensures Inv(Step(p, e).value)
  {
    var q := Step(p, e).value;
    match e
    case StartReplied(reply) =>
      var req := p.inFlight.value;
      var r := StartEnd(p.state, req, reply);
      assert q.shown == p.shown + [r.1];
      assert q.state == r.0 && q.inFlight == None;
      match reply {
        case Ok(body) =>
          assert r.1.NavigateToInterview? ==>
                   r.1.interviewId != "" && !Blank(r.1.jobRole) by {
            if Truthy(body.interviewId) {
              assert r.1 == NavigateToInterview(body.interviewId.value, req.jobRole);
            }
          }
          NavigationAppended(p.shown, r.1);
        case NotOk(e) =>
          assert r.1 == Alert(AlertMessage(e));
          NavigationAppended(p.shown, r.1);
        case TransportError =>
          assert r.1 == Alert(BackendUnreachable);
          NavigationAppended(p.shown, r.1);
      }
    case _ =>
      assert q.shown == p.shown;
  }

  lemma {:induction false} RunPreservesInv(p: Page, es: seq<Event>)
    requires Inv(p) && Run(p, es).Some?
    ensures Inv(Run(p, es).value)
    decreases |es|
  {
    if es != [] {
      StepPreservesInv(p, es[0]);
      RunPreservesInv(Step(p, es[0]).value, es[1..]);
    }
  }

  /** The role can be typed exactly when a user id is present. */
  lemma TypingNeedsIdentity(p: Page, text: string)
    ensures Step(p, TypeRole(text)).Some? <==> Truthy(p.auth.userId)
    ensures Step(p, TypeRole(text)).Some? ==> Step(p, TypeRole(text)).value.state.jobRole == text
  {
  }

  /** While a create-session request is in flight, the submit button is
      disabled, so no second request can be issued before the first settles. */
  lemma NoSecondRequestWhileLoading(p: Page)
    requires Inv(p) && p.inFlight.Some?
    ensures Step(p, ClickSubmit) == None
  {
  }

  /** From mounting onwards: once no request is in flight the loading flag is
      down, and the page only ever navigates with a truthy session id and a
      non-blank role. */
  lemma ReachableNavigationWellFormed(auth: Auth, es: seq<Event>)
    requires Run(Mount(auth), es).Some?
    ensures var q := Run(Mount(auth), es).value;
            && (q.inFlight.None? ==> !q.state.isLoading)
            && NavigationsWellFormed(q.shown)
  {
    MountEstablishesInv(auth);
    RunPreservesInv(Mount(auth), es);
  }
}
