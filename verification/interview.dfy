/**
 The interview page: one question at a time is generated for the job role the
 session was started with, the user drafts an answer, the answer is graded, and
 the feedback is shown until the user asks for the next prompt.

 The page state is an immutable record; each handler of the page is a pure
 function from the state (and, for the second half of an asynchronous handler,
 the network outcome) to the next state and the request it issues. `Page` adds
 the requests in flight and the requests issued so far, and `Step` accepts a
 user event only when the rendered page offers the control that raises it.
 */
module Interview {
  import opened Common

  /** The body of a successful grading reply, stored as the page's feedback. */
  datatype Feedback = Feedback(score: int, feedback: string, improvement: string)

  /** What the route hands over on navigation: `location.state || {}`. */
  datatype Handoff = Handoff(interviewId: Option<string>, jobRole: Option<string>)

  /** The page's React state. `error` is `None` when it was set from a reply
      whose body had no `error` field. */
  datatype State = State(
    question: string,
    userAnswer: string,
    feedback: Option<Feedback>,
    isGenerating: bool,
    isGrading: bool,
    error: Option<string>)

  /** The JSON body of a request the page sends. An absent `interviewId` is
      left out of the body by `JSON.stringify`, hence `Option`. */
  datatype Request =
    | GenerateQuestion(jobRole: string)
    | GradeAnswer(interviewId: Option<string>, question: string, userAnswer: string)

  /** The synchronous half of a handler: the next state and the request issued, if any. */
  datatype Transition = Transition(next: State, request: Option<Request>)

  const ConnectionFailed: string := "Connection failed."

  /** The state before any handler ran. */
  const Initial: State := State("", "", None, false, false, Some(""))

  // ---------------------------------------------------------------------------
  // Handlers
  // ---------------------------------------------------------------------------

  /** `generateNewQuestion` up to its `await`: raise the generating flag, clear
      the error, the feedback and the draft, and ask for a question for `jobRole`.
      The current question is kept; it is only replaced by a successful reply. */
  function GenerateStart(s: State, jobRole: string): (t: Transition)
    ensures t.next.isGenerating && t.next.error == Some("")
    ensures t.next.feedback == None && t.next.userAnswer == ""
    ensures t.next.question == s.question && t.next.isGrading == s.isGrading
    ensures t.request == Some(GenerateQuestion(jobRole))
  {
    Transition(s.(isGenerating := true, error := Some(""), feedback := None, userAnswer := ""),
               Some(GenerateQuestion(jobRole)))
  }

  /** `generateNewQuestion` after its `await`: a successful reply replaces the
      question, a rejected one records the reply's error, an exception records
      the connection message; the generating flag is lowered in every case. */
  function GenerateEnd(s: State, reply: Response<string>): (n: State)
    ensures !n.isGenerating
    ensures reply.Ok? ==> n.question == reply.data && n.error == s.error
    ensures reply.NotOk? ==> n.question == s.question && n.error == reply.error
    ensures reply.TransportError? ==> n.question == s.question && n.error == Some(ConnectionFailed)
    ensures n.userAnswer == s.userAnswer && n.feedback == s.feedback && n.isGrading == s.isGrading
  {
    var s' := match reply
      case Ok(q) => s.(question := q)
      case NotOk(e) => s.(error := e)
      case TransportError => s.(error := Some(ConnectionFailed));
    s'.(isGenerating := false)
  }

  /** The text area's `onChange`. */
  function EditAnswer(s: State, text: string): (n: State)
    ensures n.userAnswer == text
    ensures n.(userAnswer := s.userAnswer) == s
  {
    s.(userAnswer := text)
  }

  /** `handleSubmitAnswer` up to its `await`: a blank draft is refused without
      any change; otherwise the grading flag is raised, the error cleared, and
      the exact (untrimmed) draft is sent with the session id and the question. */
  function SubmitAnswer(s: State, h: Handoff): (t: Transition)
    ensures Blank(s.userAnswer) ==> t.next == s && t.request == None
    ensures !Blank(s.userAnswer) ==>
              && t.next == s.(isGrading := true, error := Some(""))
              && t.request == Some(GradeAnswer(h.interviewId, s.question, s.userAnswer))
  {
    if Blank(s.userAnswer) then Transition(s, None)
    else Transition(s.(isGrading := true, error := Some("")),
                    Some(GradeAnswer(h.interviewId, s.question, s.userAnswer)))
  }

  /** `handleSubmitAnswer` after its `await`: a successful reply becomes the
      feedback; a failure records an error and keeps the draft and the absent
      feedback, so the user can submit again; the grading flag is lowered in every case. */
  function GradeEnd(s: State, reply: Response<Feedback>): (n: State)
    ensures !n.isGrading
    ensures reply.Ok? ==> n.feedback == Some(reply.data) && n.error == s.error
    ensures reply.NotOk? ==> n.feedback == s.feedback && n.error == reply.error
    ensures reply.TransportError? ==> n.feedback == s.feedback && n.error == Some(ConnectionFailed)
    ensures n.question == s.question && n.userAnswer == s.userAnswer && n.isGenerating == s.isGenerating
  {
    var s' := match reply
      case Ok(fb) => s.(feedback := Some(fb))
      case NotOk(e) => s.(error := e)
      case TransportError => s.(error := Some(ConnectionFailed));
    s'.(isGrading := false)
  }

  // ---------------------------------------------------------------------------
  // Rendering guards
  // ---------------------------------------------------------------------------

  /** What the page renders from its state: the question, or `None` for the
      "compiling" placeholder; the error banner with its text; the answer
      area, carrying whether its submit button is enabled; and the feedback
      panel with its "Next Prompt" button. */
  datatype View = View(
    question: Option<string>,
    banner: Option<string>,
    answerArea: Option<bool>,
    feedbackPanel: Option<Feedback>)

  /** The page's markup reduced to what it shows. The placeholder replaces the
      question exactly while generating; the banner shows exactly a truthy
      error; the answer area and the feedback panel are never rendered
      together, and under a question on screen exactly one of them is; submit
      is enabled exactly when no grading runs and the draft holds a
      character other than whitespace. */
  function Render(s: State): (v: View)
    ensures v.question.None? <==> s.isGenerating
    ensures v.question.Some? ==> v.question.value == s.question
    ensures v.banner.Some? <==> Truthy(s.error)
    ensures v.banner.Some? ==> v.banner.value == s.error.value
    ensures !(v.answerArea.Some? && v.feedbackPanel.Some?)
    ensures v.question.Some? ==> (v.answerArea.Some? <==> v.feedbackPanel.None?)
    ensures v.answerArea.Some? ==> v.question.Some?
    ensures v.answerArea.Some? ==>
              (v.answerArea.value <==> !s.isGrading && !AllWhitespace(s.userAnswer))
    ensures v.feedbackPanel == s.feedback
  {
    BlankIffAllWhitespace(s.userAnswer);
    View(if s.isGenerating then None else Some(s.question),
         if Truthy(s.error) then Some(s.error.value) else None,
         if !s.isGenerating && s.feedback.None? then Some(!(s.isGrading || Blank(s.userAnswer))) else None,
         s.feedback)
  }

  /** The question text is rendered (rather than the "compiling" placeholder). */
  predicate QuestionShown(s: State) {
    Render(s).question.Some?
  }

  /** The error banner is rendered. */
  predicate ErrorShown(s: State) {
    Render(s).banner.Some?
  }

  /** The text area and the submit button are rendered. */
  predicate AnswerAreaShown(s: State) {
    Render(s).answerArea.Some?
  }

  /** The submit button is rendered and not disabled. */
  predicate SubmitEnabled(s: State) {
    Render(s).answerArea == Some(true)
  }

  /** The feedback panel, with its "Next Prompt" button, is rendered. */
  predicate NextPromptShown(s: State) {
    Render(s).feedbackPanel.Some?
  }

  /** An enabled submit button always gets past the handler's own blank
      guard: clicking it raises the grading flag and sends the draft. */
  lemma EnabledSubmitSendsDraft(s: State, h: Handoff)
    requires SubmitEnabled(s)
    ensures SubmitAnswer(s, h).next.isGrading
    ensures SubmitAnswer(s, h).request == Some(GradeAnswer(h.interviewId, s.question, s.userAnswer))
  {
  }

  /** After a failed round trip the banner shows "Connection failed." for an
      exception, and for a rejection exactly when the reply's `error` is
      truthy: a rejection whose body has no `error` (or an empty one) leaves
      the user without any message. */
  lemma FailureBanner(s: State, e: Option<string>)
    ensures Render(GenerateEnd(s, TransportError)).banner == Some(ConnectionFailed)
    ensures Render(GradeEnd(s, TransportError)).banner == Some(ConnectionFailed)
    ensures ErrorShown(GenerateEnd(s, NotOk(e))) <==> Truthy(e)
    ensures ErrorShown(GradeEnd(s, NotOk(e))) <==> Truthy(e)
    ensures !ErrorShown(GenerateEnd(s, NotOk(None))) && !ErrorShown(GradeEnd(s, NotOk(None)))
  {
  }

  // ---------------------------------------------------------------------------
  // The page as a transition system
  // ---------------------------------------------------------------------------

  /** A mounted page: the role it was entered with (truthy, or the page would
      have navigated away), the handed-over session, the React state, the
      number of generate and grade requests whose replies are still awaited,
      and every request issued since mounting, in order. */
  datatype Page = Page(
    jobRole: string,
    handoff: Handoff,
    state: State,
    pendingGenerate: nat,
    pendingGrade: nat,
    sent: seq<Request>)

  /** What happens when the route is entered. */
  datatype Entry = NavigateHome | Mounted(page: Page)

  /** The events the page reacts to: user gestures on rendered controls, and
      the replies to requests in flight. */
  datatype Event =
    | TypeAnswer(text: string)
    | ClickSubmit
    | ClickNextPrompt
    | GenerateReply(generated: Response<string>)
    | GradeReply(graded: Response<Feedback>)

  /** Mounting and the entry effect: without a truthy role the page goes home
      and issues nothing; otherwise it starts generating from the initial state. */
  function Enter(h: Handoff): (e: Entry)
    ensures !Truthy(h.jobRole) <==> e == NavigateHome
    ensures e.Mounted? ==>
              && e.page.jobRole == h.jobRole.value
              && e.page.sent == [GenerateQuestion(h.jobRole.value)]
              && e.page.state.isGenerating && e.page.pendingGenerate == 1
  {
    if !Truthy(h.jobRole) then NavigateHome
    else
      var t := GenerateStart(Initial, h.jobRole.value);
      Mounted(Page(h.jobRole.value, h, t.next, 1, 0, [t.request.value]))
  }

  /** Record the synchronous half of a handler on the page. */
  function Issue(p: Page, t: Transition): Page
  {
    match t.request
    case None => p.(state := t.next)
    case Some(GenerateQuestion(r)) =>
      p.(state := t.next, pendingGenerate := p.pendingGenerate + 1, sent := p.sent + [GenerateQuestion(r)])
    case Some(GradeAnswer(i, q, a)) =>
      p.(state := t.next, pendingGrade := p.pendingGrade + 1, sent := p.sent + [GradeAnswer(i, q, a)])
  }

  /** One event, or `None` when the page cannot receive it: the control is not
      rendered or is disabled, or no request of that kind is in flight. */
  function Step(p: Page, e: Event): Option<Page>
  {
    match e
    case TypeAnswer(text) =>
      if AnswerAreaShown(p.state) then Some(p.(state := EditAnswer(p.state, text))) else None
    case ClickSubmit =>
      if SubmitEnabled(p.state) then Some(Issue(p, SubmitAnswer(p.state, p.handoff))) else None
    case ClickNextPrompt =>
      if NextPromptShown(p.state) then Some(Issue(p, GenerateStart(p.state, p.jobRole))) else None
    case GenerateReply(r) =>
      if p.pendingGenerate > 0
      then Some(p.(state := GenerateEnd(p.state, r), pendingGenerate := p.pendingGenerate - 1))
      else None
    case GradeReply(r) =>
      if p.pendingGrade > 0
      then Some(p.(state := GradeEnd(p.state, r), pendingGrade := p.pendingGrade - 1))
      else None
  }

  /** Typing, submitting and "Next Prompt" are received exactly when their
      control is rendered and enabled, and a reply exactly when a request of
      its kind is in flight. */
  lemma StepFollowsControls(p: Page, e: Event)
    ensures e.TypeAnswer? ==> (Step(p, e).Some? <==> AnswerAreaShown(p.state))
    ensures e.ClickSubmit? ==> (Step(p, e).Some? <==> SubmitEnabled(p.state))
    ensures e.ClickNextPrompt? ==> (Step(p, e).Some? <==> NextPromptShown(p.state))
    ensures e.GenerateReply? ==> (Step(p, e).Some? <==> p.pendingGenerate > 0)
    ensures e.GradeReply? ==> (Step(p, e).Some? <==> p.pendingGrade > 0)
  {
  }

  /** An accepted event keeps the role and session the page was entered with
      and issues at most one request, appended to those already sent; "Next
      Prompt" runs the generate handler for the page's own role, and only the
      two buttons send anything. */
  lemma StepAppendsAtMostOne(p: Page, e: Event)
    requires Step(p, e).Some?
    ensures Step(p, e).value.jobRole == p.jobRole && Step(p, e).value.handoff == p.handoff
    ensures p.sent <= Step(p, e).value.sent && |Step(p, e).value.sent| <= |p.sent| + 1
    ensures e.ClickNextPrompt? ==>
              && Step(p, e).value.state == GenerateStart(p.state, p.jobRole).next
              && Step(p, e).value.sent == p.sent + [GenerateQuestion(p.jobRole)]
    ensures !e.ClickSubmit? && !e.ClickNextPrompt? ==> Step(p, e).value.sent == p.sent
  {
    match e
    case ClickSubmit => SubmitAppendsOne(p);
    case ClickNextPrompt => NextPromptAppendsOne(p);
    case TypeAnswer(_) => assert Step(p, e).value.sent == p.sent;
    case GenerateReply(_) => assert Step(p, e).value.sent == p.sent;
    case GradeReply(_) => assert Step(p, e).value.sent == p.sent;
  }

  /** An accepted submit appends exactly the grade request for the draft. */
  lemma SubmitAppendsOne(p: Page)
    requires Step(p, ClickSubmit).Some?
    ensures Step(p, ClickSubmit).value.sent
              == p.sent + [GradeAnswer(p.handoff.interviewId, p.state.question, p.state.userAnswer)]
    ensures Step(p, ClickSubmit).value.jobRole == p.jobRole
    ensures Step(p, ClickSubmit).value.handoff == p.handoff
  {
    var t := SubmitAnswer(p.state, p.handoff);
    assert !Blank(p.state.userAnswer);
    assert Step(p, ClickSubmit) == Some(Issue(p, t));
  }

  /** An accepted "Next Prompt" appends exactly one generate request. */
  lemma NextPromptAppendsOne(p: Page)
    requires Step(p, ClickNextPrompt).Some?
    ensures Step(p, ClickNextPrompt).value.state == GenerateStart(p.state, p.jobRole).next
    ensures Step(p, ClickNextPrompt).value.sent == p.sent + [GenerateQuestion(p.jobRole)]
    ensures Step(p, ClickNextPrompt).value.jobRole == p.jobRole
    ensures Step(p, ClickNextPrompt).value.handoff == p.handoff
  {
    assert Step(p, ClickNextPrompt) == Some(Issue(p, GenerateStart(p.state, p.jobRole)));
  }

  /** A sequence of events from `p`, or `None` if one of them cannot happen. */
  function Run(p: Page, es: seq<Event>): Option<Page>
    decreases |es|
  {
    if es == [] then Some(p)
    else match Step(p, es[0])
      case None => None
      case Some(q) => Run(q, es[1..])
  }

  /** A request the page may legitimately have issued: a generate request for
      its own role, or a grade request for its session with a non-blank answer. */
  predicate Legitimate(p: Page, r: Request) {
    match r
    case GenerateQuestion(role) => role == p.jobRole
    case GradeAnswer(id, _, answer) => id == p.handoff.interviewId && !Blank(answer)
  }

  /** Every request of `rs` is legitimate for `p`. */
  predicate AllLegitimate(p: Page, rs: seq<Request>) {
    forall k :: 0 <= k < |rs| ==> Legitimate(p, rs[k])
  }

  /** The page invariant. Each flag is raised exactly while one reply of its
      kind is awaited; at most one of them is raised; neither is raised while
      feedback is shown; every request issued so far is legitimate. */
  predicate Inv(p: Page) {
    && p.pendingGenerate == (if p.state.isGenerating then 1 else 0)
    && p.pendingGrade == (if p.state.isGrading then 1 else 0)
    && !(p.state.isGenerating && p.state.isGrading)
    && (p.state.isGenerating || p.state.isGrading ==> p.state.feedback.None?)
    && AllLegitimate(p, p.sent)
  }

  /** Entering with a role establishes the invariant. */
  lemma EnterEstablishesInv(h: Handoff)
    requires Enter(h).Mounted?
    ensures Inv(Enter(h).page)
  {
  }

  /** Appending a legitimate request keeps every request legitimate. */
  lemma AppendLegitimate(p: Page, q: Page, r: Request)
    requires q.jobRole == p.jobRole && q.handoff == p.handoff && q.sent == p.sent + [r]
    requires AllLegitimate(p, p.sent) && Legitimate(q, r)
    ensures AllLegitimate(q, q.sent)
  {
  }

  /** Every event the page can receive preserves the invariant. */
  lemma StepPreservesInv(p: Page, e: Event)
    requires Inv(p) && Step(p, e).Some?
    ensures Inv(Step(p, e).value)
  {
    var q := Step(p, e).value;
    match e
    case ClickSubmit =>
      var t := SubmitAnswer(p.state, p.handoff);
      assert !Blank(p.state.userAnswer);
      AppendLegitimate(p, q, t.request.value);
    case ClickNextPrompt =>
      var t := GenerateStart(p.state, p.jobRole);
      AppendLegitimate(p, q, t.request.value);
    case TypeAnswer(_) =>
      assert q.sent == p.sent;
    case GenerateReply(_) =>
      assert q.sent == p.sent;
    case GradeReply(_) =>
      assert q.sent == p.sent;
  }

  /** The invariant holds after any run of events. */
  lemma {:induction false} RunPreservesInv(p: Page, es: seq<Event>)
    requires Inv(p) && Run(p, es).Some?
    ensures Inv(Run(p, es).value)
    decreases |es|
  {
    if es != [] {
      StepPreservesInv(p, es[0]);
      RunPreservesInv(Step(p, es[0]).value, es[1..]);
    }
  }

  /** On every page reachable from entry, generating and grading never overlap,
      the answer area and "Next Prompt" are offered only in their own phases,
      and no blank answer was ever sent for grading. */
  lemma ReachablePhasesExclusive(h: Handoff, es: seq<Event>)
    requires Enter(h).Mounted? && Run(Enter(h).page, es).Some?
    ensures var q := Run(Enter(h).page, es).value;
            && !(q.state.isGenerating && q.state.isGrading)
            && (NextPromptShown(q.state) ==> !q.state.isGenerating && !q.state.isGrading)
            && (forall k :: 0 <= k < |q.sent| ==> q.sent[k].GradeAnswer? ==> !Blank(q.sent[k].userAnswer))
  {
    EnterEstablishesInv(h);
    RunPreservesInv(Enter(h).page, es);
    var q := Run(Enter(h).page, es).value;
    forall k | 0 <= k < |q.sent| && q.sent[k].GradeAnswer?
      ensures !Blank(q.sent[k].userAnswer)
    {
      assert Legitimate(q, q.sent[k]);
    }
  }

  /** "Next Prompt" issues exactly one generate request, for the page's role,
      and hides both itself and the answer area until the reply arrives. */
  lemma NextPromptIssuesOneGenerate(p: Page)
    requires Inv(p) && Step(p, ClickNextPrompt).Some?
    ensures var q := Step(p, ClickNextPrompt).value;
            && q.sent == p.sent + [GenerateQuestion(p.jobRole)]
            && q.pendingGenerate == 1 && q.pendingGrade == 0
            && !AnswerAreaShown(q.state) && !NextPromptShown(q.state)
  {
  }

  /** A failed generate (rejected or thrown) keeps the previous question, shows
      the answer area again and does not offer "Next Prompt": the only control
      left is the submit button, for the question already on screen. */
  lemma FailedGenerateKeepsQuestion(p: Page, r: Response<string>)
    requires Inv(p) && !r.Ok? && Step(p, GenerateReply(r)).Some?
    ensures var q := Step(p, GenerateReply(r)).value;
            && q.state.question == p.state.question
            && AnswerAreaShown(q.state) && !NextPromptShown(q.state)
            && q.pendingGenerate == 0
  {
  }

  /** A failed grade keeps the draft and shows no feedback; the answer area is
      back and the submit button is enabled again exactly when the draft is
      not blank (the text area stays editable while grading, so the draft may
      differ from the answer that was sent). */
  lemma FailedGradeAllowsRetry(p: Page, r: Response<Feedback>)
    requires Inv(p) && !r.Ok? && Step(p, GradeReply(r)).Some?
    ensures var q := Step(p, GradeReply(r)).value;
            && q.state.userAnswer == p.state.userAnswer
            && q.state.feedback == None && !q.state.isGrading
            && AnswerAreaShown(q.state)
            && (SubmitEnabled(q.state) <==> !Blank(q.state.userAnswer))
  {
  }

  /** Running two events is stepping twice. */
  lemma RunTwo(p: Page, e1: Event, e2: Event)
    ensures Run(p, [e1, e2]) == if Step(p, e1).None? then None else Step(Step(p, e1).value, e2)
  {
    assert [e1, e2][1..] == [e2] && [e2][1..] == [];
    if Step(p, e1).Some? {
      var q := Step(p, e1).value;
      assert Run(p, [e1, e2]) == Run(q, [e2]);
      if Step(q, e2).Some? {
        assert Run(q, [e2]) == Run(Step(q, e2).value, []);
      }
    }
  }

  /** Wherever the answer area is shown and no grading runs, typing a
      non-blank answer and submitting it sends exactly that text, with the
      question on screen, as one more grade request. */
  lemma TypeThenSubmitSendsText(p: Page, answer: string)
    requires AnswerAreaShown(p.state) && !p.state.isGrading && !Blank(answer)
    ensures var q := Run(p, [TypeAnswer(answer), ClickSubmit]);
            && q.Some?
            && q.value.sent == p.sent + [GradeAnswer(p.handoff.interviewId, p.state.question, answer)]
            && q.value.state.isGrading
  {
    var p2 := p.(state := EditAnswer(p.state, answer));
    assert Step(p, TypeAnswer(answer)) == Some(p2);
    assert SubmitEnabled(p2.state);
    var t := SubmitAnswer(p2.state, p2.handoff);
    assert t.request == Some(GradeAnswer(p.handoff.interviewId, p.state.question, answer));
    var p3 := Issue(p2, t);
    assert Step(p2, ClickSubmit) == Some(p3);
    RunTwo(p, TypeAnswer(answer), ClickSubmit);
  }

  /** The page right after the first generation failed: the empty initial
      question with the answer area, no grading, no "Next Prompt", and only
      the entry request sent. */
  lemma FirstGenerateFailurePage(h: Handoff, r: Response<string>)
    requires Truthy(h.jobRole) && !r.Ok?
    ensures Step(Enter(h).page, GenerateReply(r)).Some?
    ensures var p := Step(Enter(h).page, GenerateReply(r)).value;
            && p.state.question == "" && p.handoff == h
            && AnswerAreaShown(p.state) && !p.state.isGrading && !NextPromptShown(p.state)
            && p.sent == [GenerateQuestion(h.jobRole.value)]
  {
    var p0 := Page(h.jobRole.value, h, State("", "", None, true, false, Some("")), 1, 0,
                   [GenerateQuestion(h.jobRole.value)]);
    assert Enter(h) == Mounted(p0);
    var err := if r.NotOk? then r.error else Some(ConnectionFailed);
    var p := p0.(state := State("", "", None, false, false, err), pendingGenerate := 0);
    assert Step(p0, GenerateReply(r)) == Some(p);
  }

  /** The first generation failing, by a rejection or an exception, leaves
      the empty initial question on screen with the answer area and without
      "Next Prompt", and an answer to the empty question can still be sent
      for grading. */
  lemma FirstGenerateFailureGradesEmptyQuestion(h: Handoff, r: Response<string>, answer: string)
    requires Truthy(h.jobRole) && !r.Ok? && !Blank(answer)
    ensures Step(Enter(h).page, GenerateReply(r)).Some?
    ensures var p := Step(Enter(h).page, GenerateReply(r)).value;
            && p.state.question == ""
            && Step(p, ClickNextPrompt) == None
            && Run(p, [TypeAnswer(answer), ClickSubmit]).Some?
            && Run(p, [TypeAnswer(answer), ClickSubmit]).value.sent
                 == [GenerateQuestion(h.jobRole.value), GradeAnswer(h.interviewId, "", answer)]
  {
    FirstGenerateFailurePage(h, r);
    var p := Step(Enter(h).page, GenerateReply(r)).value;
    assert Step(p, ClickNextPrompt) == None;
    TypeThenSubmitSendsText(p, answer);
    var q := Run(p, [TypeAnswer(answer), ClickSubmit]).value;
    assert q.sent == [GenerateQuestion(h.jobRole.value)] + [GradeAnswer(h.interviewId, "", answer)];
  }
}
