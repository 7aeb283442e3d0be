/**
 The history dashboard: once the identity provider has loaded a signed-in
 user, the page fetches that user's past sessions and shows a spinner, an
 empty state or a grid of session cards; clicking a card opens the session's
 full record of prompts, and "back" returns to the grid.
 */
module Dashboard {
  import opened Common

  /** One graded round of a stored session. */
  datatype QAPair = QAPair(question: string, userAnswer: string, aiFeedback: string, score: int)

  /** A stored session as the history endpoint returns it. `createdAt` is kept
      as the opaque text the backend sends. */
  datatype Session = Session(id: string, jobRole: string, createdAt: string, qaPairs: seq<QAPair>)

  /** The page's React state. */
  datatype State = State(sessions: seq<Session>, isLoading: bool, selected: Option<Session>)

  /** The history request: `GET /api/interviews?userId=...`. */
  datatype Request = ListInterviews(userId: string)

  const Initial: State := State([], true, None)

  // ---------------------------------------------------------------------------
  // The fetch effect
  // ---------------------------------------------------------------------------

  /** The effect's gate: a request is issued only when the provider has loaded
      and reports a user id, and it is for that user. */
  function FetchStart(auth: Auth): (r: Option<Request>)
    ensures r.Some? <==> auth.isLoaded && Truthy(auth.userId)
    ensures r.Some? ==> r.value.userId == auth.userId.value
  {
    if !auth.isLoaded || !Truthy(auth.userId) then None else Some(ListInterviews(auth.userId.value))
  }

  /** `fetchHistory` after its `await`: an ok reply replaces the sessions with
      the reply's list; a non-ok status or an exception leaves them as they
      were; loading ends in every case and the selection is untouched. */
  function FetchEnd(s: State, reply: Response<seq<Session>>): (n: State)
    ensures !n.isLoading && n.selected == s.selected
    ensures reply.Ok? ==> n.sessions == reply.data
    ensures !reply.Ok? ==> n.sessions == s.sessions
  {
    match reply
    case Ok(list) => s.(sessions := list, isLoading := false)
    case _ => s.(isLoading := false)
  }

  /** Clicking a card opens that session; the list is untouched. */
  function Select(s: State, session: Session): (n: State)
    ensures n.selected == Some(session)
    ensures n.sessions == s.sessions && n.isLoading == s.isLoading
  {
    s.(selected := Some(session))
  }

  /** The back arrow closes the open session; the list is untouched. */
  function Back(s: State): (n: State)
    ensures n.selected == None
    ensures n.sessions == s.sessions && n.isLoading == s.isLoading
  {
    s.(selected := None)
  }

  // ---------------------------------------------------------------------------
  // What is rendered
  // ---------------------------------------------------------------------------

  /** "Prompt i" heading of the i-th record (counting from one). */
  function PromptLabel(n: nat): string {
    "Prompt " + Decimal(n)
  }

  /** The count under a card: the number followed by "Prompt" when it is one
      and "Prompts" otherwise. */
  function CountLabel(n: nat): (r: string)
    ensures |Decimal(n)| < |r| && r[..|Decimal(n)|] == Decimal(n) && r[|Decimal(n)|] == ' '
    ensures r[|r| - 1] == 's' <==> n != 1
    ensures r[|Decimal(n)| + 1..] == "Prompt" || r[|Decimal(n)| + 1..] == "Prompts"
  {
    Decimal(n) + " " + (if n == 1 then "Prompt" else "Prompts")
  }

  /** The badge of the open session: the number of its records. */
  function RecordsBadge(s: Session): string {
    Decimal(|s.qaPairs|) + " Records"
  }

  /** One record of the open session, with its heading. */
  datatype Item = Item(heading: string, qa: QAPair)

  /** A card of the grid. */
  datatype Card = Card(jobRole: string, createdAt: string, countLabel: string)

  /** The open session: its role, date, records badge and records. */
  datatype Detail = Detail(jobRole: string, createdAt: string, badge: string, items: seq<Item>)

  /** What the page renders. */
  datatype View = ShowDetail(detail: Detail) | Spinner | EmptyState | Grid(cards: seq<Card>)

  /** The records of a session in stored order, the i-th headed "Prompt i+1". */
  function Items(qaPairs: seq<QAPair>): (r: seq<Item>)
    ensures |r| == |qaPairs|
    ensures forall i :: 0 <= i < |r| ==> r[i].qa == qaPairs[i]
    ensures forall i :: 0 <= i < |r| ==> r[i].heading == PromptLabel(i + 1)
  {
    seq(|qaPairs|, i requires 0 <= i < |qaPairs| => Item(PromptLabel(i + 1), qaPairs[i]))
  }

  /** The open session: a header with its role and date, the records badge,
      and its records in stored order, the i-th headed "Prompt i+1". */
  function DetailOf(s: Session): (d: Detail)
    ensures d.jobRole == s.jobRole && d.createdAt == s.createdAt
    ensures d.badge == RecordsBadge(s)
    ensures |d.items| == |s.qaPairs|
    ensures forall i :: 0 <= i < |d.items| ==> d.items[i].qa == s.qaPairs[i]
    ensures forall i :: 0 <= i < |d.items| ==> d.items[i].heading == PromptLabel(i + 1)
  {
    Detail(s.jobRole, s.createdAt, RecordsBadge(s), Items(s.qaPairs))
  }

  /** A session's card: its role, its date, and a count label that reads
      back as its number of records, in the plural unless there is one. */
  function CardOf(s: Session): (c: Card)
    ensures c.jobRole == s.jobRole && c.createdAt == s.createdAt
    ensures |Decimal(|s.qaPairs|)| < |c.countLabel|
    ensures c.countLabel[..|Decimal(|s.qaPairs|)|] == Decimal(|s.qaPairs|)
    ensures ParseDecimal(c.countLabel[..|Decimal(|s.qaPairs|)|]) == |s.qaPairs|
    ensures c.countLabel[|c.countLabel| - 1] == 's' <==> |s.qaPairs| != 1
    ensures c.countLabel == CountLabel(|s.qaPairs|)
  {
    ParseDecimalOfDecimal(|s.qaPairs|);
    Card(s.jobRole, s.createdAt, CountLabel(|s.qaPairs|))
  }

  /** The view: an open session wins; otherwise the spinner while loading,
      else the empty state for an empty list, else one card per session in
      list order. */
  function ViewOf(s: State): (v: View)
    ensures s.selected.Some? <==> v.ShowDetail?
    ensures v.ShowDetail? ==> v.detail == DetailOf(s.selected.value)
    ensures s.selected.None? ==>
              && (v == Spinner <==> s.isLoading)
              && (v == EmptyState <==> !s.isLoading && |s.sessions| == 0)
              && (v.Grid? <==> !s.isLoading && |s.sessions| > 0)
    ensures v.Grid? ==> |v.cards| == |s.sessions|
                        && forall i :: 0 <= i < |v.cards| ==> v.cards[i] == CardOf(s.sessions[i])
  {
    if s.selected.Some? then ShowDetail(DetailOf(s.selected.value))
    else if s.isLoading then Spinner
    else if |s.sessions| == 0 then EmptyState
    else Grid(seq(|s.sessions|, i requires 0 <= i < |s.sessions| => CardOf(s.sessions[i])))
  }

  /** The number in a "Prompt n" heading reads back as n, and distinct
      numbers give distinct headings. */
  lemma PromptLabelReadsBack(m: nat, n: nat)
    ensures |PromptLabel(n)| > 7 && ParseDecimal(PromptLabel(n)[7..]) == n
    ensures PromptLabel(m) == PromptLabel(n) <==> m == n
  {
    assert PromptLabel(n)[7..] == Decimal(n);
    ParseDecimalOfDecimal(n);
    if PromptLabel(m) == PromptLabel(n) {
      assert PromptLabel(m)[7..] == Decimal(m);
      DecimalInjective(m, n);
    }
  }

  /** Each record's heading names its own position: reading the number back
      from the heading of the i-th record gives i+1, so no two records share
      a heading. */
  lemma ItemLabelsNumberPositions(qaPairs: seq<QAPair>, i: nat, j: nat)
    requires i < |qaPairs| && j < |qaPairs|
    ensures ParseDecimal(Items(qaPairs)[i].heading[7..]) == i + 1
    ensures Items(qaPairs)[i].heading == Items(qaPairs)[j].heading <==> i == j
  {
    var items := Items(qaPairs);
    assert items[i].heading == PromptLabel(i + 1);
    assert items[j].heading == PromptLabel(j + 1);
    PromptLabelReadsBack(j + 1, i + 1);
  }

  /** The badge of the open session reads back as its number of records. */
  lemma BadgeCountsRecords(s: Session)
    ensures var b := DetailOf(s).badge;
            exists k :: 0 < k <= |b| && b[k..] == " Records"
                        && (forall c :: 0 <= c < k ==> IsDigit(b[c]))
                        && ParseDecimal(b[..k]) == |s.qaPairs|
  {
    var b := DetailOf(s).badge;
    var k := |Decimal(|s.qaPairs|)|;
    assert b[..k] == Decimal(|s.qaPairs|);
    assert b[k..] == " Records";
    ParseDecimalOfDecimal(|s.qaPairs|);
  }

  /** Cards with different numbers of records carry different count labels. */
  lemma CountLabelInjective(m: nat, n: nat)
    ensures CountLabel(m) == CountLabel(n) <==> m == n
  {
    if CountLabel(m) == CountLabel(n) {
      var dm, dn := Decimal(m), Decimal(n);
      assert |dm| == |dn|;
      assert dm == CountLabel(m)[..|dm|] == CountLabel(n)[..|dn|] == dn;
      DecimalInjective(m, n);
    }
  }

  /** A reply with an empty list shows the explicit empty state, not the spinner. */
  lemma EmptyReplyShowsEmptyState(s: State)
    requires s.selected.None?
    ensures ViewOf(FetchEnd(s, Ok([]))) == EmptyState
  {
  }

  // ---------------------------------------------------------------------------
  // The page as a transition system
  // ---------------------------------------------------------------------------

  /** A mounted page: its state, the identity it sees, the number of history
      requests whose replies are awaited, and every request issued so far. */
  datatype Page = Page(state: State, auth: Auth, pending: nat, sent: seq<Request>)

  /** The events the page reacts to. The fetch effect re-runs whenever the
      identity it depends on changes. */
  datatype Event =
    | AuthChanged(auth: Auth)
    | HistoryReplied(reply: Response<seq<Session>>)
    | ClickCard(index: nat)
    | ClickBack

  /** Run the fetch effect for `auth`: one history request for the user when
      the provider has loaded a user id, nothing otherwise. */
  function RunEffect(p: Page, auth: Auth): (q: Page)
    ensures q.state == p.state && q.auth == auth
    ensures auth.isLoaded && Truthy(auth.userId) ==>
              q.sent == p.sent + [ListInterviews(auth.userId.value)] && q.pending == p.pending + 1
    ensures !(auth.isLoaded && Truthy(auth.userId)) ==> q.sent == p.sent && q.pending == p.pending
  {
    match FetchStart(auth)
    case None => p.(auth := auth)
    case Some(req) => p.(auth := auth, pending := p.pending + 1, sent := p.sent + [req])
  }

  /** Mounting renders the initial state and runs the effect once. */
  function Mount(auth: Auth): Page {
    RunEffect(Page(Initial, auth, 0, []), auth)
  }

  /** One event, or `None` when the page cannot receive it. */
  function Step(p: Page, e: Event): Option<Page>
  {
    match e
    case AuthChanged(a) =>
      if a == p.auth then Some(p) else Some(RunEffect(p, a))
    case HistoryReplied(reply) =>
      if p.pending > 0 then Some(p.(state := FetchEnd(p.state, reply), pending := p.pending - 1))
      else None
    case ClickCard(i) =>
      if ViewOf(p.state).Grid? && i < |p.state.sessions|
      then Some(p.(state := Select(p.state, p.state.sessions[i]))) else None
    case ClickBack =>
      if ViewOf(p.state).ShowDetail? then Some(p.(state := Back(p.state))) else None
  }

  /** How the page wires its controls and its effect: the i-th card is
      clickable exactly while the grid shows it, and opens that session's
      detail; the back arrow works exactly while a session is open, and
      closes it; a change of identity re-runs the effect, and any other
      identity update changes nothing; a reply is received exactly while one
      is awaited. No event but the effect sends a request, and clicks leave
      the list alone. */
  lemma StepFollowsControls(p: Page, e: Event)
    ensures e.ClickCard? ==>
              (Step(p, e).Some? <==> ViewOf(p.state).Grid? && e.index < |ViewOf(p.state).cards|)
    ensures e.ClickCard? && Step(p, e).Some? ==>
              && ViewOf(Step(p, e).value.state) == ShowDetail(DetailOf(p.state.sessions[e.index]))
              && Step(p, e).value.state.sessions == p.state.sessions
              && Step(p, e).value.sent == p.sent
    ensures e.ClickBack? ==> (Step(p, e).Some? <==> ViewOf(p.state).ShowDetail?)
    ensures e.ClickBack? && Step(p, e).Some? ==>
              && !ViewOf(Step(p, e).value.state).ShowDetail?
              && Step(p, e).value.state.sessions == p.state.sessions
              && Step(p, e).value.sent == p.sent
    ensures e.AuthChanged? ==> Step(p, e) == Some(if e.auth == p.auth then p else RunEffect(p, e.auth))
    ensures e.HistoryReplied? ==> (Step(p, e).Some? <==> p.pending > 0)
    ensures e.HistoryReplied? && Step(p, e).Some? ==>
              Step(p, e).value.pending == p.pending - 1 && Step(p, e).value.sent == p.sent
  {
  }

  function Run(p: Page, es: seq<Event>): Option<Page>
    decreases |es|
  {
    if es == [] then Some(p)
    else match Step(p, es[0])
      case None => None
      case Some(q) => Run(q, es[1..])
  }

  /** The list of the last ok reply among `es`, or `current` if there is none. */
  function LastOkList(es: seq<Event>, current: seq<Session>): seq<Session>
    decreases |es|
  {
    if es == [] then current
    else if es[0].HistoryReplied? && es[0].reply.Ok? then LastOkList(es[1..], es[0].reply.data)
    else LastOkList(es[1..], current)
  }

  /** Some event of `es` is a history reply. */
  predicate AnyReply(es: seq<Event>) {
    exists k :: 0 <= k < |es| && es[k].HistoryReplied?
  }

  /** Over any run, the list shown is the one of the last ok reply (selecting
      and going back never touch it), and the page is loading exactly when it
      was loading before and no reply has arrived. */
  lemma {:induction false} RunSessionsFollowReplies(p: Page, es: seq<Event>)
    requires Run(p, es).Some?
    ensures Run(p, es).value.state.sessions == LastOkList(es, p.state.sessions)
    ensures Run(p, es).value.state.isLoading <==> p.state.isLoading && !AnyReply(es)
    decreases |es|
  {
    if es != [] {
      var q := Step(p, es[0]).value;
      RunSessionsFollowReplies(q, es[1..]);
      if AnyReply(es[1..]) {
        var k :| 0 <= k < |es[1..]| && es[1..][k].HistoryReplied?;
        assert es[k + 1].HistoryReplied?;
      }
      if AnyReply(es) && !es[0].HistoryReplied? {
        var k :| 0 <= k < |es| && es[k].HistoryReplied?;
        assert es[1..][k - 1].HistoryReplied?;
      }
    }
  }

  /** The identity never reaches a loaded, signed-in user in `es`. */
  predicate NeverSignedIn(es: seq<Event>) {
    forall k :: 0 <= k < |es| ==> es[k].AuthChanged? ==> FetchStart(es[k].auth).None?
  }

  /** Without a loaded, signed-in user no history request is ever issued, and
      the spinner stays up for good: there is no separate "not loaded" view. */
  lemma {:induction false} NoIdentityNoRequest(p: Page, es: seq<Event>)
    requires p.sent == [] && p.pending == 0 && p.state.isLoading && p.state.selected.None?
    requires FetchStart(p.auth).None? && NeverSignedIn(es) && Run(p, es).Some?
    ensures Run(p, es).value.sent == [] && ViewOf(Run(p, es).value.state) == Spinner
    decreases |es|
  {
    if es != [] {
      assert es[0].AuthChanged? ==> FetchStart(es[0].auth).None?;
      var q := Step(p, es[0]).value;
      assert NeverSignedIn(es[1..]) by {
        forall k | 0 <= k < |es[1..]| ensures es[1..][k].AuthChanged? ==> FetchStart(es[1..][k].auth).None? {
          assert es[1..][k] == es[k + 1];
        }
      }
      NoIdentityNoRequest(q, es[1..]);
    }
  }

  /** Mounting without a loaded, signed-in user issues nothing and shows the spinner. */
  lemma MountWithoutIdentity(auth: Auth, es: seq<Event>)
    requires FetchStart(auth).None? && NeverSignedIn(es) && Run(Mount(auth), es).Some?
    ensures Run(Mount(auth), es).value.sent == [] && ViewOf(Run(Mount(auth), es).value.state) == Spinner
  {
    NoIdentityNoRequest(Mount(auth), es);
  }
}
