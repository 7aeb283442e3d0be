/**
 The hand-over from the home page to the interview page: a navigation the
 home page shows becomes the route state the interview page is entered with.
 */
module Flow {
  import opened Common
  import Home
  import Interview

  /** The route state `{ interviewId, jobRole }` passed with a navigation. */
  function HandoffOf(nav: Home.Effect): (h: Interview.Handoff)
    requires nav.NavigateToInterview?
    ensures h.interviewId == Some(nav.interviewId) && h.jobRole == Some(nav.jobRole)
  {
    Interview.Handoff(Some(nav.interviewId), Some(nav.jobRole))
  }

  /** Every navigation the home page shows, on any run from mounting, enters
      the interview page generating: it does not bounce back home, and
      exactly one generate request is in flight, for the role that was
      submitted, with the new session id handed over for grading. */
  lemma NavigationStartsInterview(auth: Auth, es: seq<Home.Event>, k: nat)
    requires Home.Run(Home.Mount(auth), es).Some?
    requires k < |Home.Run(Home.Mount(auth), es).value.shown|
    requires Home.Run(Home.Mount(auth), es).value.shown[k].NavigateToInterview?
    ensures var nav := Home.Run(Home.Mount(auth), es).value.shown[k];
            var entry := Interview.Enter(HandoffOf(nav));
            && entry.Mounted?
            && entry.page.sent == [Interview.GenerateQuestion(nav.jobRole)]
            && entry.page.pendingGenerate == 1 && entry.page.state.isGenerating
            && entry.page.handoff.interviewId == Some(nav.interviewId)
  {
    Home.ReachableNavigationWellFormed(auth, es);
    var nav := Home.Run(Home.Mount(auth), es).value.shown[k];
    assert !Blank(nav.jobRole);
    assert nav.jobRole != "";
  }
}
