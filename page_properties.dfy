// What the steps of readTicket, applyTestEmail and the tone effect promise,
// alone and when attempts interleave. An attempt that runs alone from start to
// finish is the composition `Attempt`; interleavings are stated step by step.

module PageProperties {
  import opened JsBuiltins
  import opened Records
  import opened Constants
  import opened Reply
  import opened Api
  import opened Page

  /** Facts that hold however attempts interleave: the digest holds at most
      three titles, the stored email has no whitespace, every aborted
      controller was issued before, and the installed controller was issued
      and has not been aborted. */
  predicate WellFormed(v: View) {
    && |v.posts| <= 3
    && NoSpace(v.ticket.email)
    && (forall id :: id in v.aborted ==> id < v.generation)
    && (v.current.Some? ==> v.current.value < v.generation && v.current.value !in v.aborted)
  }

  /** What the page shows agrees with itself: a settled reply is the draft of
      the ticket, profile, digest and tone on screen; 'missing' means no email,
      'notfound' an email without a profile, 'ready' an email with one. */
  predicate Consistent(v: View) {
    && (Settled(v.state) ==> v.reply == GenReply(v.tone, v.ticket, v.user, v.posts))
    && (v.state == Missing ==> v.ticket.email == "" && v.user.None? && v.posts == [])
    && (v.state == NotFound ==> v.ticket.email != "" && v.user.None? && v.posts == [])
    && (v.state == Ready ==> v.ticket.email != "" && v.user.Some?)
  }

  /** The email an attempt resolves: the override, else the host's email, else
      the query's, else the manual email, sanitized. */
  function AttemptEmail(v: View, override: string, host: Host, q: Query): string {
    SanitizeEmail(if override != "" then override
                  else if host.HostFields? then host.email
                  else FallbackTicket(q, v.manualEmail).email)
  }

  /** The rest of an attempt once its posts step is due, or once it ended. */
  function Finish(l: Step, posts: PostsOutcome): View
    requires l.run.phase == Done || l.run.phase == AwaitPosts
  {
    if l.run.phase == Done then l.view else AfterPosts(l.view, l.run, posts).view
  }

  /** The rest of an attempt once its lookup is due, or once it ended. */
  function Resume(h: Step, exact: Fetch, all: Fetch, posts: PostsOutcome): View
    requires h.run.phase == Done || h.run.phase == AwaitLookup
  {
    if h.run.phase == Done then h.view else Finish(AfterLookup(h.view, h.run, exact, all), posts)
  }

  /** One attempt of readTicket that no other attempt interrupts. */
  function Attempt(v: View, override: string, host: Host, q: Query,
                   exact: Fetch, all: Fetch, posts: PostsOutcome): View
  {
    var b := Begin(v, override);
    Resume(AfterHost(b.view, b.run, host, q), exact, all, posts)
  }

  // ------------------------------------------------------------ single steps

  /** Starting an attempt shows 'loading' without an error, aborts the attempt
      in flight, and installs a controller that is new and not aborted; no
      other field changes. */
  lemma BeginStartsAttempt(v: View, override: string)
    requires WellFormed(v)
    ensures var s := Begin(v, override);
      && s.view.state == Loading && s.view.error == ""
      && s.run.id == v.generation && s.view.current == Some(s.run.id) && s.run.id !in s.view.aborted
      && s.view.aborted == (if v.current.Some? then v.aborted + {v.current.value} else v.aborted)
      && s.view.(state := v.state, error := v.error, current := v.current,
                 generation := v.generation, aborted := v.aborted) == v
      && s.run.override == override && s.run.manual == v.manualEmail && s.run.tone == v.tone
      && s.run.phase == AwaitHost
      && WellFormed(s.view)
  {
  }

  /** The host step keeps WellFormed, whichever attempt it belongs to. */
  lemma HostStepKeepsWellFormed(v: View, run: Run, host: Host, q: Query)
    requires WellFormed(v) && run.phase == AwaitHost
    ensures WellFormed(AfterHost(v, run, host, q).view)
  {
  }

  /** The lookup step keeps WellFormed, whichever attempt it belongs to. */
  lemma LookupStepKeepsWellFormed(v: View, run: Run, exact: Fetch, all: Fetch)
    requires WellFormed(v) && run.phase == AwaitLookup
    ensures WellFormed(AfterLookup(v, run, exact, all).view)
  {
  }

  /** The posts step keeps WellFormed, whichever attempt it belongs to: the
      digest never holds more than three titles. */
  lemma PostsStepKeepsWellFormed(v: View, run: Run, posts: PostsOutcome)
    requires WellFormed(v) && run.phase == AwaitPosts
    ensures WellFormed(AfterPosts(v, run, posts).view)
  {
    if !run.signalAborted && posts.PostsBody? {
      PickLast3TitlesSpec(posts.body);
    }
  }

  /** applyTestEmail keeps WellFormed. */
  lemma ApplyKeepsWellFormed(v: View, emailMaybe: string)
    requires WellFormed(v)
    ensures WellFormed(ApplyEmail(v, emailMaybe).0)
  {
    var g := CheckEmail(emailMaybe, v.manualEmail);
    if g.Accepted? {
      BeginStartsAttempt(v.(manualEmail := g.email, emailError := ""), g.email);
    }
  }

  /** A tone change keeps WellFormed. */
  lemma ToneKeepsWellFormed(v: View, tone: string)
    requires WellFormed(v)
    ensures WellFormed(ChangeTone(v, tone))
  {
  }

  /** The host step: the ticket comes from the host when it answered, from the
      query and the closure's manual email otherwise; the override replaces the
      email; the email is sanitized. An empty email ends the attempt as
      'missing' with no profile, no digest and a fresh draft. */
  lemma HostStep(v: View, run: Run, host: Host, q: Query)
    requires run.phase == AwaitHost
    ensures var r := AfterHost(v, run, host, q);
      var t := r.run.ticket;
      && r.view.ticket == t && r.view.clientReady == host.HostFields?
      && t.email == SanitizeEmail(if run.override != "" then run.override
                                  else if host.HostFields? then host.email
                                  else FallbackTicket(q, run.manual).email)
      && (host.HostFields? ==> t.subject == host.subject && t.description == host.description)
      && (!host.HostFields? ==> t.subject == FallbackTicket(q, run.manual).subject
                                && t.description == FallbackTicket(q, run.manual).description)
      && (r.run.phase == Done <==> t.email == "")
      && (r.run.phase == Done ==> r.view.state == Missing && r.view.user.None? && r.view.posts == []
                                  && r.view.reply == GenReply(run.tone, t, None, [])
                                  && r.view.current.None?)
  {
  }

  /** What the rest of an attempt relies on from the host step: the email it
      resolves, and an empty one ending the attempt as 'missing' with nothing
      installed; the tone and the manual email are untouched. */
  lemma HostStepEmail(v: View, run: Run, host: Host, q: Query)
    requires run.phase == AwaitHost
    ensures var r := AfterHost(v, run, host, q);
      && r.view.ticket == r.run.ticket && r.view.tone == v.tone && r.view.manualEmail == v.manualEmail
      && r.run.ticket.email == SanitizeEmail(if run.override != "" then run.override
                                             else if host.HostFields? then host.email
                                             else FallbackTicket(q, run.manual).email)
      && (r.run.phase == Done <==> r.run.ticket.email == "")
      && (r.run.phase == Done ==> r.view.state == Missing && r.view.current.None?)
      && (r.run.phase == AwaitLookup ==> r.view.state == v.state)
      && r.view.aborted == v.aborted
  {
  }

  /** A host step that ends an attempt leaves a Consistent view when the view
      shows the attempt's tone. */
  lemma HostEndConsistent(v: View, run: Run, host: Host, q: Query)
    requires run.phase == AwaitHost && v.tone == run.tone
    ensures var r := AfterHost(v, run, host, q);
      r.run.phase == Done ==> Consistent(r.view)
  {
  }

  /** A lookup ends the attempt silently when its controller was already
      aborted as the exact request went out, or when an abort (or the timer)
      reached a request before its headers: only the finally block's handle
      and environment changes are made. */
  lemma SupersededLookupIsSilent(v: View, run: Run, exact: Fetch, all: Fetch)
    requires run.phase == AwaitLookup
    requires run.signalAborted || FetchUserByEmail(run.ticket.email, exact, all).Cancelled?
    ensures AfterLookup(v, run, exact, all).view == Finally(v, run)
    ensures Finally(v, run).(current := v.current, zafEnv := v.zafEnv) == v
  {
  }

  /** A lookup whose controller was live when the exact request went out: an
      error shows 'error' with its message,
      or "Unknown error" for an empty one, and keeps the profile, digest and
      reply on screen; no profile shows 'notfound'; a profile is stored and the
      attempt goes on to the posts, noting whether the controller is aborted
      by now; an AbortError ends the attempt leaving the state as it was. */
  lemma LookupStep(v: View, run: Run, exact: Fetch, all: Fetch)
    requires run.phase == AwaitLookup && !run.signalAborted
    ensures var r := AfterLookup(v, run, exact, all);
      match FetchUserByEmail(run.ticket.email, exact, all)
      case Failure(m) =>
        && r.view.state == Error && r.view.error == (if m != "" then m else UnknownError)
        && r.view.user == v.user && r.view.posts == v.posts && r.view.reply == v.reply
        && r.run.phase == Done
      case NoMatch =>
        && r.view.state == NotFound && r.view.user.None? && r.view.posts == []
        && r.view.reply == GenReply(run.tone, run.ticket, None, []) && r.run.phase == Done
      case Match(p) =>
        && r.view == v.(user := Some(p)) && r.run.found == Some(p) && r.run.phase == AwaitPosts
        && r.run.signalAborted == (run.id in v.aborted)
      case Cancelled =>
        r.view == Finally(v, run) && r.view.state == v.state && r.run.phase == Done
  {
  }

  /** An attempt that was superseded after its exact request went out still
      acts on the response: a profile is stored and the posts request is
      issued, with a signal that is aborted by now; no profile shows
      'notfound' and an error shows 'error', each releasing abortRef. */
  lemma LateAbortedLookupStillWrites(v: View, run: Run, exact: Fetch, all: Fetch)
    requires run.phase == AwaitLookup && !run.signalAborted && run.id in v.aborted
    ensures var r := AfterLookup(v, run, exact, all);
      var lookup := FetchUserByEmail(run.ticket.email, exact, all);
      && (ExactHit(exact) ==> r.view.user == Some(exact.body.items[0].value)
                              && r.run.phase == AwaitPosts && r.run.signalAborted)
      && (lookup.NoMatch? ==> r.view.state == NotFound && r.view.current.None?)
      && (lookup.Failure? ==> r.view.state == Error && r.view.current.None?)
  {
    LookupStep(v, run, exact, all);
  }

  /** The posts step of an attempt that has been superseded still shows
      'ready' with a draft for its own ticket, and drops whatever controller
      is installed, the newer attempt's included. Its digest is empty when the
      controller was already aborted as the posts request went out; otherwise
      it is the digest of whatever body the request read. */
  lemma StalePostsStepStillWritesReady(v: View, run: Run, posts: PostsOutcome)
    requires run.phase == AwaitPosts && run.id in v.aborted
    ensures var r := AfterPosts(v, run, posts).view;
      && r.state == Ready
      && r.posts == (if !run.signalAborted && posts.PostsBody? then PickLast3Titles(posts.body) else [])
      && (run.signalAborted ==> r.posts == [])
      && r.reply == GenReply(run.tone, run.ticket, run.found, r.posts)
      && r.current.None?
  {
  }

  // ----------------------------------------------------------- interleavings

  /** Attempt A waits for its lookup when attempt B starts (aborting A) and
      gets past its host step. The abort reaches A's pending request, so A's
      lookup fails with an AbortError (`LateAbortedLookupStillWrites` covers
      an abort that comes too late for that), and
      A's finally clears abortRef although it holds B's controller: the page
      still shows 'loading', nothing is installed, a third attempt started now
      does not abort B, and B's lookup goes ahead unhindered (by `LookupStep`,
      its posts request then goes out with a live signal too). */
  lemma StaleFinallyReleasesNewerAttempt(v: View, a: Run, override: string, host: Host, q: Query,
                                         exact: Fetch, all: Fetch, override3: string,
                                         exactB: Fetch, allB: Fetch)
    requires WellFormed(v) && a.phase == AwaitLookup && v.current == Some(a.id)
    requires LookupOutcome(a, exact, all).Cancelled?
    requires SanitizeEmail(override) != ""
    ensures var b := Begin(v, override);
      var h := AfterHost(b.view, b.run, host, q);
      var l := AfterLookup(h.view, a, exact, all);
      var c := Begin(l.view, override3);
      && h.run.phase == AwaitLookup
      && l.view.state == Loading && l.view.current.None?
      && h.run.id !in c.view.aborted
      && !h.run.signalAborted
      && LookupOutcome(h.run, exactB, allB) == FetchUserByEmail(h.run.ticket.email, exactB, allB)
  {
    var b := Begin(v, override);
    BeginStartsAttempt(v, override);
    HostStep(b.view, b.run, host, q);
    var h := AfterHost(b.view, b.run, host, q);
    assert a.id in h.view.aborted;
    assert !h.run.signalAborted;
    var l := AfterLookup(h.view, a, exact, all);
    assert l.view.aborted == h.view.aborted;
    assert h.run.id !in l.view.aborted;
  }

  /** Attempt A waits for the host when attempt B starts (aborting A). The host
      step never looks at the aborted controllers, so when A resolves no email
      it still shows 'missing' and clears abortRef, which holds B's controller,
      while B is still in flight and not aborted. */
  lemma StaleHostStepOverwritesNewer(v: View, a: Run, override: string, host: Host, q: Query)
    requires WellFormed(v) && a.phase == AwaitHost && v.current == Some(a.id)
    requires SanitizeEmail(if a.override != "" then a.override
                           else if host.HostFields? then host.email
                           else FallbackTicket(q, a.manual).email) == ""
    ensures var b := Begin(v, override);
      var r := AfterHost(b.view, a, host, q);
      && a.id in b.view.aborted
      && r.view.state == Missing && r.view.current.None?
      && b.run.id !in r.view.aborted
  {
    var b := Begin(v, override);
    BeginStartsAttempt(v, override);
    HostStepEmail(b.view, a, host, q);
  }

  // ------------------------------------------------------------- whole attempts

  /** An attempt past its host step whose controller is live: the lookup's
      outcome decides the state it ends in, and the ticket, tone and manual
      email stay as they were. */
  lemma ResumeOutcome(h: Step, exact: Fetch, all: Fetch, posts: PostsOutcome)
    requires h.run.phase == AwaitLookup && !h.run.signalAborted && h.run.id !in h.view.aborted
    requires h.view.state == Loading
    ensures var f := Resume(h, exact, all, posts);
      var lookup := FetchUserByEmail(h.run.ticket.email, exact, all);
      && f.current.None? && f.ticket == h.view.ticket
      && f.tone == h.view.tone && f.manualEmail == h.view.manualEmail
      && (f.state == Ready <==> lookup.Match?)
      && (f.state == NotFound <==> lookup.NoMatch?)
      && (f.state == Error <==> lookup.Failure?)
      && (f.state == Loading <==> lookup.Cancelled?)
      && (f.state == Ready ==> f.user == Some(lookup.profile)
                               && f.posts == (if posts.PostsBody? then PickLast3Titles(posts.body) else []))
  {
    LookupStep(h.view, h.run, exact, all);
    var l := AfterLookup(h.view, h.run, exact, all);
    if l.run.phase != Done {
      assert Resume(h, exact, all, posts) == AfterPosts(l.view, l.run, posts).view;
    }
  }

  /** An attempt that runs alone ends with no controller installed and in the
      state its outcomes decide: 'missing' for an empty email, 'ready' with the
      profile and the digest, 'notfound', 'error', or still 'loading' after a
      timeout. */
  lemma SoloAttempt(v: View, override: string, host: Host, q: Query,
                    exact: Fetch, all: Fetch, posts: PostsOutcome)
    requires WellFormed(v)
    ensures var f := Attempt(v, override, host, q, exact, all, posts);
      var em := AttemptEmail(v, override, host, q);
      var lookup := FetchUserByEmail(em, exact, all);
      && f.current.None? && f.ticket.email == em
      && f.tone == v.tone && f.manualEmail == v.manualEmail
      && (f.state == Missing <==> em == "")
      && (f.state == Ready <==> em != "" && lookup.Match?)
      && (f.state == NotFound <==> em != "" && lookup.NoMatch?)
      && (f.state == Error <==> em != "" && lookup.Failure?)
      && (f.state == Loading <==> em != "" && lookup.Cancelled?)
      && (f.state == Ready ==> f.user == Some(lookup.profile)
                               && f.posts == (if posts.PostsBody? then PickLast3Titles(posts.body) else []))
  {
    var b := Begin(v, override);
    BeginStartsAttempt(v, override);
    HostStepEmail(b.view, b.run, host, q);
    var h := AfterHost(b.view, b.run, host, q);
    assert h.run.ticket.email == AttemptEmail(v, override, host, q);
    assert Attempt(v, override, host, q, exact, all, posts) == Resume(h, exact, all, posts);
    if h.run.phase != Done {
      ResumeOutcome(h, exact, all, posts);
    }
  }

  /** A lookup step that ends an attempt whose view shows its own ticket and
      tone leaves a Consistent view. */
  lemma LookupEndConsistent(v: View, run: Run, exact: Fetch, all: Fetch)
    requires run.phase == AwaitLookup && v.state == Loading
    requires v.ticket == run.ticket && v.tone == run.tone && run.ticket.email != ""
    ensures var r := AfterLookup(v, run, exact, all);
      r.run.phase == Done ==> Consistent(r.view)
  {
    var r := AfterLookup(v, run, exact, all);
    if LookupOutcome(run, exact, all).NoMatch? {
      assert r.view.reply == GenReply(run.tone, run.ticket, None, []);
      assert r.view.tone == run.tone && r.view.ticket == run.ticket && r.view.user.None? && r.view.posts == [];
    } else {
      assert r.view.state != NotFound && r.view.state != Ready && r.view.state != Missing;
    }
  }

  /** The posts step of an attempt whose view shows its own ticket, tone and
      profile leaves a Consistent view. */
  lemma PostsEndConsistent(v: View, run: Run, posts: PostsOutcome)
    requires run.phase == AwaitPosts && run.found.Some?
    requires v.ticket == run.ticket && v.tone == run.tone && v.user == run.found && run.ticket.email != ""
    ensures Consistent(AfterPosts(v, run, posts).view)
  {
    var p := AfterPosts(v, run, posts).view;
    assert p.reply == GenReply(run.tone, run.ticket, run.found, p.posts);
    assert p.tone == run.tone && p.ticket == run.ticket && p.user == run.found;
  }

  /** An attempt past its host step whose view shows its own ticket and tone
      leaves a Consistent and WellFormed view. */
  lemma ResumeConsistent(h: Step, exact: Fetch, all: Fetch, posts: PostsOutcome)
    requires h.run.phase == AwaitLookup && WellFormed(h.view)
    requires h.view.ticket == h.run.ticket && h.view.tone == h.run.tone && h.run.ticket.email != ""
    requires h.view.state == Loading
    ensures Consistent(Resume(h, exact, all, posts)) && WellFormed(Resume(h, exact, all, posts))
  {
    LookupStepKeepsWellFormed(h.view, h.run, exact, all);
    LookupEndConsistent(h.view, h.run, exact, all);
    var l := AfterLookup(h.view, h.run, exact, all);
    if l.run.phase != Done {
      assert l.view.ticket == h.view.ticket && l.view.tone == h.view.tone;
      PostsStepKeepsWellFormed(l.view, l.run, posts);
      PostsEndConsistent(l.view, l.run, posts);
      assert Resume(h, exact, all, posts) == AfterPosts(l.view, l.run, posts).view;
    }
  }

  /** What an attempt that runs alone leaves on screen is Consistent, and it
      keeps WellFormed. */
  lemma SoloAttemptConsistent(v: View, override: string, host: Host, q: Query,
                              exact: Fetch, all: Fetch, posts: PostsOutcome)
    requires WellFormed(v)
    ensures Consistent(Attempt(v, override, host, q, exact, all, posts))
    ensures WellFormed(Attempt(v, override, host, q, exact, all, posts))
  {
    var b := Begin(v, override);
    BeginStartsAttempt(v, override);
    HostStepEmail(b.view, b.run, host, q);
    HostEndConsistent(b.view, b.run, host, q);
    HostStepKeepsWellFormed(b.view, b.run, host, q);
    var h := AfterHost(b.view, b.run, host, q);
    if h.run.phase != Done {
      ResumeConsistent(h, exact, all, posts);
    }
  }

  /** The host step sets clientReady and zafEnv from whether the host
      answered; when it ends the attempt, finally then settles zafEnv from the
      closure when the closure saw 'unknown'. */
  lemma HostStepEnv(v: View, run: Run, host: Host, q: Query)
    requires run.phase == AwaitHost
    ensures var r := AfterHost(v, run, host, q);
      && r.view.clientReady == host.HostFields?
      && r.view.zafEnv == (if r.run.phase == Done && run.env == Unknown then (if run.ready then Zaf else Local)
                           else if host.HostFields? then Zaf else Local)
      && r.run.env == run.env && r.run.ready == run.ready
  {
  }

  /** The lookup step keeps clientReady; when it ends the attempt, finally
      settles zafEnv from the closure when the closure saw 'unknown'. */
  lemma LookupStepEnv(v: View, run: Run, exact: Fetch, all: Fetch)
    requires run.phase == AwaitLookup
    ensures var r := AfterLookup(v, run, exact, all);
      && r.view.clientReady == v.clientReady
      && r.view.zafEnv == (if r.run.phase == Done && run.env == Unknown then (if run.ready then Zaf else Local)
                           else v.zafEnv)
      && r.run.env == run.env && r.run.ready == run.ready
  {
  }

  /** The posts step always ends the attempt: finally settles zafEnv from the
      closure when the closure saw 'unknown'. */
  lemma PostsStepEnv(v: View, run: Run, posts: PostsOutcome)
    requires run.phase == AwaitPosts
    ensures var r := AfterPosts(v, run, posts);
      && r.view.clientReady == v.clientReady
      && r.view.zafEnv == (if run.env == Unknown then (if run.ready then Zaf else Local) else v.zafEnv)
  {
  }

  /** The rest of an attempt past its host step keeps clientReady, and leaves
      zafEnv settled from the closure when the closure saw 'unknown'. */
  lemma ResumeEnv(h: Step, exact: Fetch, all: Fetch, posts: PostsOutcome)
    requires h.run.phase == AwaitLookup
    ensures var f := Resume(h, exact, all, posts);
      && f.clientReady == h.view.clientReady
      && f.zafEnv == (if h.run.env == Unknown then (if h.run.ready then Zaf else Local) else h.view.zafEnv)
  {
    LookupStepEnv(h.view, h.run, exact, all);
    var l := AfterLookup(h.view, h.run, exact, all);
    if l.run.phase != Done {
      PostsStepEnv(l.view, l.run, posts);
      assert Resume(h, exact, all, posts) == AfterPosts(l.view, l.run, posts).view;
    }
  }

  /** However an attempt ends, clientReady is whether the host answered, and
      zafEnv is settled by the finally block from the values the attempt's
      closure captured: from the captured clientReady when the closure saw
      'unknown', from the host step otherwise. */
  lemma AttemptSettlesEnvFromClosure(v: View, override: string, host: Host, q: Query,
                                     exact: Fetch, all: Fetch, posts: PostsOutcome)
    ensures var f := Attempt(v, override, host, q, exact, all, posts);
      && f.clientReady == host.HostFields?
      && f.zafEnv == (if v.zafEnv == Unknown then (if v.clientReady then Zaf else Local)
                      else if host.HostFields? then Zaf else Local)
  {
    var b := Begin(v, override);
    assert b.run.env == v.zafEnv && b.run.ready == v.clientReady;
    HostStepEnv(b.view, b.run, host, q);
    var h := AfterHost(b.view, b.run, host, q);
    if h.run.phase != Done {
      ResumeEnv(h, exact, all, posts);
    }
  }

  /** The very first attempt on a page inside the host: it shows the client as
      ready, but its finally block, reading the closure of the first render,
      leaves zafEnv 'local'. */
  lemma FirstHostAttemptEndsLocal(override: string, email: string, subject: string, description: string,
                                  q: Query, exact: Fetch, all: Fetch, posts: PostsOutcome)
    ensures var f := Attempt(Initial(), override, HostFields(email, subject, description), q, exact, all, posts);
      f.clientReady && f.zafEnv == Local
  {
    AttemptSettlesEnvFromClosure(Initial(), override, HostFields(email, subject, description), q, exact, all, posts);
  }

  // ------------------------------------------------------------- applyTestEmail

  /** The gate with no email, neither given nor stored: only the error
      "Please enter a test email" is shown, and no attempt starts. */
  lemma GateRejectsEmpty(v: View, emailMaybe: string)
    requires SanitizeEmail(if emailMaybe != "" then emailMaybe else v.manualEmail) == ""
    ensures ApplyEmail(v, emailMaybe).1.None?
    ensures ApplyEmail(v, emailMaybe).0 == v.(emailError := EnterEmail)
  {
  }

  /** The gate with a malformed email: only the error "Enter a valid email
      address" is shown, and no attempt starts. */
  lemma GateRejectsMalformed(v: View, emailMaybe: string)
    requires var em := SanitizeEmail(if emailMaybe != "" then emailMaybe else v.manualEmail);
      em != "" && !EmailRegex(em)
    ensures ApplyEmail(v, emailMaybe).1.None?
    ensures ApplyEmail(v, emailMaybe).0 == v.(emailError := InvalidEmail)
  {
  }

  /** The gate with a well-formed email: it becomes the manual email, the
      error is cleared and an attempt starts overriding with it, whose closure
      still holds the previous manual email. */
  lemma GateAcceptsWellFormed(v: View, emailMaybe: string)
    requires var em := SanitizeEmail(if emailMaybe != "" then emailMaybe else v.manualEmail);
      em != "" && EmailRegex(em)
    ensures var em := SanitizeEmail(if emailMaybe != "" then emailMaybe else v.manualEmail);
      var r := ApplyEmail(v, emailMaybe);
      && r.1.Some? && r.1.value.override == em && r.1.value.manual == v.manualEmail
      && r.1.value.phase == AwaitHost
      && r.0.manualEmail == em && r.0.emailError == "" && r.0.state == Loading
      && r.0.current == Some(r.1.value.id)
  {
  }

  /** The override, when given, is the email the host step resolves, whatever
      the host or the query hold. */
  lemma OverrideWins(v: View, run: Run, host: Host, q: Query)
    requires run.phase == AwaitHost && run.override != ""
    ensures AfterHost(v, run, host, q).run.ticket.email == SanitizeEmail(run.override)
  {
  }

  /** An accepted email is the one the attempt resolves, whatever the host or
      the query hold: sanitizing it again changes nothing. */
  lemma AcceptedEmailIsResolved(v: View, emailMaybe: string, host: Host, q: Query)
    requires CheckEmail(emailMaybe, v.manualEmail).Accepted?
    ensures var em := CheckEmail(emailMaybe, v.manualEmail).email;
      var r := ApplyEmail(v, emailMaybe);
      && r.1.Some?
      && AfterHost(r.0, r.1.value, host, q).run.ticket.email == em
      && AfterHost(r.0, r.1.value, host, q).run.phase == AwaitLookup
  {
    var em := CheckEmail(emailMaybe, v.manualEmail).email;
    SanitizeIdempotent(if emailMaybe != "" then emailMaybe else v.manualEmail);
    GateAcceptsWellFormed(v, emailMaybe);
    var r := ApplyEmail(v, emailMaybe);
    OverrideWins(r.0, r.1.value, host, q);
  }

  // ------------------------------------------------------------------- tone

  /** Changing the tone changes only the tone and, in a settled state, the
      reply, which is regenerated for the new tone; elsewhere the reply on
      screen is kept. Choosing the same tone twice is choosing it once, and a
      Consistent page stays Consistent. */
  lemma ToneChangeRegenerates(v: View, tone: string)
    ensures var r := ChangeTone(v, tone);
      && r.tone == tone
      && r.(tone := v.tone, reply := v.reply) == v
      && (tone != v.tone && Settled(v.state) ==> r.reply == GenReply(tone, v.ticket, v.user, v.posts))
      && (!Settled(v.state) ==> r.reply == v.reply)
      && ChangeTone(r, tone) == r
      && (Consistent(v) ==> Consistent(r))
  {
  }
}
