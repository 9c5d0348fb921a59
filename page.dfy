// The resolution controller of src/app/page.js: readTicket, applyTestEmail and
// the effect that regenerates the reply when the tone changes.
//
// readTicket is an async function; every `await` hands control back to the
// browser, where another attempt may start. The model cuts it at its awaits:
//
//   Begin       the synchronous prefix (lines 50-58), up to `await loadZAF()`
//   AfterHost   the host fields or their fallback (61-114), up to the lookup
//   AfterLookup the lookup's outcome (116-124, 141-149)
//   AfterPosts  the posts' outcome (127-140, 145-149)
//
// A `Run` carries what one attempt holds across its awaits: its AbortController
// (a number), the override email, the values its closure captured when
// readTicket was created (manualEmail, tone, zafEnv, clientReady) and its
// locals `t` and `found`. The fields of the component are a `View`; each step
// is a function from the View before it to the View after it, and the class
// `Controller` performs the same steps field by field.

module Page {
  import opened JsBuiltins
  import opened Records
  import opened Constants
  import opened Reply
  import opened Api

  /** zafEnv: 'unknown' | 'zaf' | 'local' */
  datatype Env = Unknown | Zaf | Local

  /** state: idle | loading | ready | error | notfound | missing */
  datatype Status = Idle | Loading | Ready | NotFound | Missing | Error

  /** What awaiting loadZAF() and client.get(...) gives: no ZAF client, the
      three ticket fields ("" for a missing one), or a client that throws. */
  datatype Host = NoHost | HostFields(email: string, subject: string, description: string) | HostThrows

  /** The page's query parameters email, subject and description ("" when
      absent or empty). */
  datatype Query = Query(email: string, subject: string, description: string)

  /** How the posts request settles: a parsed body (`None` when it is not an
      array) or an error, an AbortError included. An abort that comes after
      the headers no longer gives an AbortError (see `Fetch`). */
  datatype PostsOutcome = PostsBody(body: Option<seq<Post>>) | PostsError

  /** Where an attempt is suspended. */
  datatype Phase = AwaitHost | AwaitLookup | AwaitPosts | Done

  datatype Run = Run(
    id: nat,               // its AbortController
    override: string,      // overrideEmail ("" when not given)
    manual: string,        // manualEmail, as its closure captured it
    tone: string,          // tone, as captured
    env: Env,              // zafEnv, as captured
    ready: bool,           // clientReady, as captured
    ticket: Ticket,        // the local `t`
    found: Option<Profile>,
    signalAborted: bool,   // its controller was already aborted when it issued
                           // the request it now awaits
    phase: Phase)

  /** The component's state variables, with abortRef.current as `current`; the
      AbortControllers are numbered by `generation` and those whose abort()
      was called are in `aborted`. */
  datatype View = View(
    zafEnv: Env,
    clientReady: bool,
    ticket: Ticket,
    user: Option<Profile>,
    posts: seq<string>,
    state: Status,
    error: string,
    tone: string,
    reply: string,
    manualEmail: string,
    emailError: string,
    current: Option<nat>,
    generation: nat,
    aborted: set<nat>)

  datatype Step = Step(view: View, run: Run)

  const DefaultSubject: string := "Help with my account"
  const DefaultDescription: string := "I have trouble accessing my dashboard and keep seeing a blank page."
  const UnknownError: string := "Unknown error"
  const EnterEmail: string := "Please enter a test email"
  const InvalidEmail: string := "Enter a valid email address"

  /** The initial useState values. */
  function Initial(): View {
    View(Unknown, false, Ticket("", "", ""), None, [], Idle, "", "friendly", "", "", "",
         None, 0, {})
  }

  /** The state the reply is regenerated in when the tone changes. */
  predicate Settled(s: Status) {
    s == Ready || s == NotFound || s == Missing
  }

  // ------------------------------------------------------------- the four steps

  /** Lines 50-58: loading, no error, abort the attempt in flight and install a
      fresh controller. The closure's values are taken from the current View. */
  function Begin(v: View, override: string): Step {
    var id := v.generation;
    var aborted := if v.current.Some? then v.aborted + {v.current.value} else v.aborted;
    Step(v.(state := Loading, error := "", current := Some(id), generation := id + 1, aborted := aborted),
         Run(id, override, v.manualEmail, v.tone, v.zafEnv, v.clientReady, Ticket("", "", ""), None, false, AwaitHost))
  }

  /** Lines 145-149: drop whatever handle abortRef holds, and settle zafEnv when
      the closure still saw 'unknown', from the closure's clientReady. */
  function Finally(v: View, run: Run): View {
    v.(current := None,
       zafEnv := if run.env == Unknown then (if run.ready then Zaf else Local) else v.zafEnv)
  }

  /** Lines 92-101: the ticket read from the query, with manualEmail as the
      email fallback and the fixed texts as the other fallbacks. */
  function FallbackTicket(q: Query, manual: string): Ticket {
    Ticket(if q.email != "" then q.email else manual,
           if q.subject != "" then q.subject else DefaultSubject,
           if q.description != "" then q.description else DefaultDescription)
  }

  /** Lines 61-114: host or fallback ticket, override, sanitize, store; an empty
      email ends the attempt as 'missing'. */
  function AfterHost(v: View, run: Run, host: Host, q: Query): (r: Step)
    requires run.phase == AwaitHost
    ensures r.run.id == run.id && r.run.tone == run.tone
    ensures r.run.phase == Done || r.run.phase == AwaitLookup
    ensures r.run.phase == AwaitLookup ==> r.run.ticket.email != "" && r.view == v.(
      clientReady := host.HostFields?, zafEnv := if host.HostFields? then Zaf else Local, ticket := r.run.ticket)
    ensures r.run.phase == AwaitLookup ==> r.run.signalAborted == (run.id in v.aborted)
  {
    var fromHost := host.HostFields?;
    var t0 := if fromHost then Ticket(host.email, host.subject, host.description) else FallbackTicket(q, run.manual);
    var t := t0.(email := SanitizeEmail(if run.override != "" then run.override else t0.email));
    var v1 := v.(clientReady := fromHost, zafEnv := if fromHost then Zaf else Local, ticket := t);
    if t.email == "" then
      Step(Finally(v1.(user := None, posts := [], reply := GenReply(run.tone, t, None, []), state := Missing), run),
           run.(ticket := t, phase := Done))
    else
      Step(v1, run.(ticket := t, signalAborted := run.id in v.aborted, phase := AwaitLookup))
  }

  /** What `await fetchUserByEmail(...)` settles with. A controller that was
      already aborted when the exact request was issued makes it reject at once
      (src/lib/api.js:10). An abort that comes later gives an AbortError only
      before the request's headers arrive; after them the body is still
      parsed, or a non-2xx status still gives its HTTP error (see `Fetch`).
      Those timings are part of `exact` and `all`,
      which say how each request settled. */
  function LookupOutcome(run: Run, exact: Fetch, all: Fetch): Lookup {
    if run.signalAborted then Cancelled else FetchUserByEmail(run.ticket.email, exact, all)
  }

  /** Lines 116-124 with the catch of 141-144: an AbortError ends the attempt
      silently, another error gives 'error', no profile gives 'notfound', and a
      profile is stored before the posts request. */
  function AfterLookup(v: View, run: Run, exact: Fetch, all: Fetch): (r: Step)
    requires run.phase == AwaitLookup
    ensures r.run.id == run.id && r.run.tone == run.tone && r.run.ticket == run.ticket
    ensures r.run.phase == Done || (r.run.phase == AwaitPosts && r.run.found.Some? && r.view.user == r.run.found)
    ensures r.run.phase == AwaitPosts ==> r.run.signalAborted == (run.id in v.aborted)
  {
    match LookupOutcome(run, exact, all)
    case Cancelled => Step(Finally(v, run), run.(phase := Done))
    case Failure(m) =>
      Step(Finally(v.(error := if m != "" then m else UnknownError, state := Error), run), run.(phase := Done))
    case NoMatch =>
      Step(Finally(v.(user := None, posts := [], reply := GenReply(run.tone, run.ticket, None, []), state := NotFound), run),
           run.(phase := Done))
    case Match(p) =>
      Step(v.(user := Some(p)), run.(found := Some(p), signalAborted := run.id in v.aborted, phase := AwaitPosts))
  }

  /** Lines 127-136: the digest of the posts; an error is caught and gives no
      titles. So is the AbortError of a controller that was already aborted
      when the request was issued; a later abort is part of `outcome`. */
  function PostTitles(run: Run, outcome: PostsOutcome): seq<string> {
    if run.signalAborted then []
    else match outcome
      case PostsBody(b) => PickLast3Titles(b)
      case PostsError => []
  }

  /** Lines 137-140: store the titles and the reply, 'ready', then finally. */
  function AfterPosts(v: View, run: Run, outcome: PostsOutcome): Step
    requires run.phase == AwaitPosts
  {
    var titles := PostTitles(run, outcome);
    Step(Finally(v.(posts := titles, reply := GenReply(run.tone, run.ticket, run.found, titles), state := Ready), run),
         run.(phase := Done))
  }

  /** The gate of applyTestEmail, lines 211-219: the sanitized input, or the
      stored manual email when there is no input, must be non-empty and well
      formed. */
  datatype Gate = Accepted(email: string) | Rejected(message: string)

  function CheckEmail(emailMaybe: string, manual: string): Gate {
    var em := SanitizeEmail(if emailMaybe != "" then emailMaybe else manual);
    if em == "" then Rejected(EnterEmail)
    else if !EmailRegex(em) then Rejected(InvalidEmail)
    else Accepted(em)
  }

  /** applyTestEmail(emailMaybe), lines 210-226: a rejected input only sets the
      email error; an accepted one becomes the manual email, clears the error
      and starts readTicket with it, from a closure created before manualEmail
      changed. */
  function ApplyEmail(v: View, emailMaybe: string): (View, Option<Run>) {
    match CheckEmail(emailMaybe, v.manualEmail)
    case Rejected(m) => (v.(emailError := m), None)
    case Accepted(em) =>
      var s := Begin(v.(manualEmail := em, emailError := ""), em);
      (s.view, Some(s.run.(manual := v.manualEmail)))
  }

  /** setTone(tone) and the effect of lines 160-165, which runs only when the
      tone actually changes. */
  function ChangeTone(v: View, tone: string): View {
    if tone == v.tone then v
    else if Settled(v.state) then v.(tone := tone, reply := GenReply(tone, v.ticket, v.user, v.posts))
    else v.(tone := tone)
  }

  // ----------------------------------------------------------- the controller

  /** The component instance: its state variables and abortRef. */
  class Controller {
    var zafEnv: Env
    var clientReady: bool
    var ticket: Ticket
    var user: Option<Profile>
    var posts: seq<string>
    var state: Status
    var error: string
    var tone: string
    var reply: string
    var manualEmail: string
    var emailError: string
    var current: Option<nat>
    var generation: nat
    var aborted: set<nat>

    function Snapshot(): View
      reads this
    {
      View(zafEnv, clientReady, ticket, user, posts, state, error, tone, reply,
                manualEmail, emailError, current, generation, aborted)
    }

    constructor()
      ensures Snapshot() == Initial()
    {
      zafEnv := Unknown;
      clientReady := false;
      ticket := Ticket("", "", "");
      user := None;
      posts := [];
      state := Idle;
      error := "";
      tone := "friendly";
      reply := "";
      manualEmail := "";
      emailError := "";
      current := None;
      generation := 0;
      aborted := {};
    }

    /** readTicket(overrideEmail), up to its first await. */
    method ReadTicket(override: string) returns (run: Run)
      modifies this
      ensures Snapshot() == Begin(old(Snapshot()), override).view
      ensures run == Begin(old(Snapshot()), override).run
    {
      run := Run(generation, override, manualEmail, tone, zafEnv, clientReady, Ticket("", "", ""), None, false, AwaitHost);
      state, error := Loading, "";
      AbortCurrent();
      current, generation := Some(generation), generation + 1;
    }

    /** abortRef.current.abort(); abortRef.current = null, when there is one. */
    method AbortCurrent()
      modifies this
      ensures Snapshot() == old(Snapshot()).(
        aborted := if old(current).Some? then old(aborted) + {old(current).value} else old(aborted),
        current := None)
    {
      if current.Some? {
        aborted := aborted + {current.value};
      }
      current := None;
    }

    /** The `finally` block. */
    method RunFinally(run: Run)
      modifies this
      ensures Snapshot() == Finally(old(Snapshot()), run)
    {
      current := None;
      if run.env == Unknown {
        zafEnv := if run.ready then Zaf else Local;
      }
    }

    /** setClientReady(ready) and setZafEnv(ready ? 'zaf' : 'local'). */
    method SetEnv(ready: bool)
      modifies this
      ensures Snapshot() == old(Snapshot()).(clientReady := ready, zafEnv := if ready then Zaf else Local)
    {
      clientReady, zafEnv := ready, if ready then Zaf else Local;
    }

    /** setUser, setPosts, setReply and setState of an outcome. */
    method Show(st: Status, u: Option<Profile>, titles: seq<string>, text: string)
      modifies this
      ensures Snapshot() == old(Snapshot()).(user := u, posts := titles, reply := text, state := st)
    {
      user, posts, reply, state := u, titles, text, st;
    }

    /** Resumes an attempt once the host fields are known. */
    method ResumeAfterHost(run: Run, host: Host, q: Query) returns (next: Run)
      requires run.phase == AwaitHost
      modifies this
      ensures Snapshot() == AfterHost(old(Snapshot()), run, host, q).view
      ensures next == AfterHost(old(Snapshot()), run, host, q).run
    {
      var t := if host.HostFields? then Ticket(host.email, host.subject, host.description)
               else FallbackTicket(q, run.manual);
      SetEnv(host.HostFields?);
      if run.override != "" {
        t := t.(email := run.override);
      }
      t := t.(email := SanitizeEmail(t.email));
      ticket := t;
      next := run.(ticket := t, signalAborted := run.id in aborted, phase := AwaitLookup);
      if t.email == "" {
        Show(Missing, None, [], GenReply(run.tone, t, None, []));
        RunFinally(run);
        next := run.(ticket := t, phase := Done);
      }
    }

    /** Resumes an attempt once the lookup has settled. */
    method ResumeAfterLookup(run: Run, exact: Fetch, all: Fetch) returns (next: Run)
      requires run.phase == AwaitLookup
      modifies this
      ensures Snapshot() == AfterLookup(old(Snapshot()), run, exact, all).view
      ensures next == AfterLookup(old(Snapshot()), run, exact, all).run
    {
      var found := if run.signalAborted then Cancelled else FetchUserByEmail(run.ticket.email, exact, all);
      if found.Match? {
        user := Some(found.profile);
        return run.(found := Some(found.profile), signalAborted := run.id in aborted, phase := AwaitPosts);
      }
      if found.Failure? {
        error, state := if found.message != "" then found.message else UnknownError, Error;
      } else if found.NoMatch? {
        Show(NotFound, None, [], GenReply(run.tone, run.ticket, None, []));
      }
      RunFinally(run);
      next := run.(phase := Done);
    }

    /** Resumes an attempt once the posts request has settled. */
    method ResumeAfterPosts(run: Run, outcome: PostsOutcome) returns (next: Run)
      requires run.phase == AwaitPosts
      modifies this
      ensures Snapshot() == AfterPosts(old(Snapshot()), run, outcome).view
      ensures next == AfterPosts(old(Snapshot()), run, outcome).run
    {
      var last3: seq<string> := [];
      if !run.signalAborted && outcome.PostsBody? {
        last3 := PickLast3Titles(outcome.body);
      }
      Show(Ready, user, last3, GenReply(run.tone, run.ticket, run.found, last3));
      RunFinally(run);
      next := run.(phase := Done);
    }

    /** applyTestEmail(emailMaybe): returns the attempt it starts, if any. */
    method ApplyTestEmail(emailMaybe: string) returns (run: Option<Run>)
      modifies this
      ensures Snapshot() == ApplyEmail(old(Snapshot()), emailMaybe).0
      ensures run == ApplyEmail(old(Snapshot()), emailMaybe).1
    {
      var gate := CheckEmail(emailMaybe, manualEmail);
      ghost var v := Snapshot();
      match gate
      case Rejected(m) =>
        assert ApplyEmail(v, emailMaybe) == (v.(emailError := m), None);
        emailError := m;
        run := None;
      case Accepted(em) =>
        ghost var accepted := v.(manualEmail := em, emailError := "");
        assert ApplyEmail(v, emailMaybe).0 == Begin(accepted, em).view;
        assert ApplyEmail(v, emailMaybe).1 == Some(Begin(accepted, em).run.(manual := v.manualEmail));
        var captured := manualEmail;
        SetManualEmail(em);
        var r := ReadTicket(em);
        run := Some(r.(manual := captured));
    }

    /** setManualEmail(em) and setEmailError(''). */
    method SetManualEmail(em: string)
      modifies this
      ensures Snapshot() == old(Snapshot()).(manualEmail := em, emailError := "")
    {
      manualEmail, emailError := em, "";
    }

    /** setTone(newTone) followed by the regeneration effect. */
    method SetTone(newTone: string)
      modifies this
      ensures Snapshot() == ChangeTone(old(Snapshot()), newTone)
    {
      if newTone == tone {
        return;
      }
      tone := newTone;
      if state == Ready || state == NotFound || state == Missing {
        reply := GenReply(tone, ticket, user, posts);
      }
    }
  }
}
