# Zendesk support assistant: ticket resolution and reply drafting, in Dafny

This project models the core of a small Zendesk sidebar app. The app reads the
requester's email, subject and description of the current ticket. It reads them
from the Zendesk App Framework (ZAF) host, or from the page's query string and a
manually entered test email when no host is available. It then looks up the
requester's profile in a users API and fetches the requester's three most recent
posts. Finally it drafts a reply in one of two tones, friendly or concise.

Modules, in dependency order:

- `JsBuiltins`: the JavaScript built-ins the core leans on:
  - the ECMAScript whitespace class `\s`
  - `trimEnd`, `trimStart` and `trim`
  - ASCII `toLowerCase`
  - `Array.prototype.join` and a `split` to read joined text back
- `Strings`: `trim(text, max)` of `src/lib/strings.js`, which shortens text to
  at most `max` characters and ends it with an ellipsis.
- `Constants`: `sanitizeEmail`, `emailRegex` and the preset list `TEST_EMAILS`
  of `src/lib/constants.js`.
- `Records`: the ticket and the parts of a user profile the app reads.
- `Reply`: `pickLast3Titles` and `genReply` of `src/lib/reply.js`.
- `Api`: how `fetchUserByEmail` of `src/lib/api.js` chooses a profile. It first
  tries the exact-filter request, then scans the full list case-insensitively.
  Both requests' outcomes are parameters.
- `QuickPick`: the Prev/Next arithmetic of `src/components/EmailQuickPick.jsx`.
- `Page`: the controller of `src/app/page.js`: `readTicket`, `applyTestEmail`
  and the effect that regenerates the reply when the tone changes.
  - `readTicket` is an async function, so another attempt may start at each of
    its `await`s. The model cuts it at those points: `Begin`, `AfterHost`,
    `AfterLookup`, `AfterPosts`.
  - Each cut is a function from the component's state (a `View`) to the next.
  - A `Run` holds what one attempt carries across its awaits: its
    AbortController, the values its closure captured, and its locals.
  - The class `Controller` holds the component's state variables as fields.
    Its methods perform the same steps in place and are proved equal to the
    step functions.
- `PageProperties`: what the steps guarantee:
  - under any interleaving of attempts: the well-formedness of the abort
    bookkeeping
  - for an attempt that runs alone: the full classification of its outcome and
    the consistency of the screen
  - the behaviour of stale attempts, as the code is written
  - the gate of `applyTestEmail` and tone changes

## Stale and superseded attempts

The model follows the code in each case below, and the lemmas named state what
the code does.

- **Stale attempts still write.** One would expect a superseded attempt's late
  results to be discarded. In the code, the AbortController only makes that
  attempt's pending requests reject with an AbortError, and only until their
  headers arrive. After that, on success fetchJSON's `finally`
  (src/lib/api.js:24-26) unhooks the caller's signal and the body is still
  parsed; on a non-2xx status an aborted `res.text()` is caught as ''
  (src/lib/api.js:20) and the HTTP error is thrown as usual. A request issued with an already
  aborted signal rejects at once (src/lib/api.js:10). The model records, for
  each request an attempt awaits, whether its controller was already aborted
  when the request went out (`Run.signalAborted`); later aborts are part of
  the fetch outcomes given as parameters.
  - An attempt that finds no email after its host step still sets 'missing'
    over a newer attempt (`StaleHostStepOverwritesNewer`).
  - An attempt superseded after its exact request went out still acts on the
    response: it stores the profile, or shows 'notfound' or 'error'
    (`LateAbortedLookupStillWrites`).
  - Its posts step catches any AbortError and still writes 'ready'; the digest
    is empty when the signal was already aborted as the posts request went
    out, and otherwise comes from the body read (`StalePostsStepStillWritesReady`).
  - A lookup is silent only when the abort reached a pending request, or the
    signal was aborted before the exact request went out
    (`SupersededLookupIsSilent`).
- **A stale finally releases a newer attempt.** The `finally` block sets
  `abortRef.current = null` even when it holds a newer attempt's controller.
  A third attempt then cannot abort the second (`StaleFinallyReleasesNewerAttempt`).
- **zafEnv can be reset after the host answered.** The `finally` block reads
  `zafEnv` and `clientReady` from the closure that created the attempt, not
  from the current state. The first attempt inside ZAF sets 'zaf' and then ends
  with `zafEnv` 'local' while `clientReady` is true
  (`FirstHostAttemptEndsLocal`, `AttemptSettlesEnvFromClosure`). The change of
  zafEnv recreates `readTicket`, so the effect at src/app/page.js:152-157 runs
  again, and that new attempt sets 'zaf' once more. The re-run itself is not
  modelled (see below).
- **A cancelled or timed-out lookup leaves the page 'loading'.** A lookup that
  times out rejects with an AbortError. That return is silent, so the page
  stays 'loading' (`SoloAttempt`, `Loading` case).

## Model

| member | source | states |
|---|---|---|
| JsBuiltins.TrimEnd | src/lib/strings.js:4 | the result is a prefix of the input that does not end in whitespace, and every character dropped is whitespace |
| JsBuiltins.TrimStart | src/lib/constants.js:18 | the result is a suffix of the input that does not start with whitespace, and every character dropped is whitespace |
| JsBuiltins.TrimBoth | src/lib/constants.js:18 | no ensures of its own: `trim()` is `trimStart` after `trimEnd`; its effect on a sanitized email is stated by Constants.SanitizeIsRemoveSpaces |
| JsBuiltins.ToLower | src/lib/api.js:40-41 | same length; each ASCII capital becomes its lower-case letter and every other character is kept |
| JsBuiltins.Join | src/lib/reply.js:30 | no ensures of its own: `join(sep)` puts `sep` between neighbours; its value is stated by JsBuiltins.SplitJoin, JsBuiltins.JoinEndsWith and Reply.JoinedFrame |
| JsBuiltins.SplitJoin | src/lib/reply.js:30 | `Join`'s inverse: splitting the joined lines at a one-character separator gives the lines back when no line holds the separator, so joining loses nothing |
| JsBuiltins.JoinEndsWith | src/lib/reply.js:30 | a join of two or more lines ends with the separator followed by the last line |
| Strings.SliceEnd | src/lib/strings.js:4 | the end index of `slice(0, max - 1)` is clamped to the length and is the index itself when in range |
| Strings.Trim | src/lib/strings.js:1-5 | empty text gives ""; text of at most `max` characters is returned unchanged; longer text becomes its first `max - 1` characters, right-trimmed, plus '…', is at most `max` long, and has no whitespace before the ellipsis |
| Constants.RemoveSpaces | src/lib/constants.js:18 | `replace(/\s+/g, '')` leaves no whitespace and never lengthens the text |
| Constants.SanitizeEmail | src/lib/constants.js:18 | a sanitized email holds no whitespace; the empty input gives "" |
| Constants.SanitizeIsRemoveSpaces | src/lib/constants.js:18 | the trailing `.trim()` never changes anything: sanitizing is exactly removing whitespace |
| Constants.RemoveSpacesAppend | src/lib/constants.js:18 | removing whitespace distributes over concatenation |
| Constants.RemoveSpacesFixedPoint | src/lib/constants.js:18 | removing whitespace leaves a string unchanged if and only if it holds no whitespace |
| Constants.SanitizeDropsSpace | src/lib/constants.js:18 | a single whitespace character sanitizes to "" |
| Constants.SanitizeKeepsNonSpace | src/lib/constants.js:18 | a single other character is kept |
| Constants.SanitizeClean | src/lib/constants.js:18 | a string without whitespace is its own sanitized form |
| Constants.SanitizeAroundSpace | src/lib/constants.js:18 | a space between two clean parts is removed and the parts are joined |
| Constants.SanitizeIdempotent | src/lib/constants.js:18 | sanitizing twice is sanitizing once |
| Constants.EmailRegex | src/lib/constants.js:26 | no ensures of its own: the pattern, read literally; what it accepts is stated by Constants.EmailRegexIff and Constants.EmailRegexExactlyOneAt |
| Constants.EmailRegexIff | src/lib/constants.js:26 | the pattern accepts exactly the strings local@domain, where the local part is non-empty, the domain holds a '.' with characters on both sides, and neither part holds whitespace or '@' |
| Constants.EmailRegexExactlyOneAt | src/lib/constants.js:26 | an accepted address holds exactly one '@' |
| Constants.Dedup | src/lib/constants.js:21-23 | `Array.from(new Set(xs))` has no repeated entry and holds exactly the values of `xs` |
| Constants.DedupKeepsFirstOccurrenceOrder | src/lib/constants.js:21-23 | the kept values come in the order of their first occurrences in the input |
| Constants.SanitizeAll | src/lib/constants.js:22 | the mapped list has the same length, and entry i is the sanitized entry i |
| Constants.TestEmails | src/lib/constants.js:5-23 | no ensures of its own: the preset list, deduplicated from the sanitized raw list; stated by Constants.PresetListWellFormed, Constants.TestEmailsNonEmpty and Constants.StraySpaceRemoved |
| Constants.PresetListWellFormed | src/lib/constants.js:21-23 | for any raw list, the presets are sanitized, free of repeats, exactly the sanitized raw values, and in first-occurrence order |
| Constants.TestEmailsNonEmpty | src/lib/constants.js:5-23 | the preset list is not empty, so the Prev/Next arithmetic never divides by zero |
| Constants.StraySpaceRemoved | src/lib/constants.js:12-18 | the raw entry "Telly. Hoeger@billy.biz" sanitizes to "Telly.Hoeger@billy.biz" |
| Reply.Insert | src/lib/reply.js:5 | inserting a post adds exactly one entry |
| Reply.InsertSorted | src/lib/reply.js:5 | inserting into a list sorted by id, descending, keeps it sorted; its head is the new post or the old head |
| Reply.InsertPermutes | src/lib/reply.js:5 | insertion adds exactly the new post to the multiset |
| Reply.SortByIdDesc | src/lib/reply.js:5 | the sort keeps the length |
| Reply.SortByIdDescSorted | src/lib/reply.js:5 | the comparator on ids (a missing id counts as 0) yields a list sorted by id, descending, that is a permutation of the input |
| Reply.WithKeyInsert | src/lib/reply.js:5 | insertion keeps the relative order of posts with the same id |
| Reply.SortByIdDescStable | src/lib/reply.js:5 | the sort is stable: the posts sharing an id keep their input order |
| Reply.Titles | src/lib/reply.js:6 | entry i is the title of post i, or "" when it has none |
| Reply.PickLast3Titles | src/lib/reply.js:3-7 | no ensures of its own: the digest; its value is stated by Reply.PickLast3TitlesSpec and Reply.PickLast3OfFive |
| Reply.PickLast3TitlesSpec | src/lib/reply.js:3-7 | a non-array gives []; otherwise min(3, n) titles of the posts with the largest ids, in descending order of id, with every post left out having an id no larger than the last one kept |
| Reply.InsertSmallest | src/lib/reply.js:5 | a post with an id smaller than all others goes last |
| Reply.SortAscendingIds | src/lib/reply.js:5 | posts with strictly ascending ids sort into their reverse |
| Reply.PickLast3OfFive | src/lib/reply.js:3-7 | for posts with ids 1 to 5, the digest is the titles of posts 5, 4 and 3 |
| Reply.KeepTruthy | src/lib/reply.js:30 | `.filter(Boolean)` keeps only non-empty strings and never lengthens the list |
| Reply.KeepTruthyAppend | src/lib/reply.js:30 | filtering distributes over concatenation |
| Reply.ConciseClosingKept | src/lib/reply.js:24-30 | the filter drops the concise template's empty separator entry and keeps its five closing lines |
| Reply.FriendlyClosingKept | src/lib/reply.js:38-46 | the filter drops the friendly template's two empty separator entries and keeps its six closing lines |
| Reply.ConciseLines | src/lib/reply.js:18-30 | the concise lines are: greeting, thanks, the context line only when the excerpt is non-empty, the account line, then the closing lines |
| Reply.FriendlyLines | src/lib/reply.js:33-46 | every tone other than "concise" gives: greeting, thanks, the note line only when the excerpt is non-empty, the account line, then the closing lines |
| Reply.ReplyLines | src/lib/reply.js:18-46 | no ensures of its own: "concise" picks the concise template and every other tone the friendly one, then `.filter(Boolean)`; the lines are stated by Reply.ConciseLines, Reply.FriendlyLines, Reply.ConciseShape, Reply.FriendlyShape and Reply.ReplyEnds |
| Reply.GenReply | src/lib/reply.js:9-47 | no ensures of its own: genReply, the lines joined by newlines; its value is stated by Reply.ConciseLines, Reply.FriendlyLines, Reply.FallbacksAndClauses and Reply.ReplyTextFrame |
| Reply.FallbacksAndClauses | src/lib/reply.js:10-16 | without a profile: name "there", company "your company" and no city; a profile with an empty name or company name falls back the same way, and a non-empty one is used as it is; an empty subject reads "your request", any other is used as it is; the city clause is " in <city>" when there is a city and empty otherwise; the posts clause is empty exactly when there are no titles and otherwise holds the titles joined by "; " |
| Reply.ExcerptSpec | src/lib/reply.js:14 | the excerpt is empty exactly when the description is, and it is at most 160 characters |
| Reply.ConciseClosingFacts | src/lib/reply.js:24-30 | the concise closing has five lines and ends with "Support" |
| Reply.FriendlyClosingFacts | src/lib/reply.js:38-46 | the friendly closing has six lines and ends with "Support" |
| Reply.ConciseShape | src/lib/reply.js:18-30 | a concise draft has 9 lines with a description and 8 without; it opens with the greeting and ends with "Support" |
| Reply.FriendlyShape | src/lib/reply.js:33-46 | any tone other than "concise" drafts the friendly text: 10 lines with a description and 9 without, opening with the greeting and ending with "Support" |
| Reply.ReplyEnds | src/lib/reply.js:18-46 | every draft has at least 8 lines, opens with the greeting and ends with "Support" |
| Reply.JoinedFrame | src/lib/reply.js:30 | joined text starts with its first line and a newline, and ends with a newline and "Support" |
| Reply.ReplyTextFrame | src/lib/reply.js:9-47 | every draft text starts with "Hi <name>," and a newline, and ends with "\nSupport" |
| Api.FindIndex | src/lib/api.js:41 | the index of the first entry whose lower-cased email equals the query, or -1 when there is none |
| Api.ScanAll | src/lib/api.js:39-42 | no ensures of its own: the full-list tier; stated by Api.ScanMatchIsFirstCaseInsensitive, Api.ScanNoMatch, Api.ScanIgnoresCase and Api.RejectionsPropagate |
| Api.FetchUserByEmail | src/lib/api.js:35-43 | no ensures of its own: the exact tier, then the full-list tier; stated by Api.ExactHitWins, Api.ExactMissFallsThrough, Api.ScanMatchIsFirstCaseInsensitive, Api.ScanNoMatch and Api.RejectionsPropagate |
| Api.ExactHitWins | src/lib/api.js:36-37 | a truthy first entry of the exact-filter result is returned, whatever the full list holds |
| Api.ExactMissFallsThrough | src/lib/api.js:37-39 | a non-array, empty or null-headed exact result falls through to the full-list scan |
| Api.ScanMatchIsFirstCaseInsensitive | src/lib/api.js:39-42 | a profile found by the scan has the query's email up to letter case, and it is the first such entry |
| Api.ScanNoMatch | src/lib/api.js:39-42 | for a non-empty query, the scan gives null exactly when no profile has that email up to case; a null list reads as empty |
| Api.ScanIgnoresCase | src/lib/api.js:40-41 | queries equal up to letter case give the same scan result |
| Api.RejectionsPropagate | src/lib/api.js:35-43 | an AbortError or an HTTP failure in either request rejects the call the same way, unless the exact tier already hit; a truthy non-array list rejects with a TypeError |
| Constants.FirstIndex | src/components/EmailQuickPick.jsx:11 | for a value in the list, the position of its first occurrence: the list holds it there and at no earlier position |
| QuickPick.Idx | src/components/EmailQuickPick.jsx:11 | the first position holding the value when it is a preset, otherwise 0 (`findIndex` gives -1 and `Math.max` makes it 0) |
| QuickPick.IdxOfEntry | src/components/EmailQuickPick.jsx:11 | in a list without repeats, the preset at position k has index k |
| QuickPick.PrevIdx | src/components/EmailQuickPick.jsx:12 | no ensures of its own: `idx <= 0 ? length - 1 : idx - 1`; its range and value are stated by QuickPick.NeighboursInRange, QuickPick.NextAfterPrev and QuickPick.PrevAndNextUndoEachOther |
| QuickPick.NextIdx | src/components/EmailQuickPick.jsx:13 | no ensures of its own: `(idx + 1) % length`; its range and value are stated by QuickPick.NeighboursInRange, QuickPick.PrevAfterNext and QuickPick.PrevAndNextUndoEachOther |
| QuickPick.NeighboursInRange | src/components/EmailQuickPick.jsx:11-13 | both neighbours are valid positions; Next is the index plus one, wrapping from last to first, and Prev is the index minus one, wrapping from first to last; a value that is not a preset has Prev at the last position and Next at position 1 |
| QuickPick.PrevAfterNext | src/components/EmailQuickPick.jsx:12-13 | Prev of the next preset is the current index |
| QuickPick.NextAfterPrev | src/components/EmailQuickPick.jsx:12-13 | Next of the previous preset is the current index |
| QuickPick.OnPrev | src/components/EmailQuickPick.jsx:15-19 | the email applied by Prev is a preset |
| QuickPick.OnNext | src/components/EmailQuickPick.jsx:20-24 | the email applied by Next is a preset |
| QuickPick.PrevAndNextUndoEachOther | src/components/EmailQuickPick.jsx:11-24 | Next then Prev, and Prev then Next, return to the preset shown; from a value that is not a preset, Prev gives the last preset |
| Page.AfterHost | src/app/page.js:61-116 | the host step keeps the attempt's id and tone; it either ends the attempt or awaits the lookup; when it awaits, the email is non-empty, only the env flags and the ticket changed on screen, and the exact request went out with a signal aborted exactly when the attempt's controller already was |
| Page.AfterLookup | src/app/page.js:116-149 | the lookup step keeps the id, tone and ticket; it either ends the attempt, or awaits the posts with the found profile on screen, the posts request going out with a signal aborted exactly when the controller already is |
| Page.Begin | src/app/page.js:49-58 | no ensures of its own: the synchronous prefix of readTicket; stated by PageProperties.BeginStartsAttempt |
| Page.Finally | src/app/page.js:145-149 | no ensures of its own: the `finally` block; its effect is stated by PageProperties.LookupStepEnv, PageProperties.PostsStepEnv, PageProperties.StaleFinallyReleasesNewerAttempt and PageProperties.AttemptSettlesEnvFromClosure |
| Page.FallbackTicket | src/app/page.js:92-101 | no ensures of its own: the ticket read from the query with the manual email and fixed texts as fallbacks; stated by PageProperties.HostStep and PageProperties.HostStepEmail |
| Page.LookupOutcome | src/app/page.js:116 | no ensures of its own: how `await fetchUserByEmail(...)` settles, an AbortError when the signal was already aborted as the exact request went out; stated by PageProperties.SupersededLookupIsSilent, PageProperties.LookupStep and PageProperties.LateAbortedLookupStillWrites |
| Page.PostTitles | src/app/page.js:127-136 | no ensures of its own: the digest of the posts, or no titles when the request fails; stated by PageProperties.StalePostsStepStillWritesReady and PageProperties.SoloAttempt |
| Page.AfterPosts | src/app/page.js:126-149 | no ensures of its own: the titles and the draft are stored and the state set to 'ready', then finally; stated by PageProperties.PostsStepKeepsWellFormed, PageProperties.StalePostsStepStillWritesReady, PageProperties.PostsEndConsistent and PageProperties.PostsStepEnv |
| Page.CheckEmail | src/app/page.js:211-219 | no ensures of its own: the gate of applyTestEmail; stated by PageProperties.GateRejectsEmpty, PageProperties.GateRejectsMalformed and PageProperties.GateAcceptsWellFormed |
| Page.ApplyEmail | src/app/page.js:210-226 | no ensures of its own: applyTestEmail; stated by PageProperties.GateRejectsEmpty, PageProperties.GateRejectsMalformed, PageProperties.GateAcceptsWellFormed, PageProperties.ApplyKeepsWellFormed and PageProperties.AcceptedEmailIsResolved |
| Page.ChangeTone | src/app/page.js:159-165 | no ensures of its own: setTone and the tone effect; stated by PageProperties.ToneChangeRegenerates and PageProperties.ToneKeepsWellFormed |
| Page.Controller.constructor | src/app/page.js:23-38 | the fields start at the initial state values |
| Page.Controller.ReadTicket | src/app/page.js:49-58 | the fields become `Begin` of the old state, and the attempt started is returned |
| Page.Controller.AbortCurrent | src/app/page.js:53-56 | the held controller, if any, is aborted and released; nothing else changes |
| Page.Controller.RunFinally | src/app/page.js:145-149 | the fields become `Finally` of the old state |
| Page.Controller.SetEnv | src/app/page.js:73-89 | only clientReady and zafEnv change, to the host's answer |
| Page.Controller.Show | src/app/page.js:109-112 | only user, posts, reply and state change |
| Page.Controller.ResumeAfterHost | src/app/page.js:61-114 | the fields and the returned attempt are those of `AfterHost` |
| Page.Controller.ResumeAfterLookup | src/app/page.js:116-149 | the fields and the returned attempt are those of `AfterLookup` |
| Page.Controller.ResumeAfterPosts | src/app/page.js:126-149 | the fields and the returned attempt are those of `AfterPosts` |
| Page.Controller.ApplyTestEmail | src/app/page.js:210-226 | the fields and the attempt started, if any, are those of `ApplyEmail` |
| Page.Controller.SetManualEmail | src/app/page.js:221-222 | only manualEmail and emailError change |
| Page.Controller.SetTone | src/app/page.js:159-165 | the fields become `ChangeTone` of the old state |
| PageProperties.BeginStartsAttempt | src/app/page.js:49-58 | starting an attempt sets 'loading', clears the error, aborts the held controller and installs a fresh one that is not aborted; it changes nothing else and keeps the abort bookkeeping well formed |
| PageProperties.HostStepKeepsWellFormed | src/app/page.js:61-114 | the host step keeps the bookkeeping well formed: at most 3 titles, a clean email, and a held controller that is issued and not aborted |
| PageProperties.LookupStepKeepsWellFormed | src/app/page.js:116-149 | the lookup step keeps it well formed |
| PageProperties.PostsStepKeepsWellFormed | src/app/page.js:126-149 | the posts step keeps it well formed |
| PageProperties.ApplyKeepsWellFormed | src/app/page.js:210-226 | applying a test email keeps it well formed |
| PageProperties.ToneKeepsWellFormed | src/app/page.js:159-165 | a tone change keeps it well formed |
| PageProperties.HostStep | src/app/page.js:61-114 | the ticket comes from the host or else from the query and the manual email; the override replaces the email, which is then sanitized; the attempt ends exactly when that email is empty, and then it shows 'missing' with no profile, no titles and the draft for no profile |
| PageProperties.HostStepEmail | src/app/page.js:92-114 | the resolved email is the override, else the host's, else the query's, else the manual email, sanitized; 'missing' exactly when it is empty; the abort set is unchanged |
| PageProperties.HostEndConsistent | src/app/page.js:103-114 | the 'missing' screen is consistent: the reply is the draft of what is shown |
| PageProperties.SupersededLookupIsSilent | src/app/page.js:141-149 | a lookup whose signal was aborted before the exact request went out, or that rejects with an AbortError, changes nothing but abortRef and the env flag |
| PageProperties.LookupStep | src/app/page.js:116-149 | a lookup whose exact request went out with a live signal gives 'error' with the message or "Unknown error", 'notfound' with the draft for no profile, the profile on screen before the posts request (whose signal is aborted exactly when the controller is by now), or a silent end on an AbortError |
| PageProperties.LateAbortedLookupStillWrites | src/app/page.js:116-144 | an attempt superseded after its exact request went out still stores an exact hit and goes on to the posts, or shows 'notfound' or 'error', releasing abortRef |
| PageProperties.StalePostsStepStillWritesReady | src/app/page.js:126-149 | a superseded attempt's posts step still writes 'ready' with its draft and releases abortRef; its digest is empty when the signal was aborted as the posts request went out, and otherwise is the digest of the body read |
| PageProperties.StaleFinallyReleasesNewerAttempt | src/app/page.js:145-149 | when a newer attempt's abort reaches an older attempt's lookup, the older attempt's finally releases abortRef while the newer attempt is in flight; a third attempt cannot abort it, and its lookup proceeds with a live signal |
| PageProperties.StaleHostStepOverwritesNewer | src/app/page.js:103-114 | an aborted attempt with no email still sets 'missing' and releases the newer attempt's controller |
| PageProperties.ResumeOutcome | src/app/page.js:116-149 | from a lookup issued with a live signal by a controller still live, on a loading screen, the end state is 'ready', 'notfound', 'error' or 'loading' exactly as the lookup matched, found nothing, failed or was cancelled |
| PageProperties.SoloAttempt | src/app/page.js:49-149 | an attempt that runs alone ends with the resolved email on screen and abortRef released; it ends 'missing' exactly when the email is empty, and otherwise 'ready', 'notfound', 'error' or 'loading' exactly as the lookup went; 'ready' shows the profile and the digest of the posts |
| PageProperties.LookupEndConsistent | src/app/page.js:116-124 | a lookup that ends the attempt leaves a consistent screen |
| PageProperties.PostsEndConsistent | src/app/page.js:126-140 | the 'ready' screen is consistent |
| PageProperties.ResumeConsistent | src/app/page.js:116-149 | everything after the host step leaves a consistent, well-formed screen |
| PageProperties.SoloAttemptConsistent | src/app/page.js:49-149 | an attempt that runs alone leaves a consistent, well-formed screen: a settled reply is the draft of what is shown, and 'missing', 'notfound' and 'ready' agree with the email and profile |
| PageProperties.HostStepEnv | src/app/page.js:61-90 | clientReady is whether the host answered; zafEnv follows it, unless the attempt ends and its closure saw 'unknown' |
| PageProperties.LookupStepEnv | src/app/page.js:141-149 | an ending lookup settles zafEnv from the closure's flags when the closure saw 'unknown' |
| PageProperties.PostsStepEnv | src/app/page.js:145-149 | the posts step settles zafEnv the same way |
| PageProperties.ResumeEnv | src/app/page.js:145-149 | after the host step, zafEnv ends as the closure decides whenever the closure saw 'unknown' |
| PageProperties.AttemptSettlesEnvFromClosure | src/app/page.js:61-150 | after a solo attempt, clientReady is whether the host answered, and zafEnv comes from the closure's clientReady whenever the closure saw 'unknown' |
| PageProperties.FirstHostAttemptEndsLocal | src/app/page.js:61-150 | the first attempt, with a host that answers, ends with clientReady true and zafEnv 'local' |
| PageProperties.GateRejectsEmpty | src/app/page.js:211-215 | an input that sanitizes to "" only sets "Please enter a test email" and starts nothing |
| PageProperties.GateRejectsMalformed | src/app/page.js:216-219 | an input the pattern rejects only sets "Enter a valid email address" and starts nothing |
| PageProperties.GateAcceptsWellFormed | src/app/page.js:210-226 | an accepted input becomes the manual email, clears the error, and starts a loading attempt with it as override, from a closure holding the previous manual email |
| PageProperties.OverrideWins | src/app/page.js:103-104 | a non-empty override is the resolved email, sanitized |
| PageProperties.AcceptedEmailIsResolved | src/app/page.js:210-226 | the attempt started by an accepted email looks up exactly that email |
| PageProperties.ToneChangeRegenerates | src/app/page.js:159-165 | a tone change changes only the tone and the reply; a settled screen gets the draft in the new tone, any other keeps its reply; repeating it changes nothing, and a consistent screen stays consistent |

## Left out

- `fetchJSON` (src/lib/api.js:3-28): the URLs, headers, signal wiring, JSON
  parsing and timer are not modelled. Its outcomes are parameters: a body, an
  error with a message, or an AbortError. A timeout is an AbortError, as in the
  code.
- Abort timing: when an abort or the timer fires during a request is not
  modelled as a time. It shows only in how each request settles (the `Fetch`
  and `PostsOutcome` parameters), apart from a signal that was already
  aborted when the request went out, which the model decides from the state.
- `loadZAF` and the ZAF client: they are the `Host` parameter. A client that is
  missing, one that answers, and one that throws are the three cases. A field
  the host leaves out reads as "".
- The query string (`URLSearchParams`): it is the `Query` parameter, with ""
  for an absent or empty value.
- React's effects:
  - The effect at src/app/page.js:152-157 calls `readTicket` on mount and again
    whenever `readTicket` is recreated, which its dependency list (line 150)
    causes on every change of manualEmail, tone, zafEnv or clientReady. The
    model exposes `Begin` for any such call but does not schedule these
    re-runs.
  - The effect's cleanup (src/app/page.js:154-156) aborts the held controller
    before every re-run of the effect and on unmount. It is not modelled; a
    re-run's own `Begin` aborts the held controller in the same way.
- Render batching: each `set…` call is taken as applied at once. The component
  reads no state between the calls of one step, so the end of each step is the
  same.
- localStorage (src/app/page.js:41-46 and 220), the toast (223), the clipboard,
  the keyboard shortcuts (186-197) and the rendered components are
  presentation.
- `runAll` in src/components/EmailQuickPick.jsx (26 onward) applies every
  preset in turn, with timed waits. It is a loop of `applyTestEmail` calls
  already modelled one by one.
- The full value of TEST_EMAILS: the model states its construction for any raw
  list, that it is non-empty, and how the entry with a stray space is cleaned.
  It does not compute the ten final entries.
- JsBuiltins.ToLower: lower-cases ASCII letters only. `toLowerCase` also maps
  other Unicode letters.
- Strings.Trim: counts characters, where JavaScript counts UTF-16 code units.
  The two differ only outside the Basic Multilingual Plane.
- Reply.SortByIdDesc: ids are integers or absent. `Number(id)` of a
  non-numeric id (NaN) is not modelled.
- Reply.PickLast3Titles: posts are records. A null entry in the posts array
  makes the comparator throw a TypeError. The page catches that into no
  titles (src/app/page.js:134-135), the same as the `PostsError` outcome.
- Api.FetchUserByEmail: list entries are profiles or null. Other non-object
  entries are not modelled. The TypeError message for a non-array list is the
  V8 wording.
- PageProperties.SoloAttempt: the full classification and consistency are
  stated for an attempt that runs alone. For interleaved attempts the model
  states well-formedness and the stale-attempt lemmas above.
- The draft's exact text is the template functions of `Reply`. The lemmas state
  its structure (lines, order, fallbacks, frame) rather than repeating each
  literal.
