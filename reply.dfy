// src/lib/reply.js: the activity digest (pickLast3Titles) and the reply draft
// (genReply), both pure.

module Reply {
  import opened JsBuiltins
  import opened Strings
  import opened Records

  // ------------------------------------------------------------- pickLast3Titles

  /** One entry of the posts endpoint; `id` and `title` may be missing. */
  datatype Post = Post(id: Option<int>, title: Option<string>)

  /** Number(p.id || 0): a missing id sorts as 0. */
  function Key(p: Post): int {
    match p.id
    case Some(n) => n
    case None => 0
  }

  /** p.title || '' */
  function TitleOf(p: Post): string {
    match p.title
    case Some(t) => t
    case None => ""
  }

  predicate SortedDesc(ps: seq<Post>) {
    forall i, j :: 0 <= i < j < |ps| ==> Key(ps[i]) >= Key(ps[j])
  }

  /** Places `p` in front of the first entry whose key is not greater than its
      own, so that it stays ahead of the entries with an equal key. */
  function Insert(p: Post, sorted: seq<Post>): (r: seq<Post>)
    ensures |r| == |sorted| + 1
    decreases |sorted|
  {
    if sorted == [] || Key(sorted[0]) <= Key(p) then [p] + sorted
    else [sorted[0]] + Insert(p, sorted[1..])
  }

  /** Inserting into a sorted list keeps it sorted, and the new head is either
      the inserted entry or the old head. */
  lemma {:induction false} InsertSorted(p: Post, sorted: seq<Post>)
    requires SortedDesc(sorted)
    ensures SortedDesc(Insert(p, sorted))
    ensures Insert(p, sorted)[0] == p || (sorted != [] && Insert(p, sorted)[0] == sorted[0])
    decreases |sorted|
  {
    if sorted != [] && Key(sorted[0]) > Key(p) {
      InsertSorted(p, sorted[1..]);
      var rest := Insert(p, sorted[1..]);
      assert Insert(p, sorted) == [sorted[0]] + rest;
      assert Key(rest[0]) <= Key(sorted[0]);
    }
  }

  /** Inserting adds exactly the one entry. */
  lemma {:induction false} InsertPermutes(p: Post, sorted: seq<Post>)
    ensures multiset(Insert(p, sorted)) == multiset(sorted) + multiset{p}
    decreases |sorted|
  {
    if sorted != [] && Key(sorted[0]) > Key(p) {
      InsertPermutes(p, sorted[1..]);
      assert sorted == [sorted[0]] + sorted[1..];
    }
  }

  /** `[...posts].sort((a, b) => Number(b.id || 0) - Number(a.id || 0))`: the
      comparator orders by descending key, and Array.prototype.sort is stable. */
  function SortByIdDesc(ps: seq<Post>): (r: seq<Post>)
    ensures |r| == |ps|
    decreases |ps|
  {
    if ps == [] then [] else Insert(ps[0], SortByIdDesc(ps[1..]))
  }

  /** The sort orders by descending key and is a permutation of its input. */
  lemma {:induction false} SortByIdDescSorted(ps: seq<Post>)
    ensures SortedDesc(SortByIdDesc(ps))
    ensures multiset(SortByIdDesc(ps)) == multiset(ps)
    decreases |ps|
  {
    if ps != [] {
      SortByIdDescSorted(ps[1..]);
      InsertSorted(ps[0], SortByIdDesc(ps[1..]));
      InsertPermutes(ps[0], SortByIdDesc(ps[1..]));
      assert ps == [ps[0]] + ps[1..];
    }
  }

  /** The entries of `ps` with key `k`, in their order. */
  function WithKey(ps: seq<Post>, k: int): seq<Post>
    decreases |ps|
  {
    if ps == [] then [] else (if Key(ps[0]) == k then [ps[0]] else []) + WithKey(ps[1..], k)
  }

  lemma WithKeyCons(x: Post, rest: seq<Post>, k: int)
    ensures WithKey([x] + rest, k) == (if Key(x) == k then [x] else []) + WithKey(rest, k)
  {
    assert ([x] + rest)[1..] == rest;
  }

  lemma {:induction false} WithKeyInsert(p: Post, sorted: seq<Post>, k: int)
    ensures WithKey(Insert(p, sorted), k) ==
      (if Key(p) == k then [p] else []) + WithKey(sorted, k)
    decreases |sorted|
  {
    if sorted == [] || Key(sorted[0]) <= Key(p) {
      assert Insert(p, sorted) == [p] + sorted;
      WithKeyCons(p, sorted, k);
    } else {
      var rest := Insert(p, sorted[1..]);
      assert Insert(p, sorted) == [sorted[0]] + rest;
      WithKeyInsert(p, sorted[1..], k);
      WithKeyCons(sorted[0], rest, k);
      WithKeyCons(sorted[0], sorted[1..], k);
      assert [sorted[0]] + sorted[1..] == sorted;
    }
  }

  /** The sort is stable: entries with equal ids keep their relative order. */
  lemma {:induction false} SortByIdDescStable(ps: seq<Post>, k: int)
    ensures WithKey(SortByIdDesc(ps), k) == WithKey(ps, k)
    decreases |ps|
  {
    if ps != [] {
      SortByIdDescStable(ps[1..], k);
      WithKeyInsert(ps[0], SortByIdDesc(ps[1..]), k);
      WithKeyCons(ps[0], ps[1..], k);
      assert ps == [ps[0]] + ps[1..];
    }
  }

  /** `.map((p) => p.title || '')` */
  function Titles(ps: seq<Post>): (r: seq<string>)
    ensures |r| == |ps|
    ensures forall i :: 0 <= i < |ps| ==> r[i] == TitleOf(ps[i])
  {
    seq(|ps|, i requires 0 <= i < |ps| => TitleOf(ps[i]))
  }

  /** pickLast3Titles(posts); `None` is a response that is not an array. */
  function PickLast3Titles(posts: Option<seq<Post>>): seq<string> {
    match posts
    case None => []
    case Some(ps) =>
      var sorted := SortByIdDesc(ps);
      Titles(sorted[..if |sorted| < 3 then |sorted| else 3])
  }

  /** The digest holds min(3, |posts|) titles, taken from the posts with the
      largest ids in descending order of id, every other post having an id no
      larger than the last one kept; a non-array gives no titles. */
  lemma PickLast3TitlesSpec(posts: Option<seq<Post>>)
    ensures posts.None? ==> PickLast3Titles(posts) == []
    ensures posts.Some? ==>
      var ps := posts.value;
      var r := PickLast3Titles(posts);
      var sorted := SortByIdDesc(ps);
      |r| == (if |ps| < 3 then |ps| else 3)
      && multiset(sorted) == multiset(ps)
      && (forall i :: 0 <= i < |r| ==> r[i] == TitleOf(sorted[i]))
      && (forall i, j :: 0 <= i < j < |r| ==> Key(sorted[i]) >= Key(sorted[j]))
      && (forall j :: 0 < |r| <= j < |sorted| ==> Key(sorted[j]) <= Key(sorted[|r| - 1]))
  {
    if posts.Some? {
      SortByIdDescSorted(posts.value);
    }
  }

  /** An entry whose id is below every id already sorted goes to the end. */
  lemma {:induction false} InsertSmallest(p: Post, sorted: seq<Post>)
    requires forall i :: 0 <= i < |sorted| ==> Key(sorted[i]) > Key(p)
    ensures Insert(p, sorted) == sorted + [p]
    decreases |sorted|
  {
    if sorted != [] {
      InsertSmallest(p, sorted[1..]);
      assert sorted == [sorted[0]] + sorted[1..];
    }
  }

  function Reversed(ps: seq<Post>): (r: seq<Post>)
    ensures |r| == |ps|
    ensures forall i :: 0 <= i < |ps| ==> r[i] == ps[|ps| - 1 - i]
    decreases |ps|
  {
    if ps == [] then [] else Reversed(ps[1..]) + [ps[0]]
  }

  /** Posts listed in strictly ascending id order come out reversed. */
  lemma {:induction false} SortAscendingIds(ps: seq<Post>)
    requires forall i, j :: 0 <= i < j < |ps| ==> Key(ps[i]) < Key(ps[j])
    ensures SortByIdDesc(ps) == Reversed(ps)
    decreases |ps|
  {
    if ps != [] {
      SortAscendingIds(ps[1..]);
      InsertSmallest(ps[0], Reversed(ps[1..]));
    }
  }

  /** With ids 1 to 5 the digest is the titles of posts 5, 4 and 3. */
  lemma PickLast3OfFive(ps: seq<Post>)
    requires |ps| == 5
    requires forall i :: 0 <= i < 5 ==> ps[i].id == Some(i + 1)
    ensures PickLast3Titles(Some(ps)) == [TitleOf(ps[4]), TitleOf(ps[3]), TitleOf(ps[2])]
  {
    SortAscendingIds(ps);
  }

  // --------------------------------------------------------------------- genReply

  /** user?.name || 'there' */
  function Name(user: Option<Profile>): string {
    if user.Some? && user.value.name != "" then user.value.name else "there"
  }

  /** user?.company?.name || 'your company' */
  function Company(user: Option<Profile>): string {
    if user.Some? && user.value.companyName != "" then user.value.companyName else "your company"
  }

  /** user?.address?.city || '' */
  function City(user: Option<Profile>): string {
    if user.Some? then user.value.city else ""
  }

  /** ticket?.subject || 'your request' */
  function Subject(t: Ticket): string {
    if t.subject != "" then t.subject else "your request"
  }

  /** trim(ticket?.description || '', 160) */
  function Excerpt(t: Ticket): string {
    Trim(t.description, 160)
  }

  /** ` in <city>` when there is a city, nothing otherwise. */
  function CityClause(city: string): string {
    if city != "" then " in " + city else ""
  }

  /** The sentence about recent posts, present only when there are titles. */
  function PostsClause(titles: seq<string>): string {
    if |titles| > 0 then " I also glanced at your recent posts (" + Join(titles, "; ") + ")." else ""
  }

  /** The greeting both templates open with. */
  function Greeting(user: Option<Profile>): string {
    "Hi " + Name(user) + ","
  }

  function ConciseThanks(t: Ticket): string {
    "Thanks for contacting us about \"" + Subject(t) + "\"."
  }

  function ConciseContext(excerpt: string): string {
    "Context noted: " + excerpt
  }

  function ConciseAccount(user: Option<Profile>, titles: seq<string>): string {
    "I\U{2019}ve reviewed your account for " + Company(user) + CityClause(City(user)) + "." + PostsClause(titles)
  }

  /** The fixed entries that close the concise template, its empty separator
      entry included. */
  const ConciseClosing: seq<Option<string>> :=
    [ Some("Next steps:"),
      Some("\U{2022} I can clarify the issue and propose a fix."),
      Some("\U{2022} Please confirm any extra details or screenshots."),
      Some(""),
      Some("Best,"),
      Some("Support") ]

  /** The concise template's array literal; `None` is an `undefined` entry. */
  function ConciseTemplate(t: Ticket, user: Option<Profile>, titles: seq<string>): seq<Option<string>> {
    var excerpt := Excerpt(t);
    [ Some(Greeting(user)),
      Some(ConciseThanks(t)),
      if excerpt != "" then Some(ConciseContext(excerpt)) else None,
      Some(ConciseAccount(user, titles)) ]
    + ConciseClosing
  }

  function FriendlyThanks(t: Ticket): string {
    "Thanks so much for reaching out about \U{201C}" + Subject(t) + "\U{201D}."
  }

  function FriendlyContext(excerpt: string): string {
    "I read your note: " + excerpt
  }

  function FriendlyAccount(user: Option<Profile>, titles: seq<string>): string {
    "I took a quick look at your " + Company(user) + " account" + CityClause(City(user)) + "." + PostsClause(titles)
  }

  /** The fixed entries that close the friendly template, with its two empty
      separator entries. */
  const FriendlyClosing: seq<Option<string>> :=
    [ Some("Here\U{2019}s what I can do next:"),
      Some("\U{2022} Review the details and suggest the quickest fix"),
      Some("\U{2022} Share clear steps or make changes on your behalf if needed"),
      Some(""),
      Some("If you can, please confirm any extra context or screenshots so I can move faster."),
      Some(""),
      Some("Warm regards,"),
      Some("Support") ]

  /** The friendly template's array literal. */
  function FriendlyTemplate(t: Ticket, user: Option<Profile>, titles: seq<string>): seq<Option<string>> {
    var excerpt := Excerpt(t);
    [ Some(Greeting(user)),
      Some(FriendlyThanks(t)),
      if excerpt != "" then Some(FriendlyContext(excerpt)) else None,
      Some(FriendlyAccount(user, titles)) ]
    + FriendlyClosing
  }

  /** `.filter(Boolean)` on an array of strings and `undefined`s: keeps the
      non-empty strings, in order. */
  function KeepTruthy(xs: seq<Option<string>>): (r: seq<string>)
    ensures |r| <= |xs|
    ensures forall i :: 0 <= i < |r| ==> r[i] != ""
    decreases |xs|
  {
    if xs == [] then []
    else (if xs[0].Some? && xs[0].value != "" then [xs[0].value] else []) + KeepTruthy(xs[1..])
  }

  /** The lines of the draft: `tone === 'concise'` picks the concise template,
      every other tone (the default 'friendly' included) the friendly one. */
  function ReplyLines(tone: string, t: Ticket, user: Option<Profile>, titles: seq<string>): seq<string> {
    KeepTruthy(if tone == "concise" then ConciseTemplate(t, user, titles) else FriendlyTemplate(t, user, titles))
  }

  /** genReply({ tone, ticket, user, posts }) */
  function GenReply(tone: string, t: Ticket, user: Option<Profile>, titles: seq<string>): string {
    Join(ReplyLines(tone, t, user, titles), "\n")
  }

  // ------------------------------------------------------------ genReply lemmas

  lemma {:induction false} KeepTruthyAppend(xs: seq<Option<string>>, ys: seq<Option<string>>)
    ensures KeepTruthy(xs + ys) == KeepTruthy(xs) + KeepTruthy(ys)
    decreases |xs|
  {
    if xs == [] {
      assert xs + ys == ys;
    } else {
      assert (xs + ys)[1..] == xs[1..] + ys;
      KeepTruthyAppend(xs[1..], ys);
    }
  }

  /** The four leading entries of either template: the optional third one is
      dropped when it is `undefined`, the others are kept. */
  lemma KeepTruthyHead(a: string, b: string, c: Option<string>, d: string)
    requires a != "" && b != "" && d != "" && (c.Some? ==> c.value != "")
    ensures KeepTruthy([Some(a), Some(b), c, Some(d)]) == [a, b] + (if c.Some? then [c.value] else []) + [d]
  {
    var cs := if c.Some? then [c.value] else [];
    assert [Some(d)][1..] == [];
    assert KeepTruthy([Some(d)]) == [d];
    assert [c, Some(d)][1..] == [Some(d)];
    assert KeepTruthy([c, Some(d)]) == cs + [d];
    assert [Some(b), c, Some(d)][1..] == [c, Some(d)];
    assert KeepTruthy([Some(b), c, Some(d)]) == [b] + cs + [d];
    assert [Some(a), Some(b), c, Some(d)][1..] == [Some(b), c, Some(d)];
  }

  /** The concise closing loses its empty separator entry. */
  lemma ConciseClosingKept()
    ensures KeepTruthy(ConciseClosing) ==
      ["Next steps:",
       "\U{2022} I can clarify the issue and propose a fix.",
       "\U{2022} Please confirm any extra details or screenshots.",
       "Best,",
       "Support"]
  {
  }

  /** The friendly closing loses both empty separator entries. */
  lemma FriendlyClosingKept()
    ensures KeepTruthy(FriendlyClosing) ==
      ["Here\U{2019}s what I can do next:",
       "\U{2022} Review the details and suggest the quickest fix",
       "\U{2022} Share clear steps or make changes on your behalf if needed",
       "If you can, please confirm any extra context or screenshots so I can move faster.",
       "Warm regards,",
       "Support"]
  {
  }

  /** The concise draft: greeting, subject line, the context line only when the
      excerpt is not empty, account line, then the kept closing lines. */
  lemma ConciseLines(t: Ticket, user: Option<Profile>, titles: seq<string>)
    ensures ReplyLines("concise", t, user, titles) ==
      [Greeting(user), ConciseThanks(t)]
      + (if Excerpt(t) != "" then [ConciseContext(Excerpt(t))] else [])
      + [ConciseAccount(user, titles)]
      + KeepTruthy(ConciseClosing)
  {
    var xs := ConciseTemplate(t, user, titles);
    assert xs == xs[..4] + ConciseClosing;
    KeepTruthyAppend(xs[..4], ConciseClosing);
    var excerpt := Excerpt(t);
    KeepTruthyHead(Greeting(user), ConciseThanks(t),
      if excerpt != "" then Some(ConciseContext(excerpt)) else None, ConciseAccount(user, titles));
  }

  /** The friendly draft, which every tone other than 'concise' gets. */
  lemma FriendlyLines(tone: string, t: Ticket, user: Option<Profile>, titles: seq<string>)
    requires tone != "concise"
    ensures ReplyLines(tone, t, user, titles) ==
      [Greeting(user), FriendlyThanks(t)]
      + (if Excerpt(t) != "" then [FriendlyContext(Excerpt(t))] else [])
      + [FriendlyAccount(user, titles)]
      + KeepTruthy(FriendlyClosing)
  {
    var xs := FriendlyTemplate(t, user, titles);
    assert xs == xs[..4] + FriendlyClosing;
    KeepTruthyAppend(xs[..4], FriendlyClosing);
    var excerpt := Excerpt(t);
    KeepTruthyHead(Greeting(user), FriendlyThanks(t),
      if excerpt != "" then Some(FriendlyContext(excerpt)) else None, FriendlyAccount(user, titles));
  }

  /** The fallbacks for an absent profile or an empty field, and the two
      optional clauses: the city
      clause is there exactly when there is a city, the posts clause exactly
      when there are titles, and it lists them joined by "; ". */
  lemma FallbacksAndClauses(t: Ticket, user: Option<Profile>, titles: seq<string>)
    ensures user.None? ==> Name(user) == "there" && Company(user) == "your company" && City(user) == ""
    ensures user.Some? && user.value.name == "" ==> Name(user) == "there"
    ensures user.Some? && user.value.name != "" ==> Name(user) == user.value.name
    ensures user.Some? && user.value.companyName == "" ==> Company(user) == "your company"
    ensures user.Some? && user.value.companyName != "" ==> Company(user) == user.value.companyName
    ensures t.subject == "" ==> Subject(t) == "your request"
    ensures t.subject != "" ==> Subject(t) == t.subject
    ensures CityClause(City(user)) == "" <==> City(user) == ""
    ensures City(user) != "" ==> CityClause(City(user)) == " in " + City(user)
    ensures PostsClause(titles) == "" <==> titles == []
    ensures titles != [] ==>
      var p := " I also glanced at your recent posts (";
      var joined := Join(titles, "; ");
      |PostsClause(titles)| == |p| + |joined| + 2 && PostsClause(titles)[|p|..|p| + |joined|] == joined
  {
  }

  /** The excerpt is empty exactly when the description is, and never longer
      than 160 characters. */
  lemma ExcerptSpec(t: Ticket)
    ensures Excerpt(t) == "" <==> t.description == ""
    ensures |Excerpt(t)| <= 160
  {
  }

  /** The concise closing keeps five lines, "Support" last. */
  lemma ConciseClosingFacts()
    ensures |KeepTruthy(ConciseClosing)| == 5 && KeepTruthy(ConciseClosing)[4] == "Support"
  {
  }

  /** The friendly closing keeps six lines, "Support" last. */
  lemma FriendlyClosingFacts()
    ensures |KeepTruthy(FriendlyClosing)| == 6 && KeepTruthy(FriendlyClosing)[5] == "Support"
  {
    FriendlyClosingKept();
  }

  /** The concise draft has eight lines, nine with a description; it opens
      with the greeting, its third line is the context line exactly when there
      is a description, and it closes with "Support". */
  lemma ConciseShape(t: Ticket, user: Option<Profile>, titles: seq<string>)
    ensures var lines := ReplyLines("concise", t, user, titles);
      && |lines| == (if t.description != "" then 9 else 8)
      && lines[0] == Greeting(user)
      && lines[2] == (if t.description != "" then ConciseContext(Excerpt(t)) else ConciseAccount(user, titles))
      && lines[|lines| - 1] == "Support"
  {
    ExcerptSpec(t);
    ConciseLines(t, user, titles);
    ConciseClosingFacts();
  }

  /** Any tone but 'concise' gives the friendly draft: nine lines, ten with a
      description, opening with the greeting and closing with "Support". */
  lemma FriendlyShape(tone: string, t: Ticket, user: Option<Profile>, titles: seq<string>)
    requires tone != "concise"
    ensures var lines := ReplyLines(tone, t, user, titles);
      && lines == ReplyLines("friendly", t, user, titles)
      && |lines| == (if t.description != "" then 10 else 9)
      && lines[0] == Greeting(user)
      && lines[2] == (if t.description != "" then FriendlyContext(Excerpt(t)) else FriendlyAccount(user, titles))
      && lines[|lines| - 1] == "Support"
  {
    ExcerptSpec(t);
    FriendlyLines(tone, t, user, titles);
    FriendlyClosingFacts();
  }

  /** Whatever the tone, the draft has at least eight lines, opens with the
      greeting and closes with "Support". */
  lemma ReplyEnds(tone: string, t: Ticket, user: Option<Profile>, titles: seq<string>)
    ensures var lines := ReplyLines(tone, t, user, titles);
      |lines| >= 8 && lines[0] == Greeting(user) && lines[|lines| - 1] == "Support"
  {
    if tone == "concise" {
      ConciseShape(t, user, titles);
    } else {
      FriendlyShape(tone, t, user, titles);
    }
  }

  /** Lines that open with `first` and close with "Support", joined with line
      breaks. */
  lemma JoinedFrame(lines: seq<string>, first: string)
    requires |lines| >= 2 && lines[0] == first && lines[|lines| - 1] == "Support"
    ensures var text := Join(lines, "\n");
      && first + "\n" <= text
      && |text| >= 8 && text[|text| - 8..] == "\nSupport"
  {
    JoinStartsWith(lines, "\n");
    JoinEndsWith(lines, "\n");
  }

  /** The draft text starts with the greeting line and ends with the line
      "Support", whatever the tone. */
  lemma ReplyTextFrame(tone: string, t: Ticket, user: Option<Profile>, titles: seq<string>)
    ensures var text := GenReply(tone, t, user, titles);
      && Greeting(user) + "\n" <= text
      && |text| >= 8 && text[|text| - 8..] == "\nSupport"
  {
    ReplyEnds(tone, t, user, titles);
    JoinedFrame(ReplyLines(tone, t, user, titles), Greeting(user));
  }
}
