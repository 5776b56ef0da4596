/**
 * Where each old message goes: the context ledger's decisions first, then bounded excerpts of
 * live hub tasks, and everything else to the summarizer.
 */
module Routing {
  import opened Options
  import opened Messages
  import opened Text
  import opened OperatorBlocks
  import opened JoinedLines

  const MAX_PRESERVED_HUB_TASK_MESSAGES := 24
  const MAX_PRESERVED_HUB_TASK_CHARS := 4000

  // ---------------------------------------------------------------- index lists

  predicate Ascending(s: seq<nat>) {
    forall i, j :: 0 <= i < j < |s| ==> s[i] < s[j]
  }

  /** Every index is below n. */
  predicate Below(s: seq<nat>, n: nat) {
    forall i :: 0 <= i < |s| ==> s[i] < n
  }

  /** The indices below n that satisfy p, in order. */
  function Where(n: nat, p: nat -> bool): (r: seq<nat>)
    ensures Ascending(r) && Below(r, n) && |r| <= n
  {
    if n == 0 then [] else Where(n - 1, p) + (if p(n - 1) then [n - 1] else [])
  }

  lemma {:induction false} WhereMembers(n: nat, p: nat -> bool, k: nat)
    ensures k in Where(n, p) <==> k < n && p(k)
  {
    if n > 0 {
      WhereMembers(n - 1, p, k);
    }
  }

  function Pick(ms: seq<Message>, s: seq<nat>): (r: seq<Message>)
    requires Below(s, |ms|)
    ensures |r| == |s|
    ensures forall i :: 0 <= i < |s| ==> r[i] == ms[s[i]]
  {
    seq(|s|, i requires 0 <= i < |s| => ms[s[i]])
  }

  lemma PickOneMore(ms: seq<Message>, s: seq<nat>, k: nat)
    requires Below(s, |ms|) && k < |ms|
    ensures Pick(ms, s + [k]) == Pick(ms, s) + [ms[k]]
  {
  }

  // ---------------------------------------------------------------- the ledger

  datatype Decision = Keep | Summary | Pending | Evicted
  datatype Entry = Entry(decision: Decision, body: string)
  type Ledger = map<string, Entry>

  /** The ids of a message that the ledger knows, in order. */
  function KnownIds(ids: seq<string>, ledger: Ledger): (r: seq<string>)
    ensures forall c :: c in r <==> c in ids && c in ledger
  {
    if ids == [] then []
    else (if ids[0] in ledger then [ids[0]] else []) + KnownIds(ids[1..], ledger)
  }

  datatype Verdict = Untracked | Verbatim | Rewritten

  /** Keep wins; a summary needs a body; eviction needs every entry; anything else is left untracked. */
  function Judge(m: Message, ledger: Ledger): Verdict {
    var ids := KnownIds(m.ctxIds, ledger);
    if ids == [] then Untracked
    else if (exists c :: c in ids && ledger[c].decision == Keep)
        || (forall c :: c in ids ==> ledger[c].decision == Evicted) then Verbatim
    else if exists c :: c in ids && ledger[c].decision == Summary && ledger[c].body != "" then Rewritten
    else Untracked
  }

  /** A tool result whose call is summarized away is kept as a plain user message. */
  function Detach(m: Message): Message {
    if m.role != Tool then m
    else Plain(User, "[kept tool result " + Join(", ", m.ctxIds) + "]\n" + m.content)
  }

  function SummaryLines(ids: seq<string>, ledger: Ledger): seq<string>
    requires forall c :: c in ids ==> c in ledger
  {
    if ids == [] then []
    else
      var e := ledger[ids[0]];
      (if e.decision == Summary && e.body != "" then ["[" + ids[0] + " summary] " + e.body] else [])
      + SummaryLines(ids[1..], ledger)
  }

  /** A ledger-handled message as it enters the compacted history. */
  function Handle(m: Message, ledger: Ledger): Message {
    if Judge(m, ledger) == Rewritten
    then Plain(if m.role == Tool then User else m.role, Join("\n", SummaryLines(KnownIds(m.ctxIds, ledger), ledger)))
    else Detach(m)
  }

  /** A ledger entry of the message with the given decision. */
  ghost predicate HasEntry(m: Message, ledger: Ledger, d: Decision) {
    exists c :: c in m.ctxIds && c in ledger && ledger[c].decision == d
  }

  /** What the ledger decides, entry by entry: keep wins, then eviction of all, then a summary with a body. */
  lemma JudgeIff(m: Message, ledger: Ledger)
    ensures Judge(m, ledger) == Verbatim <==>
            || HasEntry(m, ledger, Keep)
            || (HasEntry(m, ledger, Evicted)
                && forall c :: c in m.ctxIds && c in ledger ==> ledger[c].decision == Evicted)
    ensures Judge(m, ledger) == Rewritten <==>
            && !HasEntry(m, ledger, Keep)
            && exists c :: c in m.ctxIds && c in ledger && ledger[c].decision == Summary && ledger[c].body != ""
    ensures HasEntry(m, ledger, Keep) ==> Judge(m, ledger) == Verbatim
  {
    var ids := KnownIds(m.ctxIds, ledger);
    if ids != [] {
      assert ids[0] in ids;
    }
  }

  /** A kept message stays as it is; a tool result becomes a user message that quotes it whole under its ids. */
  lemma KeptSaysAll(m: Message, ledger: Ledger)
    requires Judge(m, ledger) != Rewritten
    ensures m.role != Tool ==> Handle(m, ledger) == m
    ensures m.role == Tool ==>
              && Handle(m, ledger).role == User && Handle(m, ledger).toolCallId == None
              && exists head :: Handle(m, ledger).content == head + m.content && Occurs(head, Join(", ", m.ctxIds))
  {
    hide Judge, Join;
    if m.role == Tool {
      var ids := Join(", ", m.ctxIds);
      var head := "[kept tool result " + ids + "]\n";
      OccursWithin("[kept tool result ", ids, "]\n");
      assert Handle(m, ledger).content == head + m.content;
    }
  }

  /** A rewritten message says, under its id, every summary the agent wrote for it. */
  lemma RewrittenSaysSummaries(m: Message, ledger: Ledger, c: string)
    requires Judge(m, ledger) == Rewritten
    requires c in m.ctxIds && c in ledger && ledger[c].decision == Summary && ledger[c].body != ""
    ensures Handle(m, ledger).role == (if m.role == Tool then User else m.role)
    ensures Occurs(Handle(m, ledger).content, "[" + c + " summary] " + ledger[c].body)
  {
    hide Judge, Join, OccursAt, KnownIds;
    var ids := KnownIds(m.ctxIds, ledger);
    assert c in ids;
    SummaryLineOf(ids, ledger, c);
    var lines := SummaryLines(ids, ledger);
    var i :| 0 <= i < |lines| && lines[i] == "[" + c + " summary] " + ledger[c].body;
    JoinHolds(lines, i);
  }

  lemma {:induction false} SummaryLineOf(ids: seq<string>, ledger: Ledger, c: string)
    requires c in ids && forall x :: x in ids ==> x in ledger
    requires ledger[c].decision == Summary && ledger[c].body != ""
    ensures "[" + c + " summary] " + ledger[c].body in SummaryLines(ids, ledger)
  {
    if ids[0] != c {
      SummaryLineOf(ids[1..], ledger, c);
    }
  }

  function HandleAll(ms: seq<Message>, ledger: Ledger): (r: seq<Message>)
    ensures |r| == |ms| && forall i :: 0 <= i < |ms| ==> r[i] == Handle(ms[i], ledger)
  {
    seq(|ms|, i requires 0 <= i < |ms| => Handle(ms[i], ledger))
  }

  lemma HandleOneMore(ms: seq<Message>, m: Message, ledger: Ledger)
    ensures HandleAll(ms + [m], ledger) == HandleAll(ms, ledger) + [Handle(m, ledger)]
  {
  }

  function Tracked(ms: seq<Message>, ledger: Ledger): nat -> bool {
    (k: nat) => k < |ms| && Judge(ms[k], ledger) != Untracked
  }

  function NotTracked(ms: seq<Message>, ledger: Ledger): nat -> bool {
    (k: nat) => k < |ms| && Judge(ms[k], ledger) == Untracked
  }

  method PartitionByLedger(ms: seq<Message>, ledger: Ledger)
    returns (handled: seq<Message>, untracked: seq<Message>)
    ensures handled == HandleAll(Pick(ms, Where(|ms|, Tracked(ms, ledger))), ledger)
    ensures untracked == Pick(ms, Where(|ms|, NotTracked(ms, ledger)))
  {
    hide Judge, Handle, SummaryLines, KnownIds;
    handled, untracked := [], [];
    for i := 0 to |ms|
      invariant handled == HandleAll(Pick(ms, Where(i, Tracked(ms, ledger))), ledger)
      invariant untracked == Pick(ms, Where(i, NotTracked(ms, ledger)))
    {
      ghost var t, u := Tracked(ms, ledger), NotTracked(ms, ledger);
      assert Where(i + 1, t) == Where(i, t) + (if t(i) then [i] else []);
      assert Where(i + 1, u) == Where(i, u) + (if u(i) then [i] else []);
      if Judge(ms[i], ledger) == Untracked {
        PickOneMore(ms, Where(i, u), i);
        untracked := untracked + [ms[i]];
      } else {
        PickOneMore(ms, Where(i, t), i);
        HandleOneMore(Pick(ms, Where(i, t)), ms[i], ledger);
        handled := handled + [Handle(ms[i], ledger)];
      }
    }
  }

  // ---------------------------------------------------------------- live tasks

  /** What decides whether a message is an active assignment: the hub heuristic and the live ids. */
  datatype TaskView = TaskView(hubTask: Message -> bool, live: set<string>)

  predicate IsLive(m: Message, v: TaskView) {
    v.hubTask(m) && m.taskId.Some? && m.taskId.value != "" && m.taskId.value in v.live
  }

  /** The last live message of its task. */
  predicate IsLatest(ms: seq<Message>, v: TaskView, i: nat)
    requires i < |ms|
  {
    IsLive(ms[i], v) && forall j :: i < j < |ms| ==> !(IsLive(ms[j], v) && ms[j].taskId == ms[i].taskId)
  }

  function LatestAt(ms: seq<Message>, v: TaskView): nat -> bool {
    (k: nat) => k < |ms| && IsLatest(ms, v, k)
  }

  function Newest(s: seq<nat>, n: nat): (r: seq<nat>)
    ensures |r| == if |s| <= n then |s| else n
    ensures forall i :: 0 <= i < |r| ==> r[i] == s[|s| - |r| + i]
  {
    if |s| <= n then s else s[|s| - n..]
  }

  /** The newest 24 of them. */
  function Chosen(ms: seq<Message>, v: TaskView): (r: seq<nat>)
    ensures Ascending(r) && Below(r, |ms|)
  {
    Newest(Where(|ms|, LatestAt(ms, v)), MAX_PRESERVED_HUB_TASK_MESSAGES)
  }

  predicate Oversized(m: Message) {
    |m.content| > MAX_PRESERVED_HUB_TASK_CHARS
  }

  function Truncate(s: string, n: nat): string {
    if |s| <= n then s else s[..n]
  }

  const EXCERPT_SUFFIX: string := "\n[Remaining assignment text is summarized below.]"

  function ExcerptPrefix(m: Message): string {
    "[Active TaskLedger task "
    + Truncate(if m.taskId.Some? && m.taskId.value != "" then m.taskId.value else "unknown", 128)
    + "; latest assignment excerpt]\n"
  }

  /** A live assignment, shortened when it is too long. */
  function Excerpt(m: Message): (r: Message)
    ensures |r.content| <= 4000
    ensures |m.content| <= 4000 ==> r == m
    ensures r.role == m.role && r.taskId == m.taskId && r.operatorInputs == m.operatorInputs
  {
    if !Oversized(m) then m
    else
      var budget := MAX_PRESERVED_HUB_TASK_CHARS - |ExcerptPrefix(m)| - |EXCERPT_SUFFIX|;
      m.(content := ExcerptPrefix(m) + m.content[..if budget > 0 then budget else 0] + EXCERPT_SUFFIX, excerpt := true)
  }

  /** A shortened assignment names its task and quotes over 3700 characters of its beginning. */
  lemma ExcerptQuotes(m: Message)
    requires Oversized(m)
    ensures exists k :: 3700 < k <= |m.content|
                        && Excerpt(m).content == ExcerptPrefix(m) + m.content[..k] + EXCERPT_SUFFIX
    ensures |Excerpt(m).content| == 4000 && Excerpt(m).excerpt
    ensures m.taskId.Some? && 0 < |m.taskId.value| <= 128 ==> Occurs(ExcerptPrefix(m), m.taskId.value)
    ensures m.taskId.Some? && |m.taskId.value| > 128 ==> Occurs(ExcerptPrefix(m), m.taskId.value[..128])
  {
    hide OccursAt;
    assert |EXCERPT_SUFFIX| == 49 && |ExcerptPrefix(m)| <= 182;
    var k := MAX_PRESERVED_HUB_TASK_CHARS - |ExcerptPrefix(m)| - |EXCERPT_SUFFIX|;
    assert Excerpt(m).content == ExcerptPrefix(m) + m.content[..k] + EXCERPT_SUFFIX;
    if m.taskId.Some? && m.taskId.value != "" {
      OccursWithin("[Active TaskLedger task ", Truncate(m.taskId.value, 128), "; latest assignment excerpt]\n");
    }
  }

  function ExcerptAll(ms: seq<Message>): (r: seq<Message>)
    ensures |r| == |ms| && forall i :: 0 <= i < |ms| ==> r[i] == Excerpt(ms[i])
  {
    seq(|ms|, i requires 0 <= i < |ms| => Excerpt(ms[i]))
  }

  /** The summarizer still sees unchosen messages and chosen ones that were shortened. */
  function LeftAt(ms: seq<Message>, chosen: seq<nat>): nat -> bool {
    (k: nat) => k < |ms| && (k !in chosen || Oversized(ms[k]))
  }

  lemma ExcerptOneMore(ms: seq<Message>, m: Message)
    ensures ExcerptAll(ms + [m]) == ExcerptAll(ms) + [Excerpt(m)]
  {
  }

  /** `latest` holds, for each live task met before n, the index of its last live message. */
  ghost predicate LatestBefore(ms: seq<Message>, v: TaskView, latest: map<string, nat>, n: nat)
    requires n <= |ms|
  {
    && (forall id :: id in latest ==>
          && latest[id] < n && IsLive(ms[latest[id]], v) && ms[latest[id]].taskId == Some(id)
          && forall j :: latest[id] < j < n ==> !(IsLive(ms[j], v) && ms[j].taskId == Some(id)))
    && (forall j :: 0 <= j < n && IsLive(ms[j], v) ==> ms[j].taskId.value in latest)
  }

  method FindLatest(ms: seq<Message>, v: TaskView) returns (latest: map<string, nat>)
    ensures LatestBefore(ms, v, latest, |ms|)
  {
    latest := map[];
    for i := 0 to |ms|
      invariant LatestBefore(ms, v, latest, i)
    {
      if IsLive(ms[i], v) {
        latest := latest[ms[i].taskId.value := i];
      }
    }
  }

  /** The recorded indices in ascending order, as sorting the dictionary's values gives them. */
  method SortLatest(ms: seq<Message>, v: TaskView, latest: map<string, nat>) returns (r: seq<nat>)
    requires LatestBefore(ms, v, latest, |ms|)
    ensures r == Where(|ms|, LatestAt(ms, v))
  {
    r := [];
    for i := 0 to |ms|
      invariant r == Where(i, LatestAt(ms, v))
    {
      if IsLive(ms[i], v) && latest[ms[i].taskId.value] == i {
        r := r + [i];
      }
    }
  }

  method ExtractPreservable(ms: seq<Message>, v: TaskView)
    returns (preserved: seq<Message>, summarizable: seq<Message>)
    ensures preserved == ExcerptAll(Pick(ms, Chosen(ms, v)))
    ensures summarizable == Pick(ms, Where(|ms|, LeftAt(ms, Chosen(ms, v))))
  {
    var latest := FindLatest(ms, v);
    var indices := SortLatest(ms, v, latest);
    var chosen := Newest(indices, MAX_PRESERVED_HUB_TASK_MESSAGES);
    preserved := BuildExcerpts(ms, chosen);
    summarizable := BuildRest(ms, chosen);
  }

  method BuildExcerpts(ms: seq<Message>, chosen: seq<nat>) returns (preserved: seq<Message>)
    requires Below(chosen, |ms|)
    ensures preserved == ExcerptAll(Pick(ms, chosen))
  {
    preserved := [];
    for i := 0 to |chosen|
      invariant preserved == ExcerptAll(Pick(ms, chosen[..i]))
    {
      PickOneMore(ms, chosen[..i], chosen[i]);
      ExcerptOneMore(Pick(ms, chosen[..i]), ms[chosen[i]]);
      assert chosen[..i + 1] == chosen[..i] + [chosen[i]];
      preserved := preserved + [Excerpt(ms[chosen[i]])];
    }
    assert chosen[..|chosen|] == chosen;
  }

  method BuildRest(ms: seq<Message>, chosen: seq<nat>) returns (rest: seq<Message>)
    ensures rest == Pick(ms, Where(|ms|, LeftAt(ms, chosen)))
  {
    rest := [];
    for i := 0 to |ms|
      invariant rest == Pick(ms, Where(i, LeftAt(ms, chosen)))
    {
      if i !in chosen || Oversized(ms[i]) {
        PickOneMore(ms, Where(i, LeftAt(ms, chosen)), i);
        rest := rest + [ms[i]];
      }
    }
  }

  // ---------------------------------------------------------------- what routing promises

  function Compose(outer: seq<nat>, inner: seq<nat>): (r: seq<nat>)
    requires Below(inner, |outer|)
    ensures |r| == |inner| && forall i :: 0 <= i < |inner| ==> r[i] == outer[inner[i]]
  {
    seq(|inner|, i requires 0 <= i < |inner| => outer[inner[i]])
  }

  /** The routes of the messages ms, as three lists of indices into ms. */
  datatype Routes = Routes(ledger: seq<nat>, preserved: seq<nat>, summarized: seq<nat>)

  function RoutesOf(ms: seq<Message>, ledger: Ledger, v: TaskView): Routes {
    var untracked := Where(|ms|, NotTracked(ms, ledger));
    var rest := Pick(ms, untracked);
    var chosen := Chosen(rest, v);
    Routes(Where(|ms|, Tracked(ms, ledger)),
           Compose(untracked, chosen),
           Compose(untracked, Where(|rest|, LeftAt(rest, chosen))))
  }

  lemma ComposeAscending(outer: seq<nat>, inner: seq<nat>, n: nat)
    requires Ascending(outer) && Below(outer, n) && Ascending(inner) && Below(inner, |outer|)
    ensures Ascending(Compose(outer, inner)) && Below(Compose(outer, inner), n)
  {
  }

  /** Order is kept within each route. */
  lemma RoutesKeepOrder(ms: seq<Message>, ledger: Ledger, v: TaskView)
    ensures var r := RoutesOf(ms, ledger, v);
            && Ascending(r.ledger) && Below(r.ledger, |ms|)
            && Ascending(r.preserved) && Below(r.preserved, |ms|)
            && Ascending(r.summarized) && Below(r.summarized, |ms|)
  {
    var untracked := Where(|ms|, NotTracked(ms, ledger));
    var rest := Pick(ms, untracked);
    var chosen := Chosen(rest, v);
    ComposeAscending(untracked, chosen, |ms|);
    ComposeAscending(untracked, Where(|rest|, LeftAt(rest, chosen)), |ms|);
  }

  lemma ComposeMember(outer: seq<nat>, inner: seq<nat>, j: nat)
    requires Ascending(outer) && Below(inner, |outer|) && j < |outer|
    ensures outer[j] in Compose(outer, inner) <==> j in inner
  {
    if outer[j] in Compose(outer, inner) {
      var a :| 0 <= a < |inner| && outer[inner[a]] == outer[j];
      assert inner[a] == j;
    }
    if j in inner {
      var a :| 0 <= a < |inner| && inner[a] == j;
      assert Compose(outer, inner)[a] == outer[j];
    }
  }

  /**
   * Every message takes a route: the ledger alone, or the preserved tasks, or the summarizer;
   * the last two together exactly when it is a preserved task too long to keep whole.
   */
  lemma EveryMessageIsRouted(ms: seq<Message>, ledger: Ledger, v: TaskView, i: nat)
    requires i < |ms|
    ensures var r := RoutesOf(ms, ledger, v);
            && (i in r.ledger ==> i !in r.preserved && i !in r.summarized)
            && (i !in r.ledger ==> i in r.preserved || i in r.summarized)
            && (i in r.preserved ==> (i in r.summarized <==> Oversized(ms[i])))
            && (i in r.ledger <==> Judge(ms[i], ledger) != Untracked)
  {
    hide Judge, Where, Chosen;
    var r := RoutesOf(ms, ledger, v);
    var untracked := Where(|ms|, NotTracked(ms, ledger));
    var rest := Pick(ms, untracked);
    var chosen := Chosen(rest, v);
    var left := Where(|rest|, LeftAt(rest, chosen));
    WhereMembers(|ms|, Tracked(ms, ledger), i);
    WhereMembers(|ms|, NotTracked(ms, ledger), i);
    if i in untracked {
      var j :| 0 <= j < |untracked| && untracked[j] == i;
      ComposeMember(untracked, chosen, j);
      ComposeMember(untracked, left, j);
      WhereMembers(|rest|, LeftAt(rest, chosen), j);
    } else {
      assert forall a :: 0 <= a < |chosen| ==> untracked[chosen[a]] in untracked;
      assert forall a :: 0 <= a < |left| ==> untracked[left[a]] in untracked;
    }
  }

  /** The three message lists are the messages on the three routes. */
  lemma RoutesAreTheLists(ms: seq<Message>, ledger: Ledger, v: TaskView)
    ensures var r := RoutesOf(ms, ledger, v);
            var rest := Pick(ms, Where(|ms|, NotTracked(ms, ledger)));
            && Below(r.preserved, |ms|) && Below(r.summarized, |ms|)
            && ExcerptAll(Pick(rest, Chosen(rest, v))) == ExcerptAll(Pick(ms, r.preserved))
            && Pick(rest, Where(|rest|, LeftAt(rest, Chosen(rest, v)))) == Pick(ms, r.summarized)
  {
    RoutesKeepOrder(ms, ledger, v);
    var r := RoutesOf(ms, ledger, v);
    var rest := Pick(ms, Where(|ms|, NotTracked(ms, ledger)));
    assert Pick(rest, Chosen(rest, v)) == Pick(ms, r.preserved);
  }

  /** Every live task with a message has a latest one. */
  lemma {:induction false} LatestExists(ms: seq<Message>, v: TaskView, j: nat)
    requires j < |ms| && IsLive(ms[j], v)
    ensures exists q :: j <= q < |ms| && IsLatest(ms, v, q) && ms[q].taskId == ms[j].taskId
    decreases |ms| - j
  {
    if !IsLatest(ms, v, j) {
      var k :| j < k < |ms| && IsLive(ms[k], v) && ms[k].taskId == ms[j].taskId;
      LatestExists(ms, v, k);
    }
  }

  /** At most 24 tasks, one message each, its latest; a task passed over is older than every one kept. */
  lemma PreservedAreNewestTasks(ms: seq<Message>, v: TaskView)
    ensures var c := Chosen(ms, v);
            && |c| <= 24
            && (forall i :: 0 <= i < |c| ==> IsLatest(ms, v, c[i]))
            && (forall i, j :: 0 <= i < j < |c| ==> ms[c[i]].taskId != ms[c[j]].taskId)
            && forall q, i :: 0 <= q < |ms| && IsLatest(ms, v, q) && q !in c && 0 <= i < |c| ==> q < c[i]
    ensures forall q :: 0 <= q < |ms| && IsLatest(ms, v, q) && q !in Chosen(ms, v) ==>
              |Chosen(ms, v)| == 24
  {
    hide Where, IsLatest, Newest;
    var c, all := Chosen(ms, v), Where(|ms|, LatestAt(ms, v));
    forall i | 0 <= i < |c|
      ensures IsLatest(ms, v, c[i])
    {
      WhereMembers(|ms|, LatestAt(ms, v), c[i]);
    }
    forall i, j | 0 <= i < j < |c|
      ensures ms[c[i]].taskId != ms[c[j]].taskId
    {
      LatestIsOne(ms, v, c[i], c[j]);
    }
    forall q | 0 <= q < |ms| && IsLatest(ms, v, q) && q !in c
      ensures |c| == MAX_PRESERVED_HUB_TASK_MESSAGES && forall i :: 0 <= i < |c| ==> q < c[i]
    {
      WhereMembers(|ms|, LatestAt(ms, v), q);
      NewestAreLast(all, MAX_PRESERVED_HUB_TASK_MESSAGES, q);
    }
  }

  lemma LatestIsOne(ms: seq<Message>, v: TaskView, i: nat, j: nat)
    requires i < j < |ms| && IsLatest(ms, v, i) && IsLatest(ms, v, j)
    ensures ms[i].taskId != ms[j].taskId
  {
  }

  /** What is left out of the newest n comes before all of them. */
  lemma NewestAreLast(s: seq<nat>, n: nat, q: nat)
    requires Ascending(s) && q in s && q !in Newest(s, n)
    ensures |Newest(s, n)| == n && forall i :: 0 <= i < n ==> q < Newest(s, n)[i]
  {
    var r := Newest(s, n);
    forall b | |s| - |r| <= b < |s|
      ensures s[b] in r
    {
      assert r[b - (|s| - |r|)] == s[b];
    }
    var a :| 0 <= a < |s| && s[a] == q;
    assert a < |s| - |r|;
  }
}
