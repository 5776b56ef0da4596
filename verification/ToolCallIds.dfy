/**
 * Wire ids for tool calls. Source ids are reused from call to call; each invocation gets its own wire
 * id, which all of its start, progress, permission and result events share.
 */
module ToolCallIds {
  import opened Options

  /** The name-based UUID of section 5.5 of RFC 9562, as the value it is computed from. */
  datatype WireId = WireId(session: string, scope: string, source: string, count: nat)

  datatype ToolEvent = ToolEvent(source: string, start: bool, permission: bool, complete: bool)

  /** The resolver's tables. */
  datatype Tables = Tables(
    active: map<string, WireId>, counts: map<string, nat>, started: set<string>, completed: set<string>)

  function CountOf(t: Tables, source: string): nat {
    if source in t.counts then t.counts[source] else 0
  }

  predicate Renews(t: Tables, e: ToolEvent) {
    e.source !in t.active || (e.start && e.source in t.started) || (e.permission && e.source in t.completed)
  }

  function Renewed(t: Tables, e: ToolEvent, session: string, scope: string): Tables {
    if !Renews(t, e) then t
    else
      var n := CountOf(t, e.source) + 1;
      Tables(t.active[e.source := WireId(session, scope, e.source, n)], t.counts[e.source := n],
             t.started - {e.source}, t.completed - {e.source})
  }

  function Resolved(t: Tables, e: ToolEvent, session: string, scope: string): (r: Tables)
    ensures e.source in r.active
  {
    var u := Renewed(t, e, session, scope);
    u.(started := if e.start then u.started + {e.source} else u.started,
       completed := if e.complete then u.completed + {e.source} else u.completed)
  }

  class Resolver {
    const session: string
    const scope: string
    var active: map<string, WireId>
    var counts: map<string, nat>
    var started: set<string>
    var completed: set<string>

    function View(): Tables
      reads this
    {
      Tables(active, counts, started, completed)
    }

    constructor (session: string, scope: string)
      ensures this.session == session && this.scope == scope && View() == Empty()
    {
      this.session, this.scope := session, scope;
      active, counts, started, completed := map[], map[], {}, {};
    }

    method Resolve(source: string, start: bool, permission: bool, complete: bool) returns (id: WireId)
      modifies this
      ensures View() == Resolved(old(View()), ToolEvent(source, start, permission, complete), session, scope)
      ensures id == View().active[source]
    {
      if source !in active || (start && source in started) || (permission && source in completed) {
        counts := counts[source := (if source in counts then counts[source] else 0) + 1];
        active := active[source := WireId(session, scope, source, counts[source])];
        started := started - {source};
        completed := completed - {source};
      }
      if start {
        started := started + {source};
      }
      if complete {
        completed := completed + {source};
      }
      id := active[source];
    }
  }

  function Empty(): Tables {
    Tables(map[], map[], {}, {})
  }

  /** The tables after the first n events. */
  function After(es: seq<ToolEvent>, n: nat, session: string, scope: string): Tables
    requires n <= |es|
  {
    if n == 0 then Empty() else Resolved(After(es, n - 1, session, scope), es[n - 1], session, scope)
  }

  /** The id given to event i of a stream. */
  function IdOf(es: seq<ToolEvent>, i: nat, session: string, scope: string): WireId
    requires i < |es|
  {
    After(es, i + 1, session, scope).active[es[i].source]
  }

  method ResolveStream(es: seq<ToolEvent>, session: string, scope: string) returns (ids: seq<WireId>)
    ensures |ids| == |es| && forall i :: 0 <= i < |es| ==> ids[i] == IdOf(es, i, session, scope)
  {
    var r := new Resolver(session, scope);
    ids := [];
    for i := 0 to |es|
      invariant |ids| == i && r.View() == After(es, i, session, scope)
      invariant r.session == session && r.scope == scope
      invariant forall k :: 0 <= k < i ==> ids[k] == IdOf(es, k, session, scope)
    {
      var id := r.Resolve(es[i].source, es[i].start, es[i].permission, es[i].complete);
      ids := ids + [id];
    }
  }

  // ---------------------------------------------------------------- invocations

  /** Some event of the source from b up to n is a start. */
  predicate StartSeen(es: seq<ToolEvent>, b: nat, n: nat, source: string)
    requires n <= |es|
  {
    exists j :: b <= j < n && es[j].source == source && es[j].start
  }

  predicate CompletionSeen(es: seq<ToolEvent>, b: nat, n: nat, source: string)
    requires n <= |es|
  {
    exists j :: b <= j < n && es[j].source == source && es[j].complete
  }

  /**
   * Event i opens a new invocation of its source: it is the first of that source, or a start after a
   * start of the current invocation, or a permission request after its completion.
   */
  predicate Opens(es: seq<ToolEvent>, i: nat)
    requires i < |es|
    decreases i, 1
  {
    var e, b := es[i], Opening(es, i, es[i].source);
    b.None? || (e.start && StartSeen(es, b.value, i, e.source))
        || (e.permission && CompletionSeen(es, b.value, i, e.source))
  }

  /** The event that opened the current invocation of a source, among the first n events. */
  function Opening(es: seq<ToolEvent>, n: nat, source: string): (b: Option<nat>)
    requires n <= |es|
    ensures b.Some? ==> b.value < n
    decreases n, 0
  {
    if n == 0 then None
    else if es[n - 1].source == source && Opens(es, n - 1) then Some(n - 1)
    else Opening(es, n - 1, source)
  }

  /** The invocation event i belongs to, named by the event that opened it. */
  function Invocation(es: seq<ToolEvent>, i: nat): Option<nat>
    requires i < |es|
  {
    Opening(es, i + 1, es[i].source)
  }

  function Openings(es: seq<ToolEvent>, n: nat, source: string): nat
    requires n <= |es|
  {
    if n == 0 then 0
    else Openings(es, n - 1, source) + (if es[n - 1].source == source && Opens(es, n - 1) then 1 else 0)
  }

  /** The tables, said in terms of the stream. */
  ghost predicate Describes(t: Tables, es: seq<ToolEvent>, n: nat, source: string, session: string, scope: string)
    requires n <= |es|
  {
    var b := Opening(es, n, source);
    && CountOf(t, source) == Openings(es, n, source)
    && (source in t.active <==> b.Some?)
    && (b.Some? ==>
          && t.active[source] == WireId(session, scope, source, Openings(es, n, source))
          && (source in t.started <==> StartSeen(es, b.value, n, source))
          && (source in t.completed <==> CompletionSeen(es, b.value, n, source)))
  }

  lemma SeenStep(es: seq<ToolEvent>, b: nat, n: nat, source: string)
    requires b <= n < |es|
    ensures StartSeen(es, b, n + 1, source) <==> StartSeen(es, b, n, source) || (es[n].source == source && es[n].start)
    ensures CompletionSeen(es, b, n + 1, source)
            <==> CompletionSeen(es, b, n, source) || (es[n].source == source && es[n].complete)
    ensures !StartSeen(es, n, n, source) && !CompletionSeen(es, n, n, source)
  {
  }

  lemma {:induction false} TablesDescribe(es: seq<ToolEvent>, n: nat, source: string, session: string, scope: string)
    requires n <= |es|
    ensures Describes(After(es, n, session, scope), es, n, source, session, scope)
  {
    if n > 0 {
      hide StartSeen, CompletionSeen;
      var k, e := n - 1, es[n - 1];
      TablesDescribe(es, k, source, session, scope);
      var t := After(es, k, session, scope);
      assert e.source == source ==> (Renews(t, e) <==> Opens(es, k));
      SeenStep(es, k, k, source);
      var b := Opening(es, k, source);
      if b.Some? {
        SeenStep(es, b.value, k, source);
      }
    }
  }

  /** Within a source, the opening event and the number of openings change together. */
  lemma {:induction false} OpeningsTellInvocations(es: seq<ToolEvent>, m: nat, n: nat, source: string)
    requires m <= n <= |es|
    ensures Openings(es, m, source) <= Openings(es, n, source)
    ensures Openings(es, m, source) == Openings(es, n, source) <==> Opening(es, m, source) == Opening(es, n, source)
    decreases n - m
  {
    if m < n {
      OpeningsTellInvocations(es, m, n - 1, source);
    }
  }

  lemma {:induction false} FirstIsOpened(es: seq<ToolEvent>, i: nat)
    requires i < |es|
    ensures Invocation(es, i).Some? && es[Invocation(es, i).value].source == es[i].source
            && Opens(es, Invocation(es, i).value)
  {
    OpeningIsOpen(es, i + 1, es[i].source);
  }

  lemma {:induction false} OpeningIsOpen(es: seq<ToolEvent>, n: nat, source: string)
    requires n <= |es|
    ensures var b := Opening(es, n, source); b.Some? ==> es[b.value].source == source && Opens(es, b.value)
  {
    if n > 0 && !(es[n - 1].source == source && Opens(es, n - 1)) {
      OpeningIsOpen(es, n - 1, source);
    }
  }

  /** Two tool events get the same wire id exactly when they share a source id and an invocation. */
  lemma SameIdIffSameInvocation(es: seq<ToolEvent>, i: nat, j: nat, session: string, scope: string)
    requires i < |es| && j < |es|
    ensures IdOf(es, i, session, scope) == IdOf(es, j, session, scope) <==>
            es[i].source == es[j].source && Invocation(es, i) == Invocation(es, j)
  {
    hide Opens, Opening, After, Openings;
    TablesDescribe(es, i + 1, es[i].source, session, scope);
    TablesDescribe(es, j + 1, es[j].source, session, scope);
    FirstIsOpened(es, i);
    FirstIsOpened(es, j);
    if i <= j {
      OpeningsTellInvocations(es, i + 1, j + 1, es[i].source);
    } else {
      OpeningsTellInvocations(es, j + 1, i + 1, es[i].source);
    }
  }

  /** Ids never collide across sessions or scopes; a replay in its own scope repeats its ids. */
  lemma ScopesAreApart(es: seq<ToolEvent>, i: nat, fs: seq<ToolEvent>, j: nat, s1: string, c1: string, s2: string,
      c2: string)
    requires i < |es| && j < |fs|
    ensures IdOf(es, i, s1, c1) == IdOf(fs, j, s2, c2) ==> s1 == s2 && c1 == c2
    ensures es[..i + 1] <= fs && i == j && s1 == s2 && c1 == c2 ==> IdOf(es, i, s1, c1) == IdOf(fs, j, s2, c2)
  {
    TablesDescribe(es, i + 1, es[i].source, s1, c1);
    TablesDescribe(fs, j + 1, fs[j].source, s2, c2);
    FirstIsOpened(es, i);
    FirstIsOpened(fs, j);
    if es[..i + 1] <= fs && i == j {
      SamePrefix(es, fs, i + 1, s1, c1);
      assert es[i] == fs[i];
    }
  }

  lemma {:induction false} SamePrefix(es: seq<ToolEvent>, fs: seq<ToolEvent>, n: nat, session: string, scope: string)
    requires n <= |es| && n <= |fs| && forall k :: 0 <= k < n ==> es[k] == fs[k]
    ensures After(es, n, session, scope) == After(fs, n, session, scope)
  {
    if n > 0 {
      SamePrefix(es, fs, n - 1, session, scope);
    }
  }

  /** Four short streams of one source: what opens a new invocation and what does not. */
  lemma IdsByExample(source: string, session: string, scope: string)
    ensures var start, progress := ToolEvent(source, true, false, false), ToolEvent(source, false, false, false);
            var result, permission := ToolEvent(source, false, false, true), ToolEvent(source, false, true, false);
            && IdOf([start, progress, result], 0, session, scope) == IdOf([start, progress, result], 2, session, scope)
            && IdOf([start, start], 0, session, scope) != IdOf([start, start], 1, session, scope)
            && IdOf([permission, start], 0, session, scope) == IdOf([permission, start], 1, session, scope)
            && IdOf([start, result, permission], 0, session, scope) != IdOf([start, result, permission], 2, session,
                scope)
  {
    var start, progress := ToolEvent(source, true, false, false), ToolEvent(source, false, false, false);
    var result, permission := ToolEvent(source, false, false, true), ToolEvent(source, false, true, false);
    ThreeSteps([start, progress, result], session, scope);
    TwoSteps([start, start], session, scope);
    TwoSteps([permission, start], session, scope);
    ThreeSteps([start, result, permission], session, scope);
  }

  lemma TwoSteps(es: seq<ToolEvent>, session: string, scope: string)
    requires |es| >= 2
    ensures After(es, 1, session, scope) == Resolved(Empty(), es[0], session, scope)
    ensures After(es, 2, session, scope) == Resolved(Resolved(Empty(), es[0], session, scope), es[1], session, scope)
  {
    assert After(es, 0, session, scope) == Empty();
  }

  lemma ThreeSteps(es: seq<ToolEvent>, session: string, scope: string)
    requires |es| == 3
    ensures After(es, 1, session, scope) == Resolved(Empty(), es[0], session, scope)
    ensures After(es, 3, session, scope)
         == Resolved(Resolved(Resolved(Empty(), es[0], session, scope), es[1], session, scope), es[2], session, scope)
  {
    TwoSteps(es, session, scope);
  }
}
