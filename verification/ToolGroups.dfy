/**
 * Tool groups: an assistant message with tool calls and the results that answer them.
 * A provider rejects a tool result whose call is gone, so the compaction cut must never
 * fall inside a group.
 */
module ToolGroups {
  import opened Options
  import opened Messages

  // ---------------------------------------------------------------- the shape

  /** The assistant at j made the call answered at i, with only tool results in between. */
  ghost predicate Owns(h: seq<Message>, j: int, i: int) {
    && 0 <= j < i < |h|
    && HasToolCalls(h[j])
    && h[i].toolCallId.Some? && h[i].toolCallId.value in h[j].toolCalls
    && forall k :: j < k < i ==> IsToolResult(h[k])
  }

  /** Every tool-role message follows the assistant that called it through an unbroken run. */
  ghost predicate Paired(h: seq<Message>) {
    forall i :: 0 <= i < |h| && h[i].role == Tool ==> exists j :: Owns(h, j, i)
  }

  // ---------------------------------------------------------------- the cut

  /** The nearest index at or before i that does not start on a tool result. */
  function WalkBack(h: seq<Message>, i: nat): (r: nat)
    requires i < |h|
    ensures r <= i
    ensures r == 0 || !IsToolResult(h[r])
    ensures forall k :: r < k <= i ==> IsToolResult(h[k])
  {
    if i > 0 && IsToolResult(h[i]) then WalkBack(h, i - 1) else i
  }

  /** Where compaction cuts to keep `keep` messages; None where the program indexes past the end. */
  function SplitPoint(h: seq<Message>, keep: int): Option<nat> {
    if |h| <= keep then Some(0)
    else if keep <= 0 then None
    else
      var s := WalkBack(h, |h| - keep);
      Some(if s > 0 && HasToolCalls(h[s - 1]) then WalkBack(h, s - 1) else s)
  }

  method FindSplitPoint(h: seq<Message>, keep: int) returns (r: Option<nat>)
    ensures r == SplitPoint(h, keep)
  {
    if |h| <= keep {
      return Some(0);
    }
    var split := |h| - keep;
    if split >= |h| {
      return None;  // the program's first history[split] is out of range
    }
    split := WalkBackLoop(h, split);
    if split > 0 && HasToolCalls(h[split - 1]) {
      split := WalkBackLoop(h, split - 1);
    }
    return Some(split);
  }

  method WalkBackLoop(h: seq<Message>, start: nat) returns (split: nat)
    requires start < |h|
    ensures split == WalkBack(h, start)
  {
    split := start;
    while split > 0 && IsToolResult(h[split])
      invariant split <= start
      invariant WalkBack(h, start) == WalkBack(h, split)
    {
      split := split - 1;
    }
  }

  /** The cut exists exactly when something is asked to be kept (or nothing needs cutting). */
  lemma SplitDefined(h: seq<Message>, keep: int)
    ensures SplitPoint(h, keep).Some? <==> keep > 0 || |h| <= keep
  {
  }

  /**
   * The cut keeps at least `keep` messages, never starts on a tool result, and goes back no
   * further than tool groups demand: each message it pulls in makes calls or is followed by a result.
   * It stops right after a message that makes calls only when it has pulled another such message in.
   */
  lemma SplitIsTight(h: seq<Message>, keep: int)
    requires SplitPoint(h, keep).Some?
    ensures var r := SplitPoint(h, keep).value;
            && r <= |h|
            && (if keep < |h| then r <= |h| - keep else r == 0)
            && (r == 0 || (r < |h| && !IsToolResult(h[r])))
            && (keep < |h| ==> forall i :: r <= i < |h| - keep ==> HasToolCalls(h[i]) || IsToolResult(h[i + 1]))
            && (0 < r && keep < |h| && HasToolCalls(h[r - 1]) ==> exists i :: r <= i < |h| - keep && HasToolCalls(h[i]))
  {
    if keep < |h| {
      var n := |h| - keep;
      var s := WalkBack(h, n);
      var r := SplitPoint(h, keep).value;
      forall i | r <= i < n
        ensures HasToolCalls(h[i]) || IsToolResult(h[i + 1])
      {
        assert s < i + 1 <= n ==> IsToolResult(h[i + 1]);
        assert r < i + 1 <= s - 1 ==> IsToolResult(h[i + 1]);
      }
    }
  }

  // ------------------------------------------- pairing as one left-to-right scan

  /** Calls still answerable at the end of h. */
  ghost function Open(h: seq<Message>): set<string> {
    if h == [] then {}
    else
      var m := h[|h| - 1];
      (if HasToolCalls(m) then set c | c in m.toolCalls else {})
      + (if IsToolResult(m) then Open(h[..|h| - 1]) else {})
  }

  ghost predicate Answered(h: seq<Message>, i: nat)
    requires i < |h|
  {
    h[i].role == Tool ==> h[i].toolCallId.Some? && h[i].toolCallId.value in Open(h[..i])
  }

  ghost predicate Scanned(h: seq<Message>) {
    forall i :: 0 <= i < |h| ==> Answered(h, i)
  }

  lemma {:induction false} OpenHasOwner(h: seq<Message>, n: nat, c: string)
    requires n <= |h|
    ensures c in Open(h[..n]) <==>
            exists j :: 0 <= j < n && HasToolCalls(h[j]) && c in h[j].toolCalls
                        && forall k :: j < k < n ==> IsToolResult(h[k])
  {
    if n > 0 {
      OpenHasOwner(h, n - 1, c);
      assert h[..n][..n - 1] == h[..n - 1];
      var m := h[n - 1];
      if c in Open(h[..n]) {
        if HasToolCalls(m) && c in m.toolCalls {
          assert HasToolCalls(h[n - 1]) && c in h[n - 1].toolCalls;
        } else {
          var j :| 0 <= j < n - 1 && HasToolCalls(h[j]) && c in h[j].toolCalls
                   && forall k :: j < k < n - 1 ==> IsToolResult(h[k]);
          assert forall k :: j < k < n ==> IsToolResult(h[k]);
        }
      }
    }
  }

  /** The declarative shape and the scan agree. */
  lemma PairedIsScanned(h: seq<Message>)
    ensures Paired(h) <==> Scanned(h)
  {
    forall i | 0 <= i < |h|
      ensures (h[i].role == Tool ==> exists j :: Owns(h, j, i)) <==> Answered(h, i)
    {
      if h[i].toolCallId.Some? {
        OpenHasOwner(h, i, h[i].toolCallId.value);
        if Answered(h, i) && h[i].role == Tool {
          var c := h[i].toolCallId.value;
          var j :| 0 <= j < i && HasToolCalls(h[j]) && c in h[j].toolCalls
                   && forall k :: j < k < i ==> IsToolResult(h[k]);
          assert Owns(h, j, i);
        }
      }
    }
  }

  lemma {:induction false} OpenOfSuffix(a: seq<Message>, b: seq<Message>)
    ensures Open(b) <= Open(a + b)
    ensures b != [] && !IsToolResult(b[0]) ==> Open(a + b) == Open(b)
  {
    if b != [] {
      var n := |b| - 1;
      assert (a + b)[..|a + b| - 1] == a + b[..n];
      OpenOfSuffix(a, b[..n]);
    }
  }

  /** Two well-shaped histories joined are well shaped. */
  lemma PairedConcat(a: seq<Message>, b: seq<Message>)
    requires Paired(a) && Paired(b)
    ensures Paired(a + b)
  {
    PairedIsScanned(a);
    PairedIsScanned(b);
    forall i | 0 <= i < |a + b|
      ensures Answered(a + b, i)
    {
      if i < |a| {
        assert (a + b)[..i] == a[..i];
        assert Answered(a, i);
      } else {
        assert (a + b)[..i] == a + b[..i - |a|];
        OpenOfSuffix(a, b[..i - |a|]);
        assert Answered(b, i - |a|);
      }
    }
    PairedIsScanned(a + b);
  }

  /** Cutting where no tool result starts leaves both halves well shaped. */
  lemma PairedCut(h: seq<Message>, r: nat)
    requires Paired(h) && r <= |h|
    requires r == 0 || r == |h| || !IsToolResult(h[r])
    ensures Paired(h[..r]) && Paired(h[r..])
  {
    PairedIsScanned(h);
    forall i | 0 <= i < r
      ensures Answered(h[..r], i)
    {
      assert h[..r][..i] == h[..i];
      assert Answered(h, i);
    }
    PairedIsScanned(h[..r]);
    forall i | 0 <= i < |h| - r
      ensures Answered(h[r..], i)
    {
      assert Answered(h, r + i);
      assert h[..r + i] == h[..r] + h[r..r + i];
      assert h[r..][..i] == h[r..r + i];
      if i > 0 {
        OpenOfSuffix(h[..r], h[r..r + i]);
        assert h[..0] + h[0..i] == h[0..i];
      }
    }
    PairedIsScanned(h[r..]);
  }

  lemma {:induction false} OpenWithoutReminders(h: seq<Message>)
    requires forall m :: m in h && m.reminder ==> !HasToolCalls(m)
    ensures Open(h) <= Open(NoReminders(h))
  {
    if h != [] {
      var p, m := h[..|h| - 1], h[|h| - 1];
      assert h == p + [m];
      FilterConcat(p, [m]);
      OpenWithoutReminders(p);
      if !m.reminder {
        assert NoReminders(h) == NoReminders(p) + [m];
        assert NoReminders(h)[..|NoReminders(h)| - 1] == NoReminders(p);
      } else {
        assert NoReminders(h) == NoReminders(p);
      }
    }
  }

  lemma {:induction false} OpenGrows(a: seq<Message>, a': seq<Message>, b: seq<Message>)
    requires Open(a) <= Open(a')
    ensures Open(a + b) <= Open(a' + b)
  {
    if b == [] {
      assert a + b == a && a' + b == a';
    } else {
      var n := |b| - 1;
      assert (a + b)[..|a + b| - 1] == a + b[..n];
      assert (a' + b)[..|a' + b| - 1] == a' + b[..n];
      OpenGrows(a, a', b[..n]);
    }
  }

  lemma {:induction false} ScannedWithoutReminders(h: seq<Message>)
    requires Scanned(h)
    requires forall m :: m in h && m.reminder ==> !HasToolCalls(m)
    ensures Scanned(NoReminders(h))
  {
    if h != [] {
      var n := |h| - 1;
      var p, m := h[..n], h[n];
      assert h == p + [m];
      FilterConcat(p, [m]);
      forall i | 0 <= i < n
        ensures Answered(p, i)
      {
        assert p[..i] == h[..i];
        assert Answered(h, i);
      }
      ScannedWithoutReminders(p);
      OpenWithoutReminders(p);
      var f := NoReminders(p);
      if m.reminder {
        assert NoReminders(h) == f;
      } else {
        assert NoReminders(h) == f + [m];
        assert Answered(h, n);
        forall i | 0 <= i <= |f|
          ensures Answered(f + [m], i)
        {
          assert (f + [m])[..i] == f[..i];
          assert f[..|f|] == f;
          assert i < |f| ==> Answered(f, i);
        }
      }
    }
  }

  /** Removing task reminders, which make no calls, from the front part never orphans a tool result. */
  lemma PairedWithoutReminders(a: seq<Message>, b: seq<Message>)
    requires Paired(a + b)
    requires forall m :: m in a && m.reminder ==> !HasToolCalls(m)
    ensures Paired(NoReminders(a) + b)
  {
    var h, a' := a + b, NoReminders(a);
    PairedIsScanned(h);
    forall i | 0 <= i < |a|
      ensures Answered(a, i)
    {
      assert a[..i] == h[..i];
      assert Answered(h, i);
    }
    ScannedWithoutReminders(a);
    OpenWithoutReminders(a);
    forall i | 0 <= i < |a' + b|
      ensures Answered(a' + b, i)
    {
      if i < |a'| {
        assert (a' + b)[..i] == a'[..i];
        assert Answered(a', i);
      } else {
        var k := i - |a'|;
        assert (a' + b)[..i] == a' + b[..k] && h[..|a| + k] == a + b[..k];
        OpenGrows(a, a', b[..k]);
        assert Answered(h, |a| + k);
      }
    }
    PairedIsScanned(a' + b);
  }

  /** Past a message that is no tool result, nothing earlier matters. */
  lemma {:induction false} OpenForgets(x: seq<Message>, y: seq<Message>, b: seq<Message>, j: nat)
    requires j < |b| && !IsToolResult(b[j])
    ensures Open(x + b) == Open(y + b)
  {
    var n := |b| - 1;
    assert (x + b)[..|x + b| - 1] == x + b[..n];
    assert (y + b)[..|y + b| - 1] == y + b[..n];
    if j < n {
      OpenForgets(x, y, b[..n], j);
    }
  }

  /** The tool results that directly follow the cut at k, up to and including i. */
  predicate Leads(h: seq<Message>, k: nat, i: nat)
    requires k <= i < |h|
  {
    forall j :: k <= j <= i ==> IsToolResult(h[j])
  }

  /** If the message at i is a tool result, its call is open after the front and the messages from k to i. */
  ghost predicate FindsCall(front: seq<Message>, h: seq<Message>, k: nat, i: nat)
    requires k <= i < |h|
  {
    h[i].role == Tool ==> h[i].toolCallId.Some? && h[i].toolCallId.value in Open(front + h[k..i])
  }

  lemma SpliceAnswered(front: seq<Message>, h: seq<Message>, k: nat, i: nat)
    requires Scanned(h) && k <= i < |h|
    ensures Answered(front + h[k..], |front| + i - k) <==> FindsCall(front, h, k, i)
    ensures !Leads(h, k, i) ==> FindsCall(front, h, k, i)
  {
    var r := front + h[k..];
    assert r[|front| + i - k] == h[i] && r[..|front| + i - k] == front + h[k..i];
    assert h[..i] == h[..k] + h[k..i];
    assert Answered(h, i);
    if h[i].role == Tool && !Leads(h, k, i) {
      var j :| k <= j <= i && !IsToolResult(h[j]);
      OpenForgets(h[..k], front, h[k..i], j - k);
    }
  }

  /**
   * Putting another front before the messages from k on keeps the shape exactly when the tool results
   * right after the cut, if any, still find their calls open at the end of that front.
   */
  lemma SpliceKeepsPairsIff(front: seq<Message>, h: seq<Message>, k: nat)
    requires Paired(front) && Paired(h) && k <= |h|
    ensures Paired(front + h[k..]) <==> forall i :: k <= i < |h| && Leads(h, k, i) ==> FindsCall(front, h, k, i)
  {
    hide Paired, Owns, Leads, FindsCall;
    var r := front + h[k..];
    PairedIsScanned(front);
    PairedIsScanned(h);
    PairedIsScanned(r);
    forall i | 0 <= i < |front|
      ensures Answered(r, i)
    {
      assert r[..i] == front[..i];
      assert Answered(front, i);
    }
    forall i | |front| <= i < |r|
      ensures Answered(r, i) <==> FindsCall(front, h, k, i - |front| + k)
    {
      SpliceAnswered(front, h, k, i - |front| + k);
    }
    forall i | k <= i < |h|
      ensures FindsCall(front, h, k, i) <==> Answered(r, |front| + i - k)
      ensures !Leads(h, k, i) ==> FindsCall(front, h, k, i)
    {
      SpliceAnswered(front, h, k, i);
    }
  }

  /** A list with no tool-role message is trivially well shaped. */
  lemma PairedWithoutTools(h: seq<Message>)
    requires forall m :: m in h ==> m.role != Tool
    ensures Paired(h)
  {
  }

  /** The shape depends on roles, call ids and calls alone. */
  predicate SameShape(a: seq<Message>, b: seq<Message>) {
    && |a| == |b|
    && forall i :: 0 <= i < |a|
        ==> a[i].role == b[i].role && a[i].toolCallId == b[i].toolCallId && a[i].toolCalls == b[i].toolCalls
  }

  lemma SameShapePaired(a: seq<Message>, b: seq<Message>)
    requires SameShape(a, b) && Paired(a)
    ensures Paired(b)
  {
    forall i | 0 <= i < |b| && b[i].role == Tool
      ensures exists j :: Owns(b, j, i)
    {
      var j :| Owns(a, j, i);
      assert Owns(b, j, i);
    }
  }

  /** An owner that is not in the front is an owner in what follows it. */
  lemma OwnerBehind(front: seq<Message>, h: seq<Message>, j: int, i: int)
    requires Owns(front + h, j, |front| + i) && 0 <= i < |h| && j >= |front|
    ensures Owns(h, j - |front|, i)
  {
    var n, r := |front|, front + h;
    forall k | j - n < k < i
      ensures IsToolResult(h[k])
    {
      assert r[n + k] == h[k];
    }
    assert r[n + i] == h[i] && r[j] == h[j - n];
  }

  /** A front that neither answers nor calls has no say in the shape of what follows. */
  lemma QuietFront(front: seq<Message>, h: seq<Message>)
    requires forall m :: m in front ==> m.role != Tool && !HasToolCalls(m)
    ensures Paired(front + h) <==> Paired(h)
  {
    var n, r := |front|, front + h;
    if Paired(h) {
      PairedWithoutTools(front);
      PairedConcat(front, h);
    }
    if Paired(r) {
      forall i | 0 <= i < |h| && h[i].role == Tool
        ensures exists j :: Owns(h, j, i)
      {
        assert r[n + i] == h[i];
        var j :| Owns(r, j, n + i);
        OwnerNotInFront(front, h, j, n + i);
        OwnerBehind(front, h, j, i);
      }
    }
  }

  lemma OwnerNotInFront(front: seq<Message>, h: seq<Message>, j: int, i: int)
    requires Owns(front + h, j, i) && forall m :: m in front ==> !HasToolCalls(m)
    ensures j >= |front|
  {
    forall k | 0 <= k < |front|
      ensures !HasToolCalls((front + h)[k])
    {
      assert (front + h)[k] == front[k];
    }
  }
}
