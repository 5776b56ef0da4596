/** Hub control blocks copied into the summary: the newest ones within a block and a character budget. */
module Coordination {
  import opened Text

  const MAX_PRESERVED_COORDINATION_MESSAGES := 32
  const MAX_PRESERVED_COORDINATION_CHARS := 16000
  const TRUNCATED: string := "\n[coordination block truncated for bounded compaction]"

  /** A block cut to exactly `available` characters, ending in the notice where that fits. */
  function Excerpt(block: string, available: nat): (r: string)
    requires 0 < available < |block|
    ensures |r| == available
    ensures available > |TRUNCATED| ==> exists k :: 0 <= k < available && r == block[..k] + TRUNCATED
  {
    var kept := if available > |TRUNCATED| then available - |TRUNCATED| else 0;
    (block[..kept] + TRUNCATED)[..available]
  }

  function Newest(blocks: seq<string>): (r: seq<string>)
    ensures |r| <= MAX_PRESERVED_COORDINATION_MESSAGES && |r| <= |blocks|
    ensures r == blocks[|blocks| - |r|..]
  {
    if |blocks| > MAX_PRESERVED_COORDINATION_MESSAGES then blocks[|blocks| - MAX_PRESERVED_COORDINATION_MESSAGES..]
        else blocks
  }

  /** Characters used: the blocks and two for each gap between them. */
  function Total(selected: seq<string>): nat {
    if selected == [] then 0
    else if |selected| == 1 then |selected[0]|
    else |selected[0]| + 2 + Total(selected[1..])
  }

  method SelectBlocks(blocks: seq<string>) returns (selected: seq<string>)
    ensures IsSelection(blocks, selected)
  {
    hide Excerpt, Total, IsSelection;
    var window := Newest(blocks);
    selected := [];
    var remaining := MAX_PRESERVED_COORDINATION_CHARS;
    var i := |window|;
    TotalOfNone();
    while i > 0
      invariant 0 <= i <= |window|
      invariant selected == window[i..]
      invariant remaining == MAX_PRESERVED_COORDINATION_CHARS - Total(selected) >= 0
    {
      var block := window[i - 1];
      var gap := if selected != [] then 2 else 0;
      var available := remaining - gap;
      if available <= 0 {
        break;
      }
      if |block| > available {
        var excerpt := Excerpt(block, available);
        TotalOfOneMore(excerpt, selected);
        CutSelection(blocks, i, excerpt);
        return [excerpt] + selected;
      }
      TotalOfOneMore(block, selected);
      selected := [block] + selected;
      remaining := remaining - (|block| + gap);
      i := i - 1;
    }
    WholeSelection(blocks, i);
  }

  lemma TotalOfNone()
    ensures Total([]) == 0
  {
  }

  lemma WholeSelection(blocks: seq<string>, i: nat)
    requires i <= |Newest(blocks)|
    requires var t := Total(Newest(blocks)[i..]);
             t <= MAX_PRESERVED_COORDINATION_CHARS && (i > 0 ==> t + 2 >= MAX_PRESERVED_COORDINATION_CHARS)
    ensures IsSelection(blocks, Newest(blocks)[i..])
  {
    hide Total;
    var selected := Newest(blocks)[i..];
    assert selected == blocks[|blocks| - |selected|..];
  }

  lemma CutSelection(blocks: seq<string>, i: nat, excerpt: string)
    requires 0 < i <= |Newest(blocks)|
    requires 0 < |excerpt| < |Newest(blocks)[i - 1]| && excerpt == Excerpt(Newest(blocks)[i - 1], |excerpt|)
    requires Total([excerpt] + Newest(blocks)[i..]) == MAX_PRESERVED_COORDINATION_CHARS
    ensures IsSelection(blocks, [excerpt] + Newest(blocks)[i..])
  {
    hide Total, Excerpt;
    var later := Newest(blocks)[i..];
    assert later == blocks[|blocks| - |later|..];
    assert Newest(blocks)[i - 1] == blocks[|blocks| - |later| - 1];
  }

  lemma TotalOfOneMore(b: string, rest: seq<string>)
    ensures Total([b] + rest) == |b| + (if rest == [] then 0 else 2) + Total(rest)
  {
    assert ([b] + rest)[1..] == rest;
  }

  /**
   * A contiguous run of the newest blocks, at most 32, in their order, within the budget; only the
   * oldest may be cut, and then to what is left of the budget; older blocks are left out only when
   * nothing of the budget is left for them.
   */
  ghost predicate IsSelection(blocks: seq<string>, selected: seq<string>) {
    var n, k := |blocks|, |selected|;
    && k <= |Newest(blocks)| <= MAX_PRESERVED_COORDINATION_MESSAGES
    && Total(selected) <= MAX_PRESERVED_COORDINATION_CHARS
    && (forall i :: 1 <= i < k ==> selected[i] == blocks[n - k + i])
    && (k > 0 && selected[0] != blocks[n - k] ==>
          && Total(selected) == MAX_PRESERVED_COORDINATION_CHARS
          && 0 < |selected[0]| < |blocks[n - k]| && selected[0] == Excerpt(blocks[n - k], |selected[0]|))
    && (k < |Newest(blocks)| ==> Total(selected) + 2 >= MAX_PRESERVED_COORDINATION_CHARS)
  }

  lemma {:induction false} TotalAtLeast(s: seq<string>, i: nat)
    requires i <= |s| && forall j :: 0 <= j < |s| ==> s[j] != ""
    ensures 0 < i < |s| ==> Total(s) > Total(s[i..]) + 2
  {
    if 0 < i < |s| {
      assert s == [s[0]] + s[1..];
      TotalOfOneMore(s[0], s[1..]);
      TotalAtLeast(s[1..], i - 1);
      assert s[1..][i - 1..] == s[i..];
      assert i == 1 ==> s[1..] == s[i..];
    }
  }

  /** A longer selection leaves room beside the newest k blocks. */
  lemma RoomBeside(blocks: seq<string>, b: seq<string>, k: nat)
    requires forall j :: 0 <= j < |blocks| ==> blocks[j] != ""
    requires IsSelection(blocks, b) && 0 < k < |b|
    ensures Total(blocks[|blocks| - k..]) + 2 < MAX_PRESERVED_COORDINATION_CHARS
  {
    hide Excerpt, Total;
    assert b[|b| - k..] == blocks[|blocks| - k..];
    TotalAtLeast(b, |b| - k);
  }

  /** A selection that stops early leaves none beside its blocks. */
  lemma NoRoomBeside(blocks: seq<string>, a: seq<string>)
    requires IsSelection(blocks, a) && 0 < |a| < |Newest(blocks)|
    ensures Total(blocks[|blocks| - |a|..]) + 2 >= MAX_PRESERVED_COORDINATION_CHARS
  {
    hide Excerpt, Total;
    var whole := blocks[|blocks| - |a|..];
    assert a[1..] == whole[1..];
    TotalGrows(a, whole);
    assert a[0] == whole[0] ==> a == whole;
  }

  lemma SelectionLonger(blocks: seq<string>, a: seq<string>, b: seq<string>)
    requires forall j :: 0 <= j < |blocks| ==> blocks[j] != ""
    requires IsSelection(blocks, a) && IsSelection(blocks, b)
    ensures |a| >= |b|
  {
    hide Excerpt, Total;
    TotalOfNone();
    if 0 < |a| < |b| {
      RoomBeside(blocks, b, |a|);
      NoRoomBeside(blocks, a);
    }
  }

  lemma TotalGrows(s: seq<string>, t: seq<string>)
    requires |s| == |t| > 0 && s[1..] == t[1..]
    ensures Total(s) - |s[0]| == Total(t) - |t[0]|
  {
  }

  /** The oldest selected block is whole when it fits, and otherwise cut to what is left. */
  lemma OldestIsForced(blocks: seq<string>, a: seq<string>)
    requires IsSelection(blocks, a) && a != []
    ensures var whole := blocks[|blocks| - |a|..];
            && a[1..] == whole[1..]
            && (Total(whole) <= MAX_PRESERVED_COORDINATION_CHARS ==> a[0] == whole[0])
            && (Total(whole) > MAX_PRESERVED_COORDINATION_CHARS ==>
                  var n := |whole[0]| - (Total(whole) - MAX_PRESERVED_COORDINATION_CHARS);
                  0 < n < |whole[0]| && a[0] == Excerpt(whole[0], n))
  {
    hide Excerpt, Total;
    var whole := blocks[|blocks| - |a|..];
    assert a[1..] == whole[1..];
    TotalGrows(a, whole);
    assert a[0] == whole[0] ==> a == whole;
  }

  /** For non-empty blocks the selection is determined. */
  lemma SelectionUnique(blocks: seq<string>, a: seq<string>, b: seq<string>)
    requires forall j :: 0 <= j < |blocks| ==> blocks[j] != ""
    requires IsSelection(blocks, a) && IsSelection(blocks, b)
    ensures a == b
  {
    hide Excerpt, Total, IsSelection;
    SelectionLonger(blocks, a, b);
    SelectionLonger(blocks, b, a);
    if a != [] {
      OldestIsForced(blocks, a);
      OldestIsForced(blocks, b);
      assert a == [a[0]] + a[1..] && b == [b[0]] + b[1..];
    }
  }

  /** As they stand in the summary, five characters apart, the blocks take up to 93 characters more. */
  lemma {:induction false} JoinedLength(selected: seq<string>)
    ensures |Join("\n---\n", selected)| == Total(selected) + if selected == [] then 0 else 3 * (|selected| - 1)
  {
    if |selected| > 1 {
      JoinedLength(selected[1..]);
    }
  }

  lemma SelectionFits(blocks: seq<string>, selected: seq<string>)
    requires IsSelection(blocks, selected)
    ensures |selected| <= 32 && Total(selected) <= 16_000 && |Join("\n---\n", selected)| <= 16_093
  {
    hide Join, Total, Excerpt;
    JoinedLength(selected);
  }
}
