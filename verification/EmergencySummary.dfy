/** The recovery note written when summarizing failed: bounded, with the latest user request first. */
module EmergencySummary {
  import opened Options
  import opened Messages
  import opened Text
  import opened CompactedHistory

  const MAX_EMERGENCY_SUMMARY_MESSAGE_CHARS := 8000
  const HEADER: seq<string> :=
    ["Automatic context rollover: the summarization provider failed at the hard prompt budget.",
     "The transcript remains available in the session log; this note preserves the latest user intent."]

  /** A message that may be quoted: its place, its role and its trimmed text. */
  datatype Item = Item(index: nat, role: Role, text: string)

  function Label(role: Role): string {
    match role
    case System => "system"
    case User => "user"
    case Assistant => "assistant"
    case Tool => "tool"
    case OtherRole(name) => name
  }

  /** Synthetic messages, other roles, empty texts and what the hub heuristic rejects are passed over. */
  predicate Eligible(m: Message, direct: Message -> bool) {
    && m.summary == None && !m.reminder && !m.excerpt
    && (m.role == User || m.role == Assistant)
    && Strip(m.content) != "" && direct(m)
  }

  function Items(ms: seq<Message>, direct: Message -> bool): seq<Item> {
    if ms == [] then []
    else
      var n := |ms| - 1;
      Items(ms[..n], direct) + (if Eligible(ms[n], direct) then [Item(n, ms[n].role, Strip(ms[n].content))] else [])
  }

  /** The last item written by the user. */
  function LatestUser(items: seq<Item>): Option<Item> {
    if items == [] then None
    else if items[|items| - 1].role == User then Some(items[|items| - 1])
    else LatestUser(items[..|items| - 1])
  }

  /** Newest first, without the item at the given index. */
  function ReversedWithout(items: seq<Item>, skip: Option<Item>): seq<Item> {
    if items == [] then []
    else
      var last := items[|items| - 1];
      (if skip.Some? && skip.value.index == last.index then [] else [last])
          + ReversedWithout(items[..|items| - 1], skip)
  }

  /** The latest user request, then the newest eight others in reverse order. */
  function Ordered(items: seq<Item>): seq<Item> {
    var latest := LatestUser(items);
    var recent := if |items| > 8 then items[|items| - 8..] else items;
    (if latest.Some? then [latest.value] else []) + ReversedWithout(recent, latest)
  }

  function Cap(room: nat, isLatest: bool): nat {
    if !isLatest && room > 1200 then 1200 else room
  }

  function Shorten(s: string, n: nat): (r: string)
    ensures r <= s && |r| <= n
    ensures |s| <= n ==> r == s
  {
    if |s| <= n then s else s[..n]
  }

  /** The line for an item when `room` characters are left, its line break not counted. */
  function LineFor(item: Item, room: int, latest: Option<Item>): Option<string> {
    var prefix := "[" + Label(item.role) + "] ";
    if room <= |prefix| then None
    else Some(prefix + Shorten(item.text, Cap(room - |prefix|, latest.Some? && item.index == latest.value.index)))
  }

  /** Lines as long as they fit; the first that cannot start ends the note. */
  function BodyLines(items: seq<Item>, limit: nat, used: nat, latest: Option<Item>): seq<string> {
    if items == [] then []
    else
      var line := LineFor(items[0], limit - used - 1, latest);
      if line.None? then []
      else [line.value] + BodyLines(items[1..], limit, used + |line.value| + 1, latest)
  }

  function WrapperChars(): nat {
    |SUMMARY_INJECTION_PREFIX| + |SUMMARY_INJECTION_SUFFIX|
  }

  function BodyLimit(maxChars: int): nat {
    if maxChars > WrapperChars() then maxChars - WrapperChars() else 0
  }

  function EmergencyNote(items: seq<Item>, limit: nat): string {
    var header := Join("\n", HEADER);
    if |header| >= limit then header[..limit]
    else Join("\n", HEADER + BodyLines(Ordered(items), limit, |header|, LatestUser(items)))
  }

  lemma {:induction false} JoinSnoc(parts: seq<string>, last: string)
    requires parts != []
    ensures Join("\n", parts + [last]) == Join("\n", parts) + "\n" + last
  {
    if |parts| > 1 {
      assert (parts + [last])[1..] == parts[1..] + [last];
      JoinSnoc(parts[1..], last);
    } else {
      assert (parts + [last])[1..] == [last];
    }
  }

  method BuildEmergencySummary(ms: seq<Message>, maxChars: int, direct: Message -> bool) returns (note: string)
    ensures note == EmergencyNote(Items(ms, direct), BodyLimit(maxChars))
  {
    hide Join, Strip, Ordered, LineFor;
    var limit := BodyLimit(maxChars);
    var lines := HEADER;
    var header := Join("\n", HEADER);
    if |header| >= limit {
      return header[..limit];
    }
    var items: seq<Item> := [];
    for i := 0 to |ms|
      invariant items == Items(ms[..i], direct)
    {
      assert ms[..i + 1][..i] == ms[..i];
      if Eligible(ms[i], direct) {
        items := items + [Item(i, ms[i].role, Strip(ms[i].content))];
      }
    }
    assert ms[..|ms|] == ms;
    var latest, ordered := LatestUser(items), Ordered(items);
    var used: nat := |header|;
    var k := 0;
    while k < |ordered|
      invariant 0 <= k <= |ordered|
      invariant lines + BodyLines(ordered[k..], limit, used, latest)
                == HEADER + BodyLines(ordered, limit, |header|, latest)
    {
      var line := LineFor(ordered[k], limit - used - 1, latest);
      assert ordered[k..][1..] == ordered[k + 1..];
      if line.None? {
        break;
      }
      lines := lines + [line.value];
      used := used + |line.value| + 1;
      k := k + 1;
    }
    assert BodyLines(ordered[k..], limit, used, latest) == [];
    assert lines + [] == lines;
    note := Join("\n", lines);
  }

  // ---------------------------------------------------------------- what the note promises

  lemma {:induction false} BodyFits(lines: seq<string>, items: seq<Item>, limit: nat, used: nat, latest: Option<Item>)
    requires lines != [] && |Join("\n", lines)| == used <= limit
    ensures |Join("\n", lines + BodyLines(items, limit, used, latest))| <= limit
    decreases |items|
  {
    hide Join;
    if items == [] || LineFor(items[0], limit - used - 1, latest).None? {
      assert lines + BodyLines(items, limit, used, latest) == lines;
    } else {
      var line := LineFor(items[0], limit - used - 1, latest).value;
      LineIsShort(items[0], limit - used - 1, latest);
      JoinSnoc(lines, line);
      BodyFits(lines + [line], items[1..], limit, used + |line| + 1, latest);
      assert lines + BodyLines(items, limit, used, latest)
          == lines + [line] + BodyLines(items[1..], limit, used + |line| + 1, latest);
    }
  }

  lemma LineIsShort(item: Item, room: int, latest: Option<Item>)
    requires LineFor(item, room, latest).Some?
    ensures |LineFor(item, room, latest).value| <= room
  {
  }

  /** The note and its injection wrapper never exceed the limit, whatever the messages. */
  lemma NoteIsBounded(items: seq<Item>, maxChars: int)
    ensures |EmergencyNote(items, BodyLimit(maxChars))| <= BodyLimit(maxChars)
    ensures maxChars >= WrapperChars() ==>
              |SUMMARY_INJECTION_PREFIX + EmergencyNote(items, BodyLimit(maxChars))
                  + SUMMARY_INJECTION_SUFFIX| <= maxChars
    ensures maxChars >= WrapperChars() ==>
              |SUMMARY_INJECTION_PREFIX| + BodyLimit(maxChars) + |SUMMARY_INJECTION_SUFFIX| == maxChars
    ensures MAX_EMERGENCY_SUMMARY_MESSAGE_CHARS == 8000 && Label(User) == "user" && Label(Assistant) == "assistant"
  {
    hide Join;
    var limit := BodyLimit(maxChars);
    if |Join("\n", HEADER)| < limit {
      BodyFits(HEADER, Ordered(items), limit, |Join("\n", HEADER)|, LatestUser(items));
    }
  }

  lemma {:induction false} LatestUserIsLast(items: seq<Item>)
    ensures LatestUser(items).None? <==> forall i :: 0 <= i < |items| ==> items[i].role != User
    ensures LatestUser(items).Some? ==>
              exists i :: 0 <= i < |items| && items[i] == LatestUser(items).value && items[i].role == User
                          && forall j :: i < j < |items| ==> items[j].role != User
  {
    if items != [] && items[|items| - 1].role != User {
      var n := |items| - 1;
      LatestUserIsLast(items[..n]);
      if LatestUser(items).Some? {
        var i :| 0 <= i < n && items[..n][i] == LatestUser(items).value && items[..n][i].role == User
                 && forall j :: i < j < n ==> items[..n][j].role != User;
        assert items[i] == LatestUser(items).value;
        forall j | i < j < |items|
          ensures items[j].role != User
        {
          assert j < n ==> items[..n][j].role != User;
        }
      }
    }
  }

  /**
   * When a line fits at all, the latest user request is the first line after the header, and it is
   * cut only when it cannot fit whole.
   */
  lemma LatestRequestComesFirst(items: seq<Item>, limit: nat)
    requires LatestUser(items).Some? && |Join("\n", HEADER)| + 1 + |"[user] "| < limit
    ensures var room := limit - |Join("\n", HEADER)| - 1 - |"[user] "|;
            var body := BodyLines(Ordered(items), limit, |Join("\n", HEADER)|, LatestUser(items));
            && EmergencyNote(items, limit) == Join("\n", HEADER + body) && body != []
            && body[0] == "[user] " + Shorten(LatestUser(items).value.text, room)
            && (body[0] == "[user] " + LatestUser(items).value.text <==> |LatestUser(items).value.text| <= room)
  {
    hide Join, ReversedWithout;
    LatestUserIsLast(items);
    var first := LatestUser(items).value;
    assert Ordered(items)[0] == first && first.role == User;
    assert "[" + Label(User) + "] " == "[user] ";
    FirstLine(first, limit - |Join("\n", HEADER)| - 1);
  }

  lemma FirstLine(item: Item, room: int)
    requires item.role == User && room > |"[user] "|
    ensures LineFor(item, room, Some(item)) == Some("[user] " + Shorten(item.text, room - |"[user] "|))
    ensures "[user] " + Shorten(item.text, room - |"[user] "|) == "[user] " + item.text
            <==> |item.text| <= room - |"[user] "|
  {
    assert "[" + Label(User) + "] " == "[user] ";
    var t := Shorten(item.text, room - |"[user] "|);
    if "[user] " + t == "[user] " + item.text {
      assert |t| == |item.text|;
    }
  }

  /** With the engine's own limit there is always room for the request. */
  lemma HeaderLeavesRoom()
    ensures |Join("\n", HEADER)| + 1 + |"[user] "| < BodyLimit(MAX_EMERGENCY_SUMMARY_MESSAGE_CHARS)
  {
    assert |HEADER| == 2;
    assert HEADER[1..] == [HEADER[1]];
    assert Join("\n", HEADER[1..]) == HEADER[1];
    assert Join("\n", HEADER) == HEADER[0] + "\n" + HEADER[1];
    assert |HEADER[0]| < 100 && |HEADER[1]| < 110;
    assert WrapperChars() < 200;
  }

  lemma {:induction false} JoinCoversFirst(parts: seq<string>)
    requires parts != []
    ensures |Join("\n", parts)| >= |parts[0]|
  {
  }

  /** So the note is never empty, whatever the messages. */
  lemma NoteIsNeverEmpty(items: seq<Item>)
    ensures EmergencyNote(items, BodyLimit(MAX_EMERGENCY_SUMMARY_MESSAGE_CHARS)) != ""
  {
    hide Join, Ordered, LatestUser;
    HeaderLeavesRoom();
    var limit := BodyLimit(MAX_EMERGENCY_SUMMARY_MESSAGE_CHARS);
    var lines := HEADER + BodyLines(Ordered(items), limit, |Join("\n", HEADER)|, LatestUser(items));
    JoinCoversFirst(lines);
    assert lines[0] == HEADER[0] && |HEADER[0]| > 0;
  }

  // ---------------------------------------------------------------- what it quotes

  /** The item is a message that may be quoted: its place, its role and its trimmed text. */
  ghost predicate Stands(x: Item, ms: seq<Message>, direct: Message -> bool) {
    && x.index < |ms| && Eligible(ms[x.index], direct)
    && x.role == ms[x.index].role && x.text == Strip(ms[x.index].content)
  }

  predicate Ascending(items: seq<Item>) {
    forall i, j :: 0 <= i < j < |items| ==> items[i].index < items[j].index
  }

  /** The items are the eligible messages, all of them and in order. */
  lemma {:induction false} ItemsAreMessages(ms: seq<Message>, direct: Message -> bool)
    ensures Ascending(Items(ms, direct)) && forall x :: x in Items(ms, direct) ==> Stands(x, ms, direct)
    ensures forall k :: 0 <= k < |ms| && Eligible(ms[k], direct) ==>
              Item(k, ms[k].role, Strip(ms[k].content)) in Items(ms, direct)
  {
    hide Strip, Eligible;
    if ms != [] {
      var n := |ms| - 1;
      var init := ms[..n];
      ItemsAreMessages(init, direct);
      assert forall k :: 0 <= k < n ==> ms[k] == init[k];
      forall x | x in Items(ms, direct)
        ensures Stands(x, ms, direct)
      {
        assert x in Items(init, direct) ==> Stands(x, init, direct);
      }
      forall i | 0 <= i < |Items(init, direct)|
        ensures Items(init, direct)[i].index < n
      {
        assert Stands(Items(init, direct)[i], init, direct);
      }
    }
  }

  /** A request of the user: no synthetic message, not blank, and not what the hub heuristic rejects. */
  predicate IsRequest(m: Message, direct: Message -> bool) {
    m.role == User && m.summary == None && !m.reminder && !m.excerpt && Strip(m.content) != "" && direct(m)
  }

  lemma RequestHasItem(ms: seq<Message>, direct: Message -> bool, k: nat) returns (a: nat)
    requires k < |ms| && IsRequest(ms[k], direct)
    ensures a < |Items(ms, direct)| && Items(ms, direct)[a] == Item(k, User, Strip(ms[k].content))
  {
    hide Strip, Items;
    ItemsAreMessages(ms, direct);
    assert Item(k, User, Strip(ms[k].content)) in Items(ms, direct);
    a :| 0 <= a < |Items(ms, direct)| && Items(ms, direct)[a] == Item(k, User, Strip(ms[k].content));
  }

  lemma UserItemIsRequest(ms: seq<Message>, direct: Message -> bool, a: nat)
    requires a < |Items(ms, direct)| && Items(ms, direct)[a].role == User
    ensures var x := Items(ms, direct)[a];
            x.index < |ms| && IsRequest(ms[x.index], direct) && x == Item(x.index, User, Strip(ms[x.index].content))
  {
    hide Strip, Items;
    ItemsAreMessages(ms, direct);
    assert Stands(Items(ms, direct)[a], ms, direct);
  }

  /** The request that leads the note is the last one among the messages, whole; without one there is none. */
  lemma LeadingRequestIsLast(ms: seq<Message>, direct: Message -> bool)
    ensures var latest := LatestUser(Items(ms, direct));
            if latest.None? then forall k :: 0 <= k < |ms| ==> !IsRequest(ms[k], direct)
            else
              var i := latest.value.index;
              && i < |ms| && IsRequest(ms[i], direct) && latest.value == Item(i, User, Strip(ms[i].content))
              && forall k :: i < k < |ms| ==> !IsRequest(ms[k], direct)
  {
    hide Strip, Items, IsRequest, LatestUser;
    var items := Items(ms, direct);
    LatestUserIsLast(items);
    ItemsAreMessages(ms, direct);
    var last := -1;
    if LatestUser(items).Some? {
      last :| 0 <= last < |items| && items[last] == LatestUser(items).value && items[last].role == User
              && forall j :: last < j < |items| ==> items[j].role != User;
      UserItemIsRequest(ms, direct, last);
    }
    forall k | 0 <= k < |ms| && (last == -1 || items[last].index < k)
      ensures !IsRequest(ms[k], direct)
    {
      if IsRequest(ms[k], direct) {
        var a := RequestHasItem(ms, direct, k);
      }
    }
  }

  /** The newest eight items. */
  function Newest(items: seq<Item>): seq<Item> {
    if |items| > 8 then items[|items| - 8..] else items
  }

  predicate Descending(items: seq<Item>) {
    forall i, j :: 0 <= i < j < |items| ==> items[i].index > items[j].index
  }

  lemma {:induction false} ReversedMembers(items: seq<Item>, skip: Option<Item>, x: Item)
    ensures x in ReversedWithout(items, skip) <==> x in items && !(skip.Some? && skip.value.index == x.index)
  {
    if items != [] {
      var n := |items| - 1;
      ReversedMembers(items[..n], skip, x);
      assert x in items <==> x in items[..n] || x == items[n];
    }
  }

  lemma {:induction false} ReversedDescends(items: seq<Item>, skip: Option<Item>)
    requires Ascending(items)
    ensures Descending(ReversedWithout(items, skip))
  {
    if items != [] {
      var n := |items| - 1;
      var rest := ReversedWithout(items[..n], skip);
      ReversedDescends(items[..n], skip);
      forall i | 0 <= i < |rest|
        ensures rest[i].index < items[n].index
      {
        ReversedMembers(items[..n], skip, rest[i]);
        var j :| 0 <= j < n && items[j] == rest[i];
      }
    }
  }

  /** After the request the note takes up the newest eight items, newest first, the request not again. */
  lemma OthersNewestFirst(items: seq<Item>, x: Item)
    requires Ascending(items)
    ensures var latest := LatestUser(items);
            var others := if latest.Some? then Ordered(items)[1..] else Ordered(items);
            && (latest.Some? ==> Ordered(items) != [] && Ordered(items)[0] == latest.value)
            && Descending(others)
            && (x in others <==> x in Newest(items) && !(latest.Some? && latest.value.index == x.index))
  {
    hide ReversedWithout, LatestUser;
    var latest := LatestUser(items);
    ReversedMembers(Newest(items), latest, x);
    ReversedDescends(Newest(items), latest);
    var rest := ReversedWithout(Newest(items), latest);
    if latest.Some? {
      assert Ordered(items) == [latest.value] + rest && ([latest.value] + rest)[1..] == rest;
    } else {
      assert Ordered(items) == [] + rest && [] + rest == rest;
    }
  }

  /** Each line names the role and quotes the text from its start: whole, 1200 characters, or until the note is full. */
  lemma {:induction false} LinesQuote(items: seq<Item>, limit: nat, used: nat, latest: Option<Item>, k: nat)
    requires k < |BodyLines(items, limit, used, latest)|
    ensures k < |items|
    ensures exists n :: 0 <= n <= |items[k].text|
              && BodyLines(items, limit, used, latest)[k] == "[" + Label(items[k].role) + "] " + items[k].text[..n]
              && (n == |items[k].text| || n == 1200 || k + 1 == |BodyLines(items, limit, used, latest)|)
    decreases |items|
  {
    hide Label;
    var line := LineFor(items[0], limit - used - 1, latest).value;
    var rest := BodyLines(items[1..], limit, used + |line| + 1, latest);
    if k > 0 {
      LinesQuote(items[1..], limit, used + |line| + 1, latest, k - 1);
    } else {
      var n := LineQuotes(items[0], limit - used - 1, latest);
      if n < |items[0].text| && n != 1200 {
        assert limit - (used + |line| + 1) - 1 < 0;
        NoMoreLines(items[1..], limit, used + |line| + 1, latest);
      }
    }
  }

  lemma NoMoreLines(items: seq<Item>, limit: nat, used: nat, latest: Option<Item>)
    requires limit < used + 1
    ensures BodyLines(items, limit, used, latest) == []
  {
  }

  lemma LineQuotes(item: Item, room: int, latest: Option<Item>) returns (n: nat)
    requires LineFor(item, room, latest).Some?
    ensures n <= |item.text| && LineFor(item, room, latest).value == "[" + Label(item.role) + "] " + item.text[..n]
    ensures n == |item.text| || n == 1200 || |LineFor(item, room, latest).value| == room
  {
    hide Label;
    var prefix := "[" + Label(item.role) + "] ";
    var cap := Cap(room - |prefix|, latest.Some? && item.index == latest.value.index);
    n := if |item.text| <= cap then |item.text| else cap;
    assert item.text[..|item.text|] == item.text;
  }
}
