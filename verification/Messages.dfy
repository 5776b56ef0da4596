/** Conversation messages and the few metadata fields the compaction engine reads. */
module Messages {
  import opened Options

  datatype Role = System | User | Assistant | Tool | OtherRole(name: string)

  /** One operator utterance with its provenance. */
  datatype Record = Record(source: string, timestamp: string, text: string)

  /** What a compaction summary message carries besides its text. */
  datatype SummaryMeta = SummaryMeta(
    records: seq<Record>, omitted: int, round: nat, preCount: nat, postCount: nat)

  datatype Message = Message(
    role: Role,
    content: string,
    toolCallId: Option<string>,     // a tool result names the call it answers
    toolCalls: seq<string>,         // the ids of the calls an assistant makes
    ctxIds: seq<string>,            // context-ledger entries
    taskId: Option<string>,         // hub task, already trimmed
    hubFrom: string,                // sender shown in the task reminder
    reminder: bool,                 // the synthetic task reminder
    excerpt: bool,                  // a shortened task assignment
    summary: Option<SummaryMeta>,   // set on compaction summaries only
    operatorInputs: seq<Record>)

  /** A message with no metadata. */
  function Plain(role: Role, content: string): Message {
    Message(role, content, None, [], [], None, "unknown", false, false, None, [])
  }

  predicate IsToolResult(m: Message) {
    m.role == Tool || m.toolCallId.Some?
  }

  predicate HasToolCalls(m: Message) {
    m.role == Assistant && m.toolCalls != []
  }

  function Chars(h: seq<Message>): nat {
    if h == [] then 0 else |h[0].content| + Chars(h[1..])
  }

  /** The local token estimate: three characters a token, rounded down. */
  function Estimate(h: seq<Message>): nat {
    Chars(h) / 3
  }

  lemma {:induction false} CharsConcat(a: seq<Message>, b: seq<Message>)
    ensures Chars(a + b) == Chars(a) + Chars(b)
  {
    if a == [] {
      assert a + b == b;
    } else {
      assert (a + b)[1..] == a[1..] + b;
      CharsConcat(a[1..], b);
    }
  }

  /** One message weighs its characters, and the estimate is a third of them, rounded down. */
  lemma EstimateIsThird(m: Message, h: seq<Message>)
    ensures Chars([m]) == |m.content| && Chars([]) == 0
    ensures 3 * Estimate(h) <= Chars(h) < 3 * Estimate(h) + 3
  {
    assert [m][1..] == [];
  }

  /** Messages that are not task reminders, in order. */
  function NoReminders(h: seq<Message>): (r: seq<Message>)
    ensures |r| <= |h|
  {
    if h == [] then []
    else if h[0].reminder then NoReminders(h[1..])
    else [h[0]] + NoReminders(h[1..])
  }

  function Reminders(h: seq<Message>): seq<Message> {
    if h == [] then []
    else if h[0].reminder then [h[0]] + Reminders(h[1..])
    else Reminders(h[1..])
  }

  lemma {:induction false} NoRemindersConcat(a: seq<Message>, b: seq<Message>)
    ensures NoReminders(a + b) == NoReminders(a) + NoReminders(b)
  {
    if a == [] {
      assert a + b == b;
    } else {
      var m, rest := a[0], a[1..];
      assert (a + b)[0] == m && (a + b)[1..] == rest + b;
      NoRemindersConcat(rest, b);
      if !m.reminder {
        assert NoReminders(a + b) == [m] + (NoReminders(rest) + NoReminders(b));
      }
    }
  }

  lemma {:induction false} RemindersConcat(a: seq<Message>, b: seq<Message>)
    ensures Reminders(a + b) == Reminders(a) + Reminders(b)
  {
    if a == [] {
      assert a + b == b;
    } else {
      var m, rest := a[0], a[1..];
      assert (a + b)[0] == m && (a + b)[1..] == rest + b;
      RemindersConcat(rest, b);
      if m.reminder {
        assert Reminders(a + b) == [m] + (Reminders(rest) + Reminders(b));
      }
    }
  }

  lemma FilterConcat(a: seq<Message>, b: seq<Message>)
    ensures NoReminders(a + b) == NoReminders(a) + NoReminders(b)
    ensures Reminders(a + b) == Reminders(a) + Reminders(b)
  {
    NoRemindersConcat(a, b);
    RemindersConcat(a, b);
  }

  /** The two filters share out the list by the reminder flag. */
  lemma {:induction false} FilterMembers(h: seq<Message>, m: Message)
    ensures m in NoReminders(h) <==> m in h && !m.reminder
    ensures m in Reminders(h) <==> m in h && m.reminder
  {
    if h != [] {
      FilterMembers(h[1..], m);
      assert m in h <==> m == h[0] || m in h[1..];
    }
  }

  /** A list without reminders is its own filtrate. */
  lemma {:induction false} NothingToFilter(h: seq<Message>)
    requires forall m :: m in h ==> !m.reminder
    ensures NoReminders(h) == h
    ensures Reminders(h) == []
  {
    if h != [] {
      NothingToFilter(h[1..]);
    }
  }
}
