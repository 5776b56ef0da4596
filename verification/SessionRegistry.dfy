/**
 * The session registry of the agent front end. Requests run as tasks that give way at every await,
 * and every await may succeed, fail or be cancelled.
 */
module SessionRegistry {
  import opened Options

  type Id = string

  /** A client session with its engine: the id it goes by, and whether its engine was shut down. */
  datatype Session = Session(id: Id, dead: bool)

  /** Every session ever created, by position, and the registry that names some of them. */
  datatype Book = Book(all: seq<Session>, sessions: map<Id, nat>)

  /** Where a request waits; a target is the id a restoration has locked. */
  datatype Task =
    | Adopting
    | Opening(it: nat, target: Option<Id>)
    | Saving(it: nat)
    | Resuming(it: nat, id: Id)
    | Replaying(it: nat, id: Id)
    | Closing(it: nat)
    | Stopping(it: nat, target: Option<Id>)
    | Done

  datatype State = State(attach: bool, book: Book, restoring: set<Id>, attaching: bool, tasks: seq<Task>)

  datatype Event =
    | New(uuid: Id)
    | Restore(id: Id, uuid: Id)        // load or resume of an id with a stored conversation
    | Close(id: Id)
    | Drain(it: nat)                   // end of input reaches this session
    | Wake(task: nat, ok: bool, uuid: Id)

  function Registered(b: Book, uuid: Id): Book {
    Book(b.all + [Session(uuid, false)], b.sessions[uuid := |b.all|])
  }

  /** A restoration takes the session from its interim id to the restored one. */
  function Rekeyed(b: Book, it: nat, id: Id): Book
    requires it < |b.all|
  {
    Book(b.all[it := b.all[it].(id := id)], (b.sessions - {b.all[it].id})[id := it])
  }

  predicate Names(b: Book, id: Id, it: nat) {
    id in b.sessions && b.sessions[id] == it
  }

  /** A finished teardown: the session leaves the registry if it is the one its id names. */
  function ShutDown(b: Book, it: nat): Book
    requires it < |b.all|
  {
    var id := b.all[it].id;
    Book(b.all[it := Session(id, true)], if Names(b, id, it) then b.sessions - {id} else b.sessions)
  }

  /** An id that is being restored cannot be used. */
  predicate Usable(s: State, id: Id) {
    id !in s.restoring && id in s.book.sessions
  }

  function Target(t: Task): Option<Id> {
    match t
    case Opening(_, target) => target
    case Resuming(_, id) => Some(id)
    case Replaying(_, id) => Some(id)
    case Stopping(_, target) => target
    case _ => None
  }

  function Spawn(s: State, t: Task): State {
    s.(tasks := s.tasks + [t])
  }

  /** A task moves on; a target it no longer has is unlocked. */
  function Goto(s: State, task: nat, t: Task): State
    requires task < |s.tasks|
  {
    var was := Target(s.tasks[task]);
    s.(tasks := s.tasks[task := t],
       restoring := if was.Some? && Target(t) == None then s.restoring - {was.value} else s.restoring)
  }

  predicate InRange(b: Book, t: Task) {
    t.Adopting? || t.Done? || t.it < |b.all|
  }

  predicate Ranged(s: State) {
    && (forall i :: 0 <= i < |s.tasks| ==> InRange(s.book, s.tasks[i]))
    && (forall k :: k in s.book.sessions ==> s.book.sessions[k] < |s.book.all|)
  }

  function Woken(s: State, task: nat, ok: bool, uuid: Id): State
    requires task < |s.tasks| && InRange(s.book, s.tasks[task])
  {
    match s.tasks[task]
    case Adopting => Goto(s.(attaching := false, book := if ok then Registered(s.book, uuid) else s.book), task, Done)
    case Opening(it, None) => Goto(s, task, if ok then Saving(it) else Stopping(it, None))
    case Opening(it, Some(id)) => Goto(s, task, if ok then Resuming(it, id) else Stopping(it, Some(id)))
    case Saving(it) => Goto(s, task, if ok then Done else Stopping(it, None))
    case Resuming(it, id) =>
      if ok then Goto(s.(book := Rekeyed(s.book, it, id)), task, Replaying(it, id))
      else Goto(s, task, Stopping(it, Some(id)))
    case Replaying(it, id) => Goto(s, task, if ok then Done else Stopping(it, Some(id)))
    case Closing(it) => Goto(s, task, Stopping(it, None))
    case Stopping(it, _) => Goto(s.(book := if ok then ShutDown(s.book, it) else s.book), task, Done)
    case Done => s
  }

  function Step(s: State, e: Event): State
    requires Ranged(s)
  {
    match e
    case New(uuid) =>
      if !s.attach then Spawn(s.(book := Registered(s.book, uuid)), Opening(|s.book.all|, None))
      else if s.book.sessions != map[] || s.attaching then s
      else Spawn(s.(attaching := true), Adopting)
    case Restore(id, uuid) =>
      if s.attach || id in s.book.sessions || id in s.restoring then s
      else Spawn(s.(restoring := s.restoring + {id}, book := Registered(s.book, uuid)), Opening(|s.book.all|, Some(id)))
    case Close(id) => if Usable(s, id) then Spawn(s, Closing(s.book.sessions[id])) else s
    case Drain(it) =>
      if it >= |s.book.all| then s
      else if s.book.all[it].id in s.restoring then Spawn(s, Stopping(it, None))
      else if Usable(s, s.book.all[it].id) then Spawn(s, Closing(s.book.sessions[s.book.all[it].id]))
      else s
    case Wake(task, ok, uuid) => if task < |s.tasks| then Woken(s, task, ok, uuid) else s
  }

  // ---------------------------------------------------------------- the invariant

  /** Every key is the id of its session, and every engine not shut down is registered under its id. */
  predicate Listed(b: Book) {
    && (forall k :: k in b.sessions ==> b.sessions[k] < |b.all| && b.all[b.sessions[k]].id == k)
    && (forall i :: 0 <= i < |b.all| && !b.all[i].dead ==> Names(b, b.all[i].id, i))
  }

  /** The locked ids are exactly the targets, one task each. */
  ghost predicate Locked(tasks: seq<Task>, restoring: set<Id>) {
    && (forall i :: 0 <= i < |tasks| && Target(tasks[i]).Some? ==> Target(tasks[i]).value in restoring)
    && (forall id :: id in restoring ==> exists i :: 0 <= i < |tasks| && Target(tasks[i]) == Some(id))
    && (forall i, j :: 0 <= i < j < |tasks| && Target(tasks[i]).Some? ==> Target(tasks[i]) != Target(tasks[j]))
  }

  /** A restoration that has not yet taken its id. */
  predicate Early(t: Task) {
    (t.Opening? && t.target.Some?) || t.Resuming?
  }

  /** A locked id names no session until its task takes it. */
  predicate Free(tasks: seq<Task>, b: Book) {
    forall i :: 0 <= i < |tasks| && Early(tasks[i]) ==> Target(tasks[i]).value !in b.sessions
  }

  /** Only an attached connection adopts, and only once. */
  predicate OneAdopts(s: State) {
    && (forall i :: 0 <= i < |s.tasks| && s.tasks[i].Adopting? ==> s.attach && s.attaching)
    && (forall i, j :: 0 <= i < j < |s.tasks| ==> !(s.tasks[i].Adopting? && s.tasks[j].Adopting?))
  }

  /** An attached connection restores nothing, and holds one session or adopts one, not both. */
  predicate AtMostOne(s: State) {
    s.attach ==>
      && s.restoring == {}
      && (s.attaching ==> s.book.sessions == map[])
      && forall k, l :: k in s.book.sessions && l in s.book.sessions ==> k == l
  }

  ghost predicate Inv(s: State) {
    Ranged(s) && Listed(s.book) && Locked(s.tasks, s.restoring) && Free(s.tasks, s.book) && OneAdopts(s) && AtMostOne(s)
  }

  predicate Unused(s: State, id: Id) {
    id !in s.book.sessions && id !in s.restoring && forall i :: 0 <= i < |s.book.all| ==> s.book.all[i].id != id
  }

  /** Generated ids are new. */
  predicate Possible(s: State, e: Event) {
    match e
    case New(uuid) => Unused(s, uuid)
    case Restore(id, uuid) => Unused(s, uuid) && uuid != id
    case Wake(_, _, uuid) => Unused(s, uuid)
    case _ => true
  }

  /** A restoration whose await succeeds. */
  predicate Takes(s: State, e: Event) {
    e.Wake? && e.task < |s.tasks| && s.tasks[e.task].Resuming? && e.ok
  }

  /** A restoration finds another live session under the interim id of its own. */
  predicate LosesLive(s: State, e: Event)
    requires Ranged(s)
  {
    Takes(s, e) && Stranger(s.book, s.tasks[e.task].it)
  }

  predicate Stranger(b: Book, it: nat)
    requires it < |b.all| && forall k :: k in b.sessions ==> b.sessions[k] < |b.all|
  {
    var id := b.all[it].id;
    id in b.sessions && b.sessions[id] != it && !b.all[b.sessions[id]].dead
  }

  // ---------------------------------------------------------------- the book

  lemma RegisterLists(b: Book, uuid: Id)
    requires Listed(b) && uuid !in b.sessions && forall i :: 0 <= i < |b.all| ==> b.all[i].id != uuid
    ensures Listed(Registered(b, uuid))
  {
    var b' := Registered(b, uuid);
    forall i | 0 <= i < |b'.all| && !b'.all[i].dead
      ensures Names(b', b'.all[i].id, i)
    {
      assert i < |b.all| ==> b'.all[i] == b.all[i] && Names(b, b.all[i].id, i);
    }
  }

  lemma ShutDownLists(b: Book, it: nat)
    requires Listed(b) && it < |b.all|
    ensures Listed(ShutDown(b, it))
  {
    var b' := ShutDown(b, it);
    forall i | 0 <= i < |b'.all| && !b'.all[i].dead
      ensures Names(b', b'.all[i].id, i)
    {
      assert b'.all[i] == b.all[i] && Names(b, b.all[i].id, i);
    }
  }

  /** Taking an unused id keeps the book right exactly when no live stranger goes by the interim id. */
  lemma RekeyLists(b: Book, it: nat, id: Id)
    requires Listed(b) && it < |b.all| && id !in b.sessions
    ensures Listed(Rekeyed(b, it, id)) <==> !Stranger(b, it)
  {
    var b', u := Rekeyed(b, it, id), b.all[it].id;
    if Stranger(b, it) {
      var o := b.sessions[u];
      assert b'.all[o] == b.all[o] && !Names(b', b'.all[o].id, o);
    } else {
      forall i | 0 <= i < |b'.all| && !b'.all[i].dead
        ensures Names(b', b'.all[i].id, i)
      {
        if i != it {
          assert b'.all[i] == b.all[i] && Names(b, b.all[i].id, i);
        }
      }
    }
  }

  // ---------------------------------------------------------------- the locks

  lemma SpawnLocks(tasks: seq<Task>, restoring: set<Id>, t: Task)
    requires Locked(tasks, restoring) && (Target(t).Some? ==> Target(t).value !in restoring)
    ensures Locked(tasks + [t], if Target(t).Some? then restoring + {Target(t).value} else restoring)
  {
    var tasks' := tasks + [t];
    var r' := if Target(t).Some? then restoring + {Target(t).value} else restoring;
    forall id | id in r'
      ensures exists i :: 0 <= i < |tasks'| && Target(tasks'[i]) == Some(id)
    {
      if id in restoring {
        var i :| 0 <= i < |tasks| && Target(tasks[i]) == Some(id);
        assert tasks'[i] == tasks[i];
      } else {
        assert tasks'[|tasks|] == t;
      }
    }
  }

  lemma GotoLocks(s: State, task: nat, t: Task)
    requires task < |s.tasks| && Locked(s.tasks, s.restoring)
    requires Target(t) == Target(s.tasks[task]) || Target(t) == None
    ensures Locked(Goto(s, task, t).tasks, Goto(s, task, t).restoring)
  {
    var s' := Goto(s, task, t);
    forall id | id in s'.restoring
      ensures exists i :: 0 <= i < |s'.tasks| && Target(s'.tasks[i]) == Some(id)
    {
      var i :| 0 <= i < |s.tasks| && Target(s.tasks[i]) == Some(id);
      assert i != task ==> s'.tasks[i] == s.tasks[i];
      assert i == task ==> Target(s'.tasks[i]) == Some(id);
    }
  }

  // ---------------------------------------------------------------- every step

  /** Only positions in range are used, and the list of sessions only grows. */
  lemma WokenRanged(s: State, task: nat, ok: bool, uuid: Id)
    requires Ranged(s) && task < |s.tasks|
    ensures Ranged(Woken(s, task, ok, uuid))
  {
    var s' := Woken(s, task, ok, uuid);
    if s.tasks[task] != Done {
      assert |s.book.all| <= |s'.book.all| && InRange(s'.book, s'.tasks[task]);
      assert forall i :: 0 <= i < |s.tasks| && i != task ==> s'.tasks[i] == s.tasks[i];
    }
  }

  lemma StepRanged(s: State, e: Event)
    requires Ranged(s)
    ensures Ranged(Step(s, e))
  {
    hide Woken;
    if e.Wake? && e.task < |s.tasks| {
      WokenRanged(s, e.task, e.ok, e.uuid);
    }
  }

  lemma StepListed(s: State, e: Event)
    requires Inv(s) && Possible(s, e)
    ensures Listed(Step(s, e).book) <==> !LosesLive(s, e)
  {
    hide Listed, Locked, OneAdopts, AtMostOne;
    match e
    case New(uuid) => if !s.attach { RegisterLists(s.book, uuid); }
    case Restore(id, uuid) => RegisterLists(s.book, uuid);
    case Wake(task, ok, uuid) =>
      if task < |s.tasks| {
        match s.tasks[task]
        case Adopting => RegisterLists(s.book, uuid);
        case Resuming(it, id) => RekeyLists(s.book, it, id);
        case Stopping(it, _) => ShutDownLists(s.book, it);
        case _ =>
      }
    case _ =>
  }

  lemma StepLocked(s: State, e: Event)
    requires Inv(s) && Possible(s, e)
    ensures Locked(Step(s, e).tasks, Step(s, e).restoring)
  {
    hide Listed, Locked, OneAdopts, AtMostOne, Registered, Rekeyed, ShutDown, Goto;
    match e
    case New(uuid) =>
      SpawnLocks(s.tasks, s.restoring, Opening(|s.book.all|, None));
      SpawnLocks(s.tasks, s.restoring, Adopting);
    case Restore(id, uuid) =>
      if id !in s.restoring {
        SpawnLocks(s.tasks, s.restoring, Opening(|s.book.all|, Some(id)));
      }
    case Close(id) =>
      if Usable(s, id) {
        SpawnLocks(s.tasks, s.restoring, Closing(s.book.sessions[id]));
      }
    case Drain(it) =>
      SpawnLocks(s.tasks, s.restoring, Stopping(it, None));
      if it < |s.book.all| && Usable(s, s.book.all[it].id) {
        SpawnLocks(s.tasks, s.restoring, Closing(s.book.sessions[s.book.all[it].id]));
      }
    case Wake(task, ok, uuid) =>
      if task < |s.tasks| {
        WakeLocked(s, task, ok, uuid);
      }
  }

  lemma WakeLocked(s: State, task: nat, ok: bool, uuid: Id)
    requires Ranged(s) && task < |s.tasks| && Locked(s.tasks, s.restoring)
    ensures Locked(Woken(s, task, ok, uuid).tasks, Woken(s, task, ok, uuid).restoring)
  {
    hide Locked, Registered, Rekeyed, ShutDown;
    if s.tasks[task] != Done {
      var t := Woken(s, task, ok, uuid).tasks[task];
      GotoLocks(s, task, t);
    }
  }

  /** Keys that appear are not locked by anyone. */
  lemma FreeInBook(tasks: seq<Task>, restoring: set<Id>, b: Book, b': Book)
    requires Locked(tasks, restoring) && Free(tasks, b)
    requires forall k :: k in b'.sessions ==> k in b.sessions || k !in restoring
    ensures Free(tasks, b')
  {
  }

  lemma FreeAfterSpawn(tasks: seq<Task>, b: Book, t: Task)
    requires Free(tasks, b) && (Early(t) ==> Target(t).value !in b.sessions)
    ensures Free(tasks + [t], b)
  {
  }

  lemma FreeAfterGoto(s: State, task: nat, t: Task)
    requires task < |s.tasks| && Free(s.tasks, s.book)
    requires Early(t) ==> Early(s.tasks[task]) && Target(t) == Target(s.tasks[task])
    ensures Free(Goto(s, task, t).tasks, s.book)
  {
  }

  lemma FreeAfterTaking(s: State, task: nat)
    requires Inv(s) && task < |s.tasks| && s.tasks[task].Resuming?
    ensures var it, id := s.tasks[task].it, s.tasks[task].id;
            Free(s.tasks[task := Replaying(it, id)], Rekeyed(s.book, it, id))
  {
    hide Listed, OneAdopts, AtMostOne;
    var it, id := s.tasks[task].it, s.tasks[task].id;
    var tasks' := s.tasks[task := Replaying(it, id)];
    forall i | 0 <= i < |tasks'| && Early(tasks'[i])
      ensures Target(tasks'[i]).value !in Rekeyed(s.book, it, id).sessions
    {
      assert i != task && Target(s.tasks[i]) != Target(s.tasks[task]);
    }
  }

  lemma StepFree(s: State, e: Event)
    requires Inv(s) && Possible(s, e)
    ensures Free(Step(s, e).tasks, Step(s, e).book)
  {
    hide Listed, Locked, Free, OneAdopts, AtMostOne;
    match e
    case New(uuid) =>
      var b := Registered(s.book, uuid);
      FreeInBook(s.tasks, s.restoring, s.book, b);
      FreeAfterSpawn(s.tasks, b, Opening(|s.book.all|, None));
      FreeAfterSpawn(s.tasks, s.book, Adopting);
    case Restore(id, uuid) =>
      if id !in s.book.sessions {
        var b := Registered(s.book, uuid);
        FreeInBook(s.tasks, s.restoring, s.book, b);
        FreeAfterSpawn(s.tasks, b, Opening(|s.book.all|, Some(id)));
      }
    case Close(id) =>
      if Usable(s, id) {
        FreeAfterSpawn(s.tasks, s.book, Closing(s.book.sessions[id]));
      }
    case Drain(it) =>
      FreeAfterSpawn(s.tasks, s.book, Stopping(it, None));
      if it < |s.book.all| && Usable(s, s.book.all[it].id) {
        FreeAfterSpawn(s.tasks, s.book, Closing(s.book.sessions[s.book.all[it].id]));
      }
    case Wake(task, ok, uuid) =>
      if task < |s.tasks| {
        WakeFree(s, task, ok, uuid);
      }
  }

  lemma WakeFree(s: State, task: nat, ok: bool, uuid: Id)
    requires Inv(s) && task < |s.tasks| && Unused(s, uuid)
    ensures Free(Woken(s, task, ok, uuid).tasks, Woken(s, task, ok, uuid).book)
  {
    hide Listed, Locked, Free, OneAdopts, AtMostOne;
    var s' := Woken(s, task, ok, uuid);
    if s.tasks[task].Resuming? && ok {
      FreeAfterTaking(s, task);
    } else if s.tasks[task] != Done {
      FreeInBook(s.tasks, s.restoring, s.book, s'.book);
      FreeAfterGoto(s.(book := s'.book), task, s'.tasks[task]);
    }
  }

  lemma WakeOneAdopts(s: State, task: nat, ok: bool, uuid: Id)
    requires Ranged(s) && OneAdopts(s) && task < |s.tasks|
    ensures OneAdopts(Woken(s, task, ok, uuid))
  {
    hide OneAdopts, Registered, Rekeyed, ShutDown;
    if s.tasks[task] != Done {
      var s' := Woken(s, task, ok, uuid);
      OneFewer(s, s', task);
    }
  }

  lemma OneFewer(s: State, s': State, task: nat)
    requires OneAdopts(s) && task < |s.tasks|
    requires |s'.tasks| == |s.tasks| && s'.tasks == s.tasks[task := s'.tasks[task]]
    requires !s'.tasks[task].Adopting? && s'.attach == s.attach
    requires s'.attaching == s.attaching || s.tasks[task].Adopting?
    ensures OneAdopts(s')
  {
    assert forall i :: 0 <= i < |s.tasks| && i != task ==> s'.tasks[i] == s.tasks[i];
  }

  lemma StepOneAdopts(s: State, e: Event)
    requires Inv(s) && Possible(s, e)
    ensures OneAdopts(Step(s, e))
  {
    hide Listed, Locked, Free, Registered, Woken;
    if e.Wake? && e.task < |s.tasks| {
      WakeOneAdopts(s, e.task, e.ok, e.uuid);
    }
  }

  lemma StepAtMostOne(s: State, e: Event)
    requires Inv(s) && Possible(s, e)
    ensures AtMostOne(Step(s, e))
  {
    hide Listed, Free;
    if s.attach && e.Wake? && e.task < |s.tasks| {
      assert Target(s.tasks[e.task]) == None;
    }
  }

  /** Every step keeps the invariant, except exactly one that loses a live session. */
  lemma StepKeepsInvIff(s: State, e: Event)
    requires Inv(s) && Possible(s, e)
    ensures Inv(Step(s, e)) <==> !LosesLive(s, e)
  {
    hide Listed, Locked, Free, OneAdopts, AtMostOne, Step, LosesLive, Possible;
    StepRanged(s, e);
    StepListed(s, e);
    StepLocked(s, e);
    StepFree(s, e);
    StepOneAdopts(s, e);
    StepAtMostOne(s, e);
  }

  // ---------------------------------------------------------------- whole runs

  const NOBODY: Book := Book([], map[])

  ghost predicate IsTrace(ss: seq<State>, es: seq<Event>) {
    && |ss| == |es| + 1 && ss[0] == State(ss[0].attach, NOBODY, {}, false, [])
    && forall i :: 0 <= i < |es| ==> Ranged(ss[i]) && Possible(ss[i], es[i]) && ss[i + 1] == Step(ss[i], es[i])
  }

  /** No restoration of the run finds a live stranger under its interim id. */
  ghost predicate NoneLost(ss: seq<State>, es: seq<Event>)
    requires IsTrace(ss, es)
  {
    forall i :: 0 <= i < |es| ==> !LosesLive(ss[i], es[i])
  }

  lemma {:induction false} TracesKeepInv(ss: seq<State>, es: seq<Event>, n: nat)
    requires IsTrace(ss, es) && n < |ss| && NoneLost(ss, es)
    ensures Inv(ss[n])
  {
    hide Inv, Step, Possible, LosesLive;
    if n == 0 {
      NobodyIsGood(ss[0]);
    } else {
      TracesKeepInv(ss, es, n - 1);
      var s, e := ss[n - 1], es[n - 1];
      assert !LosesLive(s, e) && Possible(s, e) && ss[n] == Step(s, e);
      StepKeepsInvIff(s, e);
    }
  }

  lemma NobodyIsGood(s: State)
    requires s == State(s.attach, NOBODY, {}, false, [])
    ensures Inv(s)
  {
  }

  /** An engine that was shut down does not answer a restoration. */
  predicate DeadIsSilent(s: State, e: Event)
    requires Ranged(s)
  {
    Takes(s, e) ==> !s.book.all[s.tasks[e.task].it].dead
  }

  lemma LiveIsNoStranger(s: State, e: Event)
    requires Inv(s) && DeadIsSilent(s, e)
    ensures !LosesLive(s, e)
  {
    hide Locked, Free, OneAdopts, AtMostOne;
  }

  /** It is enough that no engine answers once it was shut down. */
  lemma {:induction false} SilentDeadLoseNobody(ss: seq<State>, es: seq<Event>, n: nat)
    requires IsTrace(ss, es) && n <= |es| && forall i :: 0 <= i < |es| ==> DeadIsSilent(ss[i], es[i])
    ensures forall i :: 0 <= i < n ==> !LosesLive(ss[i], es[i])
    ensures Inv(ss[n])
  {
    hide Inv, Step, Possible, LosesLive, DeadIsSilent;
    if n == 0 {
      NobodyIsGood(ss[0]);
    } else {
      SilentDeadLoseNobody(ss, es, n - 1);
      var s, e := ss[n - 1], es[n - 1];
      assert DeadIsSilent(s, e) && Possible(s, e) && ss[n] == Step(s, e);
      LiveIsNoStranger(s, e);
      StepKeepsInvIff(s, e);
    }
  }

  /** Over every such run an engine not yet shut down is registered under its id and under no other key. */
  lemma NoEngineIsLost(ss: seq<State>, es: seq<Event>, n: nat, it: nat)
    requires IsTrace(ss, es) && n < |ss| && NoneLost(ss, es)
    requires it < |ss[n].book.all| && !ss[n].book.all[it].dead
    ensures forall k :: Names(ss[n].book, k, it) <==> k == ss[n].book.all[it].id
  {
    hide Locked, Free, OneAdopts, AtMostOne, Step, Possible, LosesLive;
    TracesKeepInv(ss, es, n);
  }

  /**
   * A restoration takes an id that names nothing, from then on the id names its session, and every other
   * live session keeps its entry; so do all others when the restored engine is itself still alive.
   */
  lemma RestoreNeverOverwrites(ss: seq<State>, es: seq<Event>, n: nat)
    requires IsTrace(ss, es) && n < |es| && NoneLost(ss, es)
    requires Takes(ss[n], es[n])
    ensures var t := ss[n].tasks[es[n].task]; t.id !in ss[n].book.sessions && Names(ss[n + 1].book, t.id, t.it)
    ensures var it := ss[n].tasks[es[n].task].it;
            forall k: Id, j: nat :: Names(ss[n].book, k, j) && j != it
                && (!ss[n].book.all[j].dead || !ss[n].book.all[it].dead)
              ==> Names(ss[n + 1].book, k, j)
  {
    hide Locked, OneAdopts, AtMostOne;
    TracesKeepInv(ss, es, n);
    var s, t := ss[n], ss[n].tasks[es[n].task];
    assert ss[n + 1].book == Rekeyed(s.book, t.it, t.id) && !LosesLive(s, es[n]);
    if !s.book.all[t.it].dead {
      assert Names(s.book, s.book.all[t.it].id, t.it);
    }
  }

  /** Over every run an attached connection holds at most one session, and none while it adopts one. */
  lemma AttachedHoldsOne(ss: seq<State>, es: seq<Event>, n: nat)
    requires IsTrace(ss, es) && n < |ss| && NoneLost(ss, es)
    requires ss[n].attach
    ensures |ss[n].book.sessions| <= if ss[n].attaching then 0 else 1
  {
    hide Locked, Free, Listed, OneAdopts, Step, Possible, LosesLive;
    TracesKeepInv(ss, es, n);
    var keys := ss[n].book.sessions.Keys;
    assert |keys| == |ss[n].book.sessions|;
    if k :| k in keys {
      assert keys == {k};
    }
  }

  /** Once every request has ended no id stays locked. */
  lemma NothingStaysLocked(ss: seq<State>, es: seq<Event>, n: nat)
    requires IsTrace(ss, es) && n < |ss| && NoneLost(ss, es)
    requires forall i :: 0 <= i < |ss[n].tasks| ==> ss[n].tasks[i] == Done
    ensures ss[n].restoring == {}
  {
    hide Free, Listed, OneAdopts, AtMostOne, Step, Possible, LosesLive;
    TracesKeepInv(ss, es, n);
  }

  // ---------------------------------------------------------------- what requests do achieve

  /** A live session entered the registry under a generated id, and every other entry stayed. */
  ghost predicate Enters(b: Book, b': Book, uuid: Id) {
    && b'.all == b.all + [Session(uuid, false)] && Names(b', uuid, |b.all|)
    && forall k, i: nat :: k != uuid ==> (Names(b', k, i) <==> Names(b, k, i))
  }

  /** A request to open or restore that is not refused enters one live session, and waits for it to open. */
  lemma AcceptedEnters(s: State, e: Event)
    requires Inv(s) && Possible(s, e) && !s.attach
    ensures e.New? ==>
              && Enters(s.book, Step(s, e).book, e.uuid)
              && Step(s, e).tasks == s.tasks + [Opening(|s.book.all|, None)]
    ensures e.Restore? && e.id !in s.book.sessions && e.id !in s.restoring ==>
              && Enters(s.book, Step(s, e).book, e.uuid) && e.id in Step(s, e).restoring
              && Step(s, e).tasks == s.tasks + [Opening(|s.book.all|, Some(e.id))]
  {
    hide Inv;
  }

  /** An attached connection that holds and adopts nothing starts adopting, and otherwise refuses. */
  lemma AttachedAdopts(s: State, uuid: Id)
    requires Inv(s) && s.attach
    ensures s.book.sessions == map[] && !s.attaching ==>
              Step(s, New(uuid)).attaching && Step(s, New(uuid)).tasks == s.tasks + [Adopting]
    ensures s.book.sessions != map[] || s.attaching ==> Step(s, New(uuid)) == s
  {
    hide Inv;
  }

  /** An adoption that ends well enters the adopted session, after which a second one is refused. */
  lemma AdoptionEnters(ss: seq<State>, es: seq<Event>, n: nat, other: Id)
    requires IsTrace(ss, es) && n < |es| && NoneLost(ss, es)
    requires es[n].Wake? && es[n].ok && es[n].task < |ss[n].tasks| && ss[n].tasks[es[n].task] == Adopting
    ensures Enters(ss[n].book, ss[n + 1].book, es[n].uuid) && !ss[n + 1].attaching
    ensures Ranged(ss[n + 1]) && Step(ss[n + 1], New(other)) == ss[n + 1]
    ensures Usable(ss[n + 1], es[n].uuid)
  {
    hide Listed, Free;
    TracesKeepInv(ss, es, n);
    var s, e := ss[n], es[n];
    assert ss[n + 1] == Step(s, e) && Possible(s, e);
    StepRanged(s, e);
    assert s.attach && s.restoring == {};
    assert e.uuid in ss[n + 1].book.sessions;
  }

  /** A request that fails after its session was entered goes on to shut that session's engine down. */
  lemma FailureStops(s: State, task: nat, uuid: Id)
    requires Ranged(s) && task < |s.tasks|
    requires var t := s.tasks[task]; t.Opening? || t.Saving? || t.Resuming? || t.Replaying?
    ensures Step(s, Wake(task, false, uuid)).tasks[task] == Stopping(s.tasks[task].it, Target(s.tasks[task]))
    ensures Step(s, Wake(task, false, uuid)).book == s.book && Step(s, Wake(task, false, uuid)).restoring == s.restoring
  {
  }

  /** One that goes well goes on: to its save, or over the resumption, the restored id and the replay to its end. */
  lemma SuccessGoesOn(s: State, task: nat, uuid: Id)
    requires Inv(s) && task < |s.tasks|
    ensures var t, s' := s.tasks[task], Step(s, Wake(task, true, uuid));
            && (t.Opening? && t.target == None ==> s'.tasks[task] == Saving(t.it))
            && (t.Opening? && t.target.Some? ==> s'.tasks[task] == Resuming(t.it, t.target.value))
            && (t.Resuming? ==> s'.tasks[task] == Replaying(t.it, t.id) && Names(s'.book, t.id, t.it))
            && (t.Saving? || t.Replaying? ==> s'.tasks[task] == Done && s'.book == s.book)
            && (t.Replaying? ==> t.id !in s'.restoring)
  {
    hide Listed, Locked, Free, OneAdopts, AtMostOne;
  }

  /** A teardown that ends well leaves its engine dead and under no key; one that fails changes no entry. */
  lemma TeardownUnlists(s: State, task: nat, ok: bool, uuid: Id)
    requires Inv(s) && task < |s.tasks| && s.tasks[task].Stopping?
    ensures var it, s' := s.tasks[task].it, Step(s, Wake(task, ok, uuid));
            && s'.tasks[task] == Done
            && (ok ==> s'.book.all[it].dead && forall k :: !Names(s'.book, k, it))
            && (!ok ==> s'.book == s.book)
            && forall k, i: nat :: i != it && Names(s.book, k, i) ==> Names(s'.book, k, i)
  {
    hide Locked, Free, OneAdopts, AtMostOne;
  }

  /** A close of a usable id reaches the teardown of the session the id names, whatever its awaits do. */
  lemma CloseReachesTeardown(s: State, id: Id, ok: bool, uuid: Id)
    requires Inv(s) && Usable(s, id)
    ensures var s1 := Step(s, Close(id));
            && Ranged(s1) && s1.tasks == s.tasks + [Closing(s.book.sessions[id])]
            && Step(s1, Wake(|s.tasks|, ok, uuid)).tasks[|s.tasks|] == Stopping(s.book.sessions[id], None)
  {
    hide Listed, Locked, Free, OneAdopts, AtMostOne;
    StepRanged(s, Close(id));
  }

  /** End of input reaches the teardown of every session it finds registered. */
  lemma DrainReachesTeardown(s: State, it: nat, ok: bool, uuid: Id)
    requires Inv(s) && it < |s.book.all| && Names(s.book, s.book.all[it].id, it)
    ensures var s1, n := Step(s, Drain(it)), |s.tasks|;
            && Ranged(s1) && |s1.tasks| == n + 1
            && (s1.tasks[n] == Stopping(it, None) || Step(s1, Wake(n, ok, uuid)).tasks[n] == Stopping(it, None))
  {
    hide Listed, Locked, Free, OneAdopts, AtMostOne;
    StepRanged(s, Drain(it));
  }

  // ---------------------------------------------------------------- when a dead engine does answer

  lemma OneMore(ss: seq<State>, es: seq<Event>, e: Event) returns (ss': seq<State>, es': seq<Event>)
    requires IsTrace(ss, es) && Ranged(ss[|es|]) && Possible(ss[|es|], e)
    ensures IsTrace(ss', es') && |es'| == |es| + 1 && |ss'| == |es'| + 1
    ensures ss'[|es'|] == Step(ss[|es|], e) && Ranged(ss'[|es'|])
  {
    hide Possible, Step, Ranged;
    StepRanged(ss[|es|], e);
    ss', es' := ss + [Step(ss[|es|], e)], es + [e];
    forall i | 0 <= i < |es'|
      ensures Ranged(ss'[i]) && Possible(ss'[i], es'[i]) && ss'[i + 1] == Step(ss'[i], es'[i])
    {
      assert i < |es| ==> ss'[i] == ss[i] && ss'[i + 1] == ss[i + 1] && es'[i] == es[i];
    }
  }

  lemma Begin() returns (ss: seq<State>, es: seq<Event>)
    ensures IsTrace(ss, es) && ss[|es|] == State(false, NOBODY, {}, false, [])
  {
    ss, es := [State(false, NOBODY, {}, false, [])], [];
  }

  /** While `a` is restored, its session is closed by its interim id u. */
  lemma ClosedMeanwhile(a: Id, u: Id, x: Id) returns (ss: seq<State>, es: seq<Event>)
    requires a != u && a != x && u != x
    ensures IsTrace(ss, es)
    ensures ss[|es|] == State(false, Book([Session(u, true)], map[]), {a}, false, [Resuming(0, a), Done])
  {
    ss, es := Begin();
    hide IsTrace;
    ss, es := OneMore(ss, es, Restore(a, u));
    var book := Book([Session(u, false)], map[u := 0]);
    assert ss[|es|] == State(false, book, {a}, false, [Opening(0, Some(a))]);
    ss, es := OneMore(ss, es, Wake(0, true, x));
    assert ss[|es|] == State(false, book, {a}, false, [Resuming(0, a)]);
    ss, es := OneMore(ss, es, Close(u));
    assert ss[|es|] == State(false, book, {a}, false, [Resuming(0, a), Closing(0)]);
    ss, es := OneMore(ss, es, Wake(1, true, x));
    assert ss[|es|] == State(false, book, {a}, false, [Resuming(0, a), Stopping(0, None)]);
    ss, es := OneMore(ss, es, Wake(1, true, x));
    assert ss[|es|].book.sessions == map[];
  }

  /**
   * Were the closed engine to answer its restoration after all, by then the interim id may name a
   * session restored in the meantime, and that live session would drop out of the registry.
   */
  lemma DeadAnswerLosesLive(a: Id, u: Id, v: Id, x: Id) returns (ss: seq<State>, es: seq<Event>, e: Event)
    requires a != u && a != x && u != x && v != a && v != u && v != x
    ensures IsTrace(ss, es) && Ranged(ss[|es|]) && Possible(ss[|es|], e) && LosesLive(ss[|es|], e)
    ensures !Listed(Step(ss[|es|], e).book)
  {
    ss, es := ClosedMeanwhile(a, u, x);
    hide IsTrace;
    ss, es := OneMore(ss, es, Restore(u, v));
    var all := [Session(u, true), Session(v, false)];
    assert ss[|es|] == State(false, Book(all, map[v := 1]), {a, u}, false, [Resuming(0, a), Done, Opening(1, Some(u))]);
    ss, es := OneMore(ss, es, Wake(2, true, x));
    assert ss[|es|] == State(false, Book(all, map[v := 1]), {a, u}, false, [Resuming(0, a), Done, Resuming(1, u)]);
    ss, es := OneMore(ss, es, Wake(2, true, x));
    var s := ss[|es|];
    assert s.book == Book([Session(u, true), Session(u, false)], map[u := 1]);
    assert s.tasks == [Resuming(0, a), Done, Replaying(1, u)];
    e := Wake(0, true, x);
    var b := Step(s, e).book;
    assert b.all[1] == Session(u, false) && !Names(b, u, 1);
  }
}
