/** Upload admission against a deployment drain (bzplat/backend/api_routes.py): a mutex,
    a semaphore, a counter and a durable flag, with cancellation at every wait. */
module UploadAdmission {

  /** The operation an upload has started and not seen the end of. A shielded one is a thread
      step run by `_finish_upload_step_before_cancel`, which a cancellation waits for; the
      write of one chunk is not shielded. */
  datatype Work = Idle | Shielded | Chunk

  /** Where one upload is in `_bot_upload_admission`. `Inside` is the body of the context
      manager; `cancelled` says that a cancellation is waiting for its operation to end. */
  datatype Stage =
    | Arriving
    | Queued
    | Admitted
    | Inside(work: Work, cancelled: bool)
    | Leaving
  {
    /** The upload is counted as active. */
    predicate Counted() {
      Inside? || Leaving?
    }

    /** The upload holds a permit of the gate. */
    predicate Permitted() {
      Admitted? || Inside? || Leaving?
    }
  }

  /** The mutex is held across a wait only by an administrator's request. */
  datatype Holder = Free | Beginning | Ending

  /** `strays` counts the chunk writes still running in a thread that no upload waits for. */
  datatype State =
    State(uploads: map<nat, Stage>, permits: int, active: int, maintenance: bool, lock: Holder, strays: nat)

  datatype Event =
    | Arrive(id: nat)
    | FirstCheck(id: nat)
    | Acquire(id: nat)
    | TimeOut(id: nat)
    | SecondCheck(id: nat)
    | StartWork(id: nat, work: Work)
    | EndWork(id: nat)
    | Cancel(id: nat)
    | Exit(id: nat)
    | Leave(id: nat)
    | StrayEnds
    | BeginLock
    | BeginSet
    | BeginFails
    | EndLock
    | EndSet
    | EndFails

  predicate Enabled(s: State, e: Event) {
    match e
    case Arrive(id) => id !in s.uploads
    case FirstCheck(id) => id in s.uploads && s.uploads[id].Arriving? && s.lock.Free?
    case Acquire(id) => id in s.uploads && s.uploads[id].Queued? && s.permits > 0
    case TimeOut(id) => id in s.uploads && s.uploads[id].Queued?
    case SecondCheck(id) => id in s.uploads && s.uploads[id].Admitted? && s.lock.Free?
    case StartWork(id, work) => id in s.uploads && s.uploads[id] == Inside(Idle, false) && !work.Idle?
    case EndWork(id) => id in s.uploads && s.uploads[id].Inside? && !s.uploads[id].work.Idle?
    case Cancel(id) => id in s.uploads
    case Exit(id) => id in s.uploads && s.uploads[id].Inside? && s.uploads[id].work.Idle?
    case Leave(id) => id in s.uploads && s.uploads[id].Leaving? && s.lock.Free?
    case StrayEnds => s.strays > 0
    case BeginLock => s.lock.Free?
    case BeginSet => s.lock.Beginning?
    case BeginFails => s.lock.Beginning?
    case EndLock => s.lock.Free?
    case EndSet => s.lock.Ending?
    case EndFails => s.lock.Ending?
  }

  function Drop(s: State, id: nat): State {
    s.(uploads := s.uploads - {id})
  }

  function Move(s: State, id: nat, stage: Stage): State {
    s.(uploads := s.uploads[id := stage])
  }

  /** Leaving the context manager without having been counted: give the permit back. */
  function Release(s: State, id: nat): State {
    Drop(s, id).(permits := s.permits + 1)
  }

  function Step(s: State, e: Event): State
    requires Enabled(s, e)
  {
    match e
    case Arrive(id) => Move(s, id, Arriving)
    case FirstCheck(id) => if s.maintenance then Drop(s, id) else Move(s, id, Queued)
    case Acquire(id) => Move(s, id, Admitted).(permits := s.permits - 1)
    case TimeOut(id) => Drop(s, id)
    case SecondCheck(id) =>
      if s.maintenance then Release(s, id)
      else Move(s, id, Inside(Idle, false)).(active := s.active + 1)
    case StartWork(id, work) => Move(s, id, Inside(work, false))
    case EndWork(id) => Move(s, id, s.uploads[id].(work := Idle))
    case Cancel(id) =>
      (match s.uploads[id]
       case Arriving => Drop(s, id)
       case Queued => Drop(s, id)
       case Admitted => Release(s, id)
       case Inside(work, _) =>
         if work.Shielded? then Move(s, id, Inside(Shielded, true))
         else if work.Chunk? then Move(s, id, Leaving).(strays := s.strays + 1)
         else Move(s, id, Leaving)
       case Leaving => s)
    case Exit(id) => Move(s, id, Leaving)
    case Leave(id) => Release(s, id).(active := if s.active - 1 < 0 then 0 else s.active - 1)
    case StrayEnds => s.(strays := s.strays - 1)
    case BeginLock => s.(lock := Beginning)
    case BeginSet => s.(maintenance := true, lock := Free)
    case BeginFails => s.(lock := Free)
    case EndLock => s.(lock := Ending)
    case EndSet => s.(maintenance := false, lock := Free)
    case EndFails => s.(lock := Free)
  }

  function Counted(s: State): set<nat> {
    set id | id in s.uploads && s.uploads[id].Counted()
  }

  function Permitted(s: State): set<nat> {
    set id | id in s.uploads && s.uploads[id].Permitted()
  }

  /** Uploads whose operation is running. */
  function Working(s: State): set<nat> {
    set id | id in s.uploads && s.uploads[id].Inside? && !s.uploads[id].work.Idle?
  }

  /** The operations running, waited for or not. */
  function Running(s: State): nat {
    |Working(s)| + s.strays
  }

  ghost predicate Inv(slots: nat, s: State) {
    s.active == |Counted(s)| && s.permits + |Permitted(s)| == slots && s.permits >= 0
  }

  ghost predicate Init(slots: nat, s: State) {
    s == State(map[], slots, 0, false, Free, 0)
  }

  /** The steps that give a permit back. */
  predicate Frees(s: State, e: Event)
    requires Enabled(s, e)
  {
    e.Leave? || (e.SecondCheck? && s.maintenance) || (e.Cancel? && s.uploads[e.id].Admitted?)
  }

  /** How the two populations change: each step moves at most one upload in or out. */
  lemma PopulationStep(s: State, e: Event)
    requires Enabled(s, e)
    ensures
      var t := Step(s, e);
      && Counted(t) == (if e.SecondCheck? && !s.maintenance then Counted(s) + {e.id}
                        else if e.Leave? then Counted(s) - {e.id} else Counted(s))
      && Permitted(t) == (if e.Acquire? then Permitted(s) + {e.id}
                          else if Frees(s, e) then Permitted(s) - {e.id} else Permitted(s))
      && t.permits == s.permits + (if e.Acquire? then -1 else if Frees(s, e) then 1 else 0)
      && (e.Acquire? ==> e.id !in Permitted(s)) && (Frees(s, e) ==> e.id in Permitted(s))
  {
  }

  lemma CountedStep(s: State, e: Event)
    requires Enabled(s, e)
    ensures |Counted(Step(s, e))| ==
            |Counted(s)| + (if e.SecondCheck? && !s.maintenance then 1 else if e.Leave? then -1 else 0)
  {
    PopulationStep(s, e);
    if e.Leave? {
      assert e.id in Counted(s);
    } else if e.SecondCheck? {
      assert e.id !in Counted(s);
    }
  }

  lemma PermittedStep(s: State, e: Event)
    requires Enabled(s, e)
    ensures |Permitted(Step(s, e))| + Step(s, e).permits == |Permitted(s)| + s.permits
  {
    PopulationStep(s, e);
  }

  lemma StepKeepsInv(slots: nat, s: State, e: Event)
    requires Inv(slots, s) && Enabled(s, e)
    ensures Inv(slots, Step(s, e))
  {
    CountedStep(s, e);
    PermittedStep(s, e);
    if e.Leave? {
      assert e.id in Counted(s);
    }
  }

  predicate Runs(s: State, events: seq<Event>)
    decreases |events|
  {
    |events| > 0 ==> Enabled(s, events[0]) && Runs(Step(s, events[0]), events[1..])
  }

  function Run(s: State, events: seq<Event>): State
    requires Runs(s, events)
    decreases |events|
  {
    if |events| == 0 then s else Run(Step(s, events[0]), events[1..])
  }

  lemma {:induction false} RunKeepsInv(slots: nat, s: State, events: seq<Event>)
    requires Inv(slots, s) && Runs(s, events)
    ensures Inv(slots, Run(s, events))
    decreases |events|
  {
    if |events| > 0 {
      StepKeepsInv(slots, s, events[0]);
      RunKeepsInv(slots, Step(s, events[0]), events[1..]);
    }
  }

  lemma SubsetSize(a: set<nat>, b: set<nat>)
    requires a <= b
    ensures |a| <= |b|
  {
    assert b == a + (b - a);
  }

  /** Over every run with timeouts and cancellations anywhere: the counter is the number of
      uploads inside, permits held and free add up to the slots, the guard against a
      negative counter never acts, no more operations are waited for than there are slots, and
      once every upload is gone the counter and the gate are as they were at the start. */
  lemma CountersAreExact(slots: nat, s: State, events: seq<Event>)
    requires Init(slots, s) && Runs(s, events)
    ensures
      var t := Run(s, events);
      && t.active == |Counted(t)| && t.permits + |Permitted(t)| == slots
      && |Working(t)| <= t.active <= |Permitted(t)| <= slots
      && (forall id :: Enabled(t, Leave(id)) ==> Step(t, Leave(id)).active == t.active - 1)
      && (t.uploads == map[] ==> t.active == 0 && t.permits == slots)
  {
    var t := Run(s, events);
    assert Counted(s) == {} && Permitted(s) == {};
    RunKeepsInv(slots, s, events);
    SubsetSize(Working(t), Counted(t));
    SubsetSize(Counted(t), Permitted(t));
    forall id | Enabled(t, Leave(id))
      ensures t.active >= 1
    {
      SubsetSize({id}, Counted(t));
    }
    if t.uploads == map[] {
      assert Counted(t) == {} && Permitted(t) == {};
    }
  }

  lemma {:induction false} ShieldedIsWaitedFor(s: State, events: seq<Event>, id: nat)
    requires id in Working(s) && s.uploads[id].work.Shielded? && Runs(s, events)
    requires forall k :: 0 <= k < |events| ==> events[k] != EndWork(id)
    ensures
      var t := Run(s, events);
      id in Working(t) && t.uploads[id].work.Shielded?
    decreases |events|
  {
    if |events| > 0 {
      assert events[0] != EndWork(id);
      ShieldedIsWaitedFor(Step(s, events[0]), events[1..], id);
    }
  }

  /** Whatever happens before its operation ends, the upload stays inside, counted and
      holding its permit. */
  ghost predicate WaitsFor(s: State, id: nat) {
    forall events ::
      Runs(s, events) && (forall k :: 0 <= k < |events| ==> events[k] != EndWork(id)) ==>
        var t := Run(s, events);
        id in Working(t) && id in Counted(t) && id in Permitted(t)
  }

  /** However often an upload is cancelled, it waits for the operation it has started exactly
      if that is a shielded one. */
  lemma WorkIsWaitedFor(s: State, id: nat)
    requires id in Working(s)
    ensures WaitsFor(s, id) <==> s.uploads[id].work.Shielded?
  {
    if s.uploads[id].work.Shielded? {
      forall events | Runs(s, events) && forall k :: 0 <= k < |events| ==> events[k] != EndWork(id)
        ensures id in Working(Run(s, events))
      {
        ShieldedIsWaitedFor(s, events, id);
      }
    } else {
      OneStep(s, Cancel(id));
      assert id !in Working(Run(s, [Cancel(id)]));
    }
  }

  lemma OneStep(s: State, e: Event)
    requires Enabled(s, e)
    ensures Runs(s, [e]) && Run(s, [e]) == Step(s, e)
  {
    var t := Step(s, e);
    assert Runs(t, []) && Run(t, []) == t;
  }

  predicate StaysInMaintenance(events: seq<Event>) {
    forall k :: 0 <= k < |events| ==> !events[k].EndSet?
  }

  lemma {:induction false} MaintenanceAdmitsNobody(s: State, events: seq<Event>)
    requires s.maintenance && Runs(s, events) && StaysInMaintenance(events)
    ensures Run(s, events).maintenance && Counted(Run(s, events)) <= Counted(s)
    decreases |events|
  {
    if |events| > 0 {
      PopulationStep(s, events[0]);
      MaintenanceAdmitsNobody(Step(s, events[0]), events[1..]);
    }
  }

  /** With nobody inside, what strays there are only end. */
  lemma {:induction false} StraysOnlyEnd(s: State, events: seq<Event>)
    requires s.maintenance && Counted(s) == {} && Runs(s, events) && StaysInMaintenance(events)
    ensures Run(s, events).strays <= s.strays
    decreases |events|
  {
    if |events| > 0 {
      PopulationStep(s, events[0]);
      assert events[0].Cancel? ==> events[0].id !in Counted(s);
      StraysOnlyEnd(Step(s, events[0]), events[1..]);
    }
  }

  /** Once maintenance has begun nobody new is counted, so the counter only falls; a drained
      platform stays drained until maintenance ends, and the operations still running then are
      the stray chunk writes, of which there are never more. */
  lemma DrainIsStable(slots: nat, s: State, before: seq<Event>, after: seq<Event>)
    requires Init(slots, s) && Runs(s, before) && Run(s, before).maintenance
    requires Runs(Run(s, before), after) && StaysInMaintenance(after)
    ensures
      var t, u := Run(s, before), Run(Run(s, before), after);
      u.maintenance && Counted(u) <= Counted(t) && u.active <= t.active
      && (t.active == 0 ==> u.active == 0 && Counted(u) == {} && Running(u) == u.strays <= t.strays == Running(t))
  {
    var t, u := Run(s, before), Run(Run(s, before), after);
    CountersAreExact(slots, s, before);
    MaintenanceAdmitsNobody(t, after);
    RunKeepsInv(slots, t, after);
    SubsetSize(Counted(u), Counted(t));
    assert Working(u) <= Counted(u) && Working(t) <= Counted(t);
    if t.active == 0 {
      StraysOnlyEnd(t, after);
      assert Working(u) == {} && Working(t) == {};
    }
  }

  lemma {:induction false} RunsCompose(s: State, a: seq<Event>, b: seq<Event>)
    requires Runs(s, a) && Runs(Run(s, a), b)
    ensures Runs(s, a + b) && Run(s, a + b) == Run(Run(s, a), b)
    decreases |a|
  {
    if |a| == 0 {
      assert a + b == b;
    } else {
      assert (a + b)[1..] == a[1..] + b;
      RunsCompose(Step(s, a[0]), a[1..], b);
    }
  }

  lemma ThreeSteps(s: State, e: Event, f: Event, g: Event)
    requires Enabled(s, e) && Enabled(Step(s, e), f) && Enabled(Step(Step(s, e), f), g)
    ensures Runs(s, [e, f, g]) && Run(s, [e, f, g]) == Step(Step(Step(s, e), f), g)
  {
    var t := Step(s, e);
    OneStep(s, e);
    OneStep(t, f);
    OneStep(Step(t, f), g);
    RunsCompose(t, [f], [g]);
    RunsCompose(s, [e], [f] + [g]);
    assert [e] + ([f] + [g]) == [e, f, g];
  }

  /** A drained platform on which a chunk is still being written: its upload was cancelled
      in the middle of the write. */
  lemma DrainLeavesAStray(slots: nat, s: State)
    requires slots >= 1 && Init(slots, s)
    ensures exists events ::
      Runs(s, events) && Run(s, events).maintenance && Run(s, events).active == 0 && Running(Run(s, events)) == 1
  {
    var a, b, c := [Arrive(0), FirstCheck(0), Acquire(0)], [SecondCheck(0), StartWork(0, Chunk), BeginLock],
                   [BeginSet, Cancel(0), Leave(0)];
    var t := s.(uploads := map[0 := Admitted], permits := slots - 1);
    var u := t.(uploads := map[0 := Inside(Chunk, false)], active := 1, lock := Beginning);
    ThreeSteps(s, Arrive(0), FirstCheck(0), Acquire(0));
    assert Run(s, a) == t;
    ThreeSteps(t, SecondCheck(0), StartWork(0, Chunk), BeginLock);
    assert Run(t, b) == u;
    ThreeSteps(u, BeginSet, Cancel(0), Leave(0));
    RunsCompose(t, b, c);
    RunsCompose(s, a, b + c);
    var end := Run(s, a + (b + c));
    assert end.uploads == map[] && end.strays == 1 && Working(end) == {};
  }

  // ----- when there is maintenance, and who gets in

  /** Some beginning of maintenance is followed by no end. */
  ghost predicate Began(events: seq<Event>) {
    exists k :: 0 <= k < |events| && events[k].BeginSet? && forall j :: k < j < |events| ==> !events[j].EndSet?
  }

  /** Over every run: there is maintenance exactly if it has begun and not ended since, or was
      there at the start and has not ended. */
  lemma {:induction false} MaintenanceIsExact(s: State, events: seq<Event>)
    requires Runs(s, events)
    ensures Run(s, events).maintenance <==> Began(events) || (s.maintenance && StaysInMaintenance(events))
    decreases |events|
  {
    if |events| > 0 {
      var rest := events[1..];
      MaintenanceIsExact(Step(s, events[0]), rest);
      assert StaysInMaintenance(events) <==> !events[0].EndSet? && StaysInMaintenance(rest);
      if Began(rest) {
        var k :| 0 <= k < |rest| && rest[k].BeginSet? && forall j :: k < j < |rest| ==> !rest[j].EndSet?;
        assert events[k + 1] == rest[k];
        assert forall j :: k + 1 < j < |events| ==> events[j] == rest[j - 1];
        assert Began(events);
      }
      if Began(events) {
        var k :| 0 <= k < |events| && events[k].BeginSet? && forall j :: k < j < |events| ==> !events[j].EndSet?;
        if k > 0 {
          assert rest[k - 1].BeginSet?;
          assert forall j :: k - 1 < j < |rest| ==> rest[j] == events[j + 1];
        } else {
          assert forall j :: 0 <= j < |rest| ==> rest[j] == events[j + 1];
        }
      }
    }
  }

  /** Who holds the mutex across a wait, by the last event that says so. */
  function LastHolder(events: seq<Event>, start: Holder): Holder {
    if |events| == 0 then start
    else
      match events[|events| - 1]
      case BeginLock => Beginning
      case EndLock => Ending
      case BeginSet => Free
      case BeginFails => Free
      case EndSet => Free
      case EndFails => Free
      case _ => LastHolder(events[..|events| - 1], start)
  }

  lemma {:induction false} LastHolderSplit(events: seq<Event>, start: Holder)
    requires |events| > 0
    ensures LastHolder(events, start) == LastHolder(events[1..], LastHolder([events[0]], start))
    decreases |events|
  {
    var init := events[..|events| - 1];
    if |events| == 1 {
      assert events == [events[0]];
    } else {
      LastHolderSplit(init, start);
      assert events[1..][..|events| - 2] == init[1..];
    }
  }

  lemma HolderStep(s: State, e: Event)
    requires Enabled(s, e)
    ensures Step(s, e).lock == LastHolder([e], s.lock)
  {
    assert [e][..0] == [];
  }

  /** Over every run: an administrator holds the mutex from taking it to setting the flag or
      failing to. */
  lemma {:induction false} HolderIsExact(s: State, events: seq<Event>)
    requires Runs(s, events)
    ensures Run(s, events).lock == LastHolder(events, s.lock)
    decreases |events|
  {
    if |events| > 0 {
      HolderStep(s, events[0]);
      LastHolderSplit(events, s.lock);
      HolderIsExact(Step(s, events[0]), events[1..]);
    }
  }

  /** An event that turns an upload away or lets it go. */
  predicate Removes(s: State, e: Event, id: nat) {
    id in s.uploads &&
    match e
    case FirstCheck(other) => other == id && s.maintenance
    case SecondCheck(other) => other == id && s.maintenance
    case TimeOut(other) => other == id
    case Leave(other) => other == id
    case Cancel(other) => other == id && (s.uploads[id].Arriving? || s.uploads[id].Queued? || s.uploads[id].Admitted?)
    case _ => false
  }

  /** An upload has arrived in a run and not been removed since. */
  predicate Present(s: State, events: seq<Event>, id: nat, before: bool)
    requires Runs(s, events)
    decreases |events|
  {
    if |events| == 0 then before
    else
      Present(Step(s, events[0]), events[1..], id,
              events[0] == Arrive(id) || (before && !Removes(s, events[0], id)))
  }

  /** Over every run: an upload is there from its arrival until maintenance turns it away at one
      of its two checks, it times out, it leaves, or it is cancelled before it is inside. */
  lemma {:induction false} PresenceIsExact(s: State, events: seq<Event>, id: nat)
    requires Runs(s, events)
    ensures id in Run(s, events).uploads <==> Present(s, events, id, id in s.uploads)
    decreases |events|
  {
    if |events| > 0 {
      PresenceIsExact(Step(s, events[0]), events[1..], id);
    }
  }

  /** The events by which an arrival gets in. */
  function WayIn(id: nat): seq<Event> {
    [Arrive(id)] + [FirstCheck(id), Acquire(id), SecondCheck(id)]
  }

  /** With the mutex and a permit free and no maintenance, an arrival is inside after its two
      checks and its permit. */
  lemma ArrivalGetsIn(s: State, id: nat)
    requires s.lock.Free? && s.permits > 0 && !s.maintenance && id !in s.uploads
    ensures Runs(s, WayIn(id))
    ensures Run(s, WayIn(id)) ==
            s.(uploads := s.uploads[id := Inside(Idle, false)], permits := s.permits - 1, active := s.active + 1)
  {
    var t := Step(s, Arrive(id));
    OneStep(s, Arrive(id));
    ThreeSteps(t, FirstCheck(id), Acquire(id), SecondCheck(id));
    RunsCompose(s, [Arrive(id)], [FirstCheck(id), Acquire(id), SecondCheck(id)]);
    assert s.uploads[id := Arriving][id := Queued][id := Admitted][id := Inside(Idle, false)]
        == s.uploads[id := Inside(Idle, false)];
  }

  /** Under maintenance the first check turns an arrival away at once, and the second also gives
      its permit back; an upload that times out is gone. Nothing else changes. */
  lemma TurnedAway(s: State, id: nat)
    requires id in s.uploads
    ensures s.maintenance && Enabled(s, FirstCheck(id)) ==> Step(s, FirstCheck(id)) == s.(uploads := s.uploads - {id})
    ensures s.maintenance && Enabled(s, SecondCheck(id)) ==>
              Step(s, SecondCheck(id)) == s.(uploads := s.uploads - {id}, permits := s.permits + 1)
    ensures Enabled(s, TimeOut(id)) ==> Step(s, TimeOut(id)) == s.(uploads := s.uploads - {id})
  {
  }

  /** A cancelled upload is on its way out. */
  predicate Leaves(s: State, id: nat) {
    id !in s.uploads || s.uploads[id].Leaving? || (s.uploads[id].Inside? && s.uploads[id].cancelled)
  }

  /** However a cancelled upload goes on, it starts no other operation until it has left. */
  lemma {:induction false} CancelledStartsNothing(s: State, events: seq<Event>, id: nat)
    requires id in s.uploads && Leaves(s, id) && Runs(s, events)
    requires forall k :: 0 <= k < |events| ==> events[k] != Leave(id)
    ensures id in Run(s, events).uploads && Leaves(Run(s, events), id)
    ensures forall k :: 0 <= k < |events| ==> !(events[k].StartWork? && events[k].id == id)
    decreases |events|
  {
    if |events| > 0 {
      assert events[0] != Leave(id);
      var rest := events[1..];
      assert forall k :: 0 <= k < |rest| ==> rest[k] == events[k + 1];
      CancelledStartsNothing(Step(s, events[0]), rest, id);
      forall k | 0 <= k < |events|
        ensures !(events[k].StartWork? && events[k].id == id)
      {
        assert k > 0 ==> events[k] == rest[k - 1];
      }
    }
  }

  /** A cancelled upload is on its way out. */
  lemma CancelLeaves(s: State, id: nat)
    requires Enabled(s, Cancel(id))
    ensures Leaves(Step(s, Cancel(id)), id)
  {
  }

  /** How many chunk writes a run has cut loose, less those it has seen end. */
  function CutLoose(s: State, events: seq<Event>): int
    requires Runs(s, events)
    decreases |events|
  {
    if |events| == 0 then 0
    else
      CutLoose(Step(s, events[0]), events[1..])
      + (if events[0].StrayEnds? then -1
         else if events[0].Cancel? && s.uploads[events[0].id].Inside? && s.uploads[events[0].id].work.Chunk? then 1
         else 0)
  }

  lemma {:induction false} StraysAreExact(s: State, events: seq<Event>)
    requires Runs(s, events)
    ensures Run(s, events).strays == s.strays + CutLoose(s, events)
    decreases |events|
  {
    if |events| > 0 {
      StraysAreExact(Step(s, events[0]), events[1..]);
    }
  }

  /** The stray writes of a platform can all end, after which nothing runs unattended. */
  lemma {:induction false} StraysCanEnd(s: State) returns (events: seq<Event>)
    ensures Runs(s, events) && |events| == s.strays && Run(s, events) == s.(strays := 0)
    decreases s.strays
  {
    if s.strays == 0 {
      return [];
    }
    var rest := StraysCanEnd(Step(s, StrayEnds));
    events := [StrayEnds] + rest;
    assert events[1..] == rest;
  }

  /** How much of the way out a counted upload still has before it. */
  function ToGo(stage: Stage): nat {
    match stage
    case Inside(work, _) => if work.Idle? then 2 else 3
    case Leaving => 1
    case _ => 0
  }

  function WayOut(s: State, id: nat): Event
    requires id in s.uploads && s.uploads[id].Counted()
  {
    match s.uploads[id]
    case Inside(work, _) => if work.Idle? then Exit(id) else EndWork(id)
    case _ => Leave(id)
  }

  /** With the mutex free every counted upload has its next step out enabled, and an
      administrator never keeps the mutex. */
  lemma WayOutIsOpen(s: State, id: nat)
    requires id in s.uploads && s.uploads[id].Counted()
    ensures s.lock.Free? ==>
              Enabled(s, WayOut(s, id))
              && (var t := Step(s, WayOut(s, id));
                  if id in t.uploads then ToGo(t.uploads[id]) == ToGo(s.uploads[id]) - 1 && t.uploads[id].Counted()
                  else ToGo(s.uploads[id]) == 1)
    ensures !s.lock.Free? ==>
              exists e :: Enabled(s, e) && Step(s, e).lock.Free? && Step(s, e).uploads == s.uploads
  {
    if s.lock.Beginning? {
      assert Enabled(s, BeginFails) && Step(s, BeginFails).lock.Free?;
    } else if s.lock.Ending? {
      assert Enabled(s, EndFails) && Step(s, EndFails).lock.Free?;
    }
  }

  ghost function AnyOf(uploads: map<nat, Stage>): (id: nat)
    requires uploads != map[]
    ensures id in uploads
  {
    var id :| id in uploads;
    id
  }

  /** What all uploads together have before them. */
  ghost function AllToGo(uploads: map<nat, Stage>): nat
    decreases |uploads|
  {
    if uploads == map[] then 0
    else
      var id := AnyOf(uploads);
      ToGo(uploads[id]) + AllToGo(uploads - {id})
  }

  lemma {:induction false} AllToGoWithout(uploads: map<nat, Stage>, id: nat)
    requires id in uploads
    ensures AllToGo(uploads) == ToGo(uploads[id]) + AllToGo(uploads - {id})
    decreases |uploads|
  {
    var other := AnyOf(uploads);
    if other != id {
      AllToGoWithout(uploads - {other}, id);
      AllToGoWithout(uploads - {id}, other);
      assert uploads - {other} - {id} == uploads - {id} - {other};
    }
  }

  /** The way out is one step shorter after each step. */
  lemma WayOutShortens(s: State, id: nat)
    requires id in s.uploads && s.uploads[id].Counted() && s.lock.Free?
    ensures
      var e := WayOut(s, id);
      Enabled(s, e) && AllToGo(Step(s, e).uploads) == AllToGo(s.uploads) - 1
      && Step(s, e).lock.Free? && Step(s, e).maintenance == s.maintenance
  {
    WayOutIsOpen(s, id);
    var t := Step(s, WayOut(s, id));
    AllToGoWithout(s.uploads, id);
    if id in t.uploads {
      AllToGoWithout(t.uploads, id);
    }
    assert t.uploads - {id} == s.uploads - {id};
  }

  /** A continuation in which uploads just finish: nobody is cancelled and maintenance goes on. */
  predicate Orderly(events: seq<Event>) {
    forall k :: 0 <= k < |events| ==> !events[k].EndSet? && !events[k].Cancel?
  }

  ghost predicate Drains(s: State, events: seq<Event>) {
    Runs(s, events) && Orderly(events) && Run(s, events).maintenance && Run(s, events).active == 0
  }

  lemma DrainsAfter(s: State, e: Event, rest: seq<Event>)
    requires Enabled(s, e) && !e.EndSet? && !e.Cancel? && Drains(Step(s, e), rest)
    ensures Drains(s, [e] + rest)
  {
    assert ([e] + rest)[1..] == rest;
  }

  lemma {:induction false} DrainFrom(slots: nat, s: State) returns (events: seq<Event>)
    requires Inv(slots, s) && s.maintenance && s.lock.Free?
    ensures Drains(s, events) && |events| <= AllToGo(s.uploads)
    decreases AllToGo(s.uploads)
  {
    if Counted(s) == {} {
      return [];
    }
    var id :| id in Counted(s);
    WayOutShortens(s, id);
    StepKeepsInv(slots, s, WayOut(s, id));
    var rest := DrainFrom(slots, Step(s, WayOut(s, id)));
    DrainsAfter(s, WayOut(s, id), rest);
    events := [WayOut(s, id)] + rest;
  }

  /** The administrator gives the mutex back, without ending maintenance. */
  function GivesBack(s: State): Event {
    if s.lock.Beginning? then BeginFails else EndFails
  }

  /** A drain cannot deadlock: from every state that can be reached under maintenance there is
      a continuation to a drained platform in which nobody is cancelled, no longer than what
      the uploads have before them and one step of an administrator who holds the mutex. */
  lemma DrainCanProceed(slots: nat, s: State, before: seq<Event>)
    requires Init(slots, s) && Runs(s, before) && Run(s, before).maintenance
    ensures
      var t := Run(s, before);
      exists after :: Drains(t, after) && |after| <= AllToGo(t.uploads) + (if t.lock.Free? then 0 else 1)
  {
    var t := Run(s, before);
    assert Counted(s) == {} && Permitted(s) == {};
    RunKeepsInv(slots, s, before);
    if t.lock.Free? {
      var after := DrainFrom(slots, t);
    } else {
      StepKeepsInv(slots, t, GivesBack(t));
      var rest := DrainFrom(slots, Step(t, GivesBack(t)));
      DrainsAfter(t, GivesBack(t), rest);
    }
  }
}
