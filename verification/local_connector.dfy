/** The local-AI connector's connection loop (scripts/local_ai_client.py): it owns at most
    one Bot process, and says at most one thing about each request. What the operating
    system, the network and the Bot do is a script of fates, one for each message. */
module LocalConnector {

  datatype Option<T> = None | Some(value: T)

  /** What a request and its preparation are matched by. */
  datatype Binding = Binding(requestId: string, matchId: string, turn: nat)

  datatype Reason =
    | BotStartFailed | BotNoResponse | BotOutputTooLarge | BotOutputInvalid | BotIoFailed | BotDecisionTimeout

  /** A message after decoding; a request that does not parse has no binding. */
  datatype Message =
    | Ignored
    | Ping
    | Rejection
    | Prepare(preparation: Option<Binding>)
    | Turn(request: Option<Binding>)

  datatype Reply =
    | Pong
    | Prepared(goal: Binding)
    | Response(goal: Binding, output: string)
    | Failure(goal: Binding, reason: Reason)

  // ----- what can happen

  /** A send completes, or raises; then the message may or may not have left. */
  datatype Send = Delivered | Broken(left: bool)

  /** Starting a process; a cancelled start leaves none. */
  datatype Start = Started(pid: int) | StartFailed | StartLate | StartCancelled

  /** A Bot prints a line, fails with or without a reportable reason, or the turn is cut
      short by a lost connection, a cancellation or an unexpected error. */
  datatype Run = Answers(output: string) | Fails(reason: Option<Reason>) | Aborts(handed: bool)

  datatype Fate = Fate(start: Start, run: Run, send: Send, stopCancelled: bool)

  // ----- what an observer sees

  datatype Event =
    | Received(message: Message)
    | Spawned(pid: int, goal: Binding)
    | Handed(pid: int, turn: Binding)
    | Stopped(pid: int)
    | Sent(reply: Reply)

  datatype Process = Process(pid: int, goal: Binding, handed: bool)

  datatype Monitor = Monitor(process: Option<Process>, current: Message, replied: bool)

  const START: Monitor := Monitor(None, Ignored, false)

  predicate Asks(message: Message, goal: Binding) {
    message == Prepare(Some(goal)) || message == Turn(Some(goal))
  }

  predicate MaySend(m: Monitor, reply: Reply) {
    && !m.replied
    && match reply
       case Pong => m.current.Ping?
       case Prepared(goal) => m.current == Prepare(Some(goal)) && m.process.Some? && m.process.value.goal == goal
                              && !m.process.value.handed
       case Response(goal, _) => m.current == Turn(Some(goal)) && m.process.Some? && m.process.value.goal == goal
                                 && m.process.value.handed
       case Failure(goal, _) => Asks(m.current, goal)
  }

  /** The rules of the connector, one event at a time; None is a violation. */
  function Watch(m: Monitor, e: Event): Option<Monitor> {
    match e
    case Received(message) =>
      if m.process.Some? && m.process.value.handed then None
      else Some(m.(current := message, replied := false))
    case Spawned(pid, goal) =>
      if m.process.None? && Asks(m.current, goal) then Some(m.(process := Some(Process(pid, goal, false)))) else None
    case Handed(pid, turn) =>
      if m.process == Some(Process(pid, turn, false)) && m.current == Turn(Some(turn))
      then Some(m.(process := Some(Process(pid, turn, true)))) else None
    case Stopped(pid) =>
      if m.process.Some? && m.process.value.pid == pid then Some(m.(process := None)) else None
    case Sent(reply) =>
      if MaySend(m, reply) then Some(m.(replied := true)) else None
  }

  function Watched(trace: seq<Event>): Option<Monitor> {
    if |trace| == 0 then Some(START)
    else
      match Watched(trace[..|trace| - 1])
      case None => None
      case Some(m) => Watch(m, trace[|trace| - 1])
  }

  /** A trace without violations, ending in a state. */
  ghost predicate Reaches(trace: seq<Event>, m: Monitor) {
    Watched(trace) == Some(m)
  }

  function Then(trace: seq<Event>, e: Event): (more: seq<Event>)
    ensures |more| == |trace| + 1 && trace <= more && more[|trace|] == e
    ensures Watched(trace).Some? ==> Watched(more) == Watch(Watched(trace).value, e)
  {
    assert (trace + [e])[..|trace|] == trace;
    trace + [e]
  }

  // ----- what the rules amount to, without the monitor

  /** The processes started and not stopped yet. */
  function Alive(trace: seq<Event>): set<int> {
    if |trace| == 0 then {}
    else
      var before := Alive(trace[..|trace| - 1]);
      match trace[|trace| - 1]
      case Spawned(pid, _) => before + {pid}
      case Stopped(pid) => before - {pid}
      case _ => before
  }

  lemma {:induction false} AliveIsMonitored(trace: seq<Event>)
    requires Watched(trace).Some?
    ensures Alive(trace) == match Watched(trace).value.process case None => {} case Some(p) => {p.pid}
    decreases |trace|
  {
    if |trace| > 0 {
      AliveIsMonitored(trace[..|trace| - 1]);
    }
  }

  lemma {:induction false} PrefixIsWatched(trace: seq<Event>, n: nat)
    requires Watched(trace).Some? && n <= |trace|
    ensures Watched(trace[..n]).Some?
    decreases |trace|
  {
    if n < |trace| {
      PrefixIsWatched(trace[..|trace| - 1], n);
      assert trace[..|trace| - 1][..n] == trace[..n];
    } else {
      assert trace[..n] == trace;
    }
  }

  /** At no time are there two Bot processes. */
  lemma OneProcessAtATime(trace: seq<Event>, n: nat)
    requires Watched(trace).Some? && n <= |trace|
    ensures |Alive(trace[..n])| <= 1
  {
    PrefixIsWatched(trace, n);
    AliveIsMonitored(trace[..n]);
  }

  /** Where the monitored process comes from. */
  lemma {:induction false} Origin(trace: seq<Event>) returns (i: nat)
    requires Watched(trace).Some? && Watched(trace).value.process.Some?
    ensures
      var process := Watched(trace).value.process.value;
      i < |trace| && trace[i] == Spawned(process.pid, process.goal)
    ensures forall k :: i < k < |trace| ==> !trace[k].Spawned? && !trace[k].Stopped?
    ensures !Watched(trace).value.process.value.handed ==> forall k :: i < k < |trace| ==> !trace[k].Handed?
    decreases |trace|
  {
    var last := trace[|trace| - 1];
    if last.Spawned? {
      i := |trace| - 1;
    } else {
      i := Origin(trace[..|trace| - 1]);
    }
  }

  lemma EventIsAllowed(trace: seq<Event>, j: nat)
    requires Watched(trace).Some? && j < |trace|
    ensures Watched(trace[..j]).Some? && Watch(Watched(trace[..j]).value, trace[j]).Some?
  {
    PrefixIsWatched(trace, j + 1);
    assert trace[..j + 1][..j] == trace[..j];
  }

  /** A process is handed one request, the one it was started for, and only while it lives. */
  lemma HandedWhatItWasStartedFor(trace: seq<Event>, j: nat) returns (i: nat)
    requires Watched(trace).Some? && j < |trace| && trace[j].Handed?
    ensures i < j && trace[i] == Spawned(trace[j].pid, trace[j].turn)
    ensures forall k :: i < k < j ==> !trace[k].Spawned? && !trace[k].Stopped? && !trace[k].Handed?
  {
    EventIsAllowed(trace, j);
    i := Origin(trace[..j]);
    assert trace[..j][i] == trace[i];
    forall k | i < k < j
      ensures !trace[k].Spawned? && !trace[k].Stopped? && !trace[k].Handed?
    {
      assert trace[..j][k] == trace[k];
    }
  }

  /** The message being handled is the last one received, and a reply is remembered until the next. */
  lemma {:induction false} SinceReceived(trace: seq<Event>, i: nat)
    requires Watched(trace).Some? && i < |trace|
    requires trace[i].Sent? && forall k :: i < k < |trace| ==> !trace[k].Received?
    ensures Watched(trace).value.replied
    decreases |trace|
  {
    if i < |trace| - 1 {
      var init := trace[..|trace| - 1];
      assert forall k :: i < k < |init| ==> init[k] == trace[k];
      SinceReceived(init, i);
    }
  }

  /** Between two replies a message was received: no message is answered twice. */
  lemma OneReplyEach(trace: seq<Event>, i: nat, j: nat)
    requires Watched(trace).Some? && i < j < |trace| && trace[i].Sent? && trace[j].Sent?
    ensures exists k :: i < k < j && trace[k].Received?
  {
    EventIsAllowed(trace, j);
    if forall k :: i < k < j ==> !trace[k].Received? {
      var init := trace[..j];
      assert forall k :: i <= k < j ==> init[k] == trace[k];
      SinceReceived(init, i);
    }
  }

  lemma {:induction false} LastReceived(trace: seq<Event>) returns (k: nat)
    requires Watched(trace).Some? && !Watched(trace).value.current.Ignored?
    ensures k < |trace| && trace[k] == Received(Watched(trace).value.current)
    ensures forall i :: k < i < |trace| ==> !trace[i].Received?
    decreases |trace|
  {
    if trace[|trace| - 1].Received? {
      k := |trace| - 1;
    } else {
      k := LastReceived(trace[..|trace| - 1]);
    }
  }

  lemma {:induction false} LastHanded(trace: seq<Event>) returns (h: nat)
    requires Watched(trace).Some? && Watched(trace).value.process.Some? && Watched(trace).value.process.value.handed
    ensures
      var process := Watched(trace).value.process.value;
      h < |trace| && trace[h] == Handed(process.pid, process.goal)
    ensures forall i :: h < i < |trace| ==> !trace[i].Received?
    decreases |trace|
  {
    if trace[|trace| - 1].Handed? {
      h := |trace| - 1;
    } else {
      h := LastHanded(trace[..|trace| - 1]);
    }
  }

  /** A response answers the last message, a turn request that a process was handed since. */
  lemma ResponseIsForItsTurn(trace: seq<Event>, j: nat) returns (k: nat, h: nat)
    requires Watched(trace).Some? && j < |trace| && trace[j].Sent? && trace[j].reply.Response?
    ensures k < h < j && trace[k] == Received(Turn(Some(trace[j].reply.goal)))
    ensures trace[h].Handed? && trace[h].turn == trace[j].reply.goal
    ensures forall i :: k < i < j ==> !trace[i].Received?
  {
    EventIsAllowed(trace, j);
    k := LastReceived(trace[..j]);
    h := LastHanded(trace[..j]);
    assert trace[..j][k] == trace[k] && trace[..j][h] == trace[h];
    forall i | k < i < j
      ensures !trace[i].Received?
    {
      assert trace[..j][i] == trace[i];
    }
    EventIsAllowed(trace, h);
  }

  // ----- what each message calls for

  /** The prepared slot: the request prepared for and its process. */
  type Slot = Option<(Binding, int)>

  /** The reply to a request that a process was handed. */
  function RunReply(turn: Binding, run: Run): Option<Reply> {
    match run
    case Answers(output) => Some(Response(turn, output))
    case Fails(Some(reason)) => Some(Failure(turn, reason))
    case _ => None
  }

  /** The reply that a message calls for, given what is prepared, what the start and the run
      come to, and whether the stop of an older process is cancelled. */
  function Answer(slot: Slot, message: Message, fate: Fate): Option<Reply> {
    match message
    case Ping => Some(Pong)
    case Prepare(Some(goal)) =>
      if (slot.Some? && fate.stopCancelled) || fate.start.StartCancelled? then None
      else if fate.start.Started? then Some(Prepared(goal))
      else Some(Failure(goal, BotStartFailed))
    case Turn(Some(turn)) =>
      if slot.Some? then
        if slot.value.0 == turn then RunReply(turn, fate.run) else None
      else
        (match fate.start
         case Started(_) => RunReply(turn, fate.run)
         case StartFailed => Some(Failure(turn, BotStartFailed))
         case StartLate => Some(Failure(turn, BotDecisionTimeout))
         case StartCancelled => None)
    case _ => None
  }

  /** The slot after a message. */
  function SlotAfter(slot: Slot, message: Message, fate: Fate): Slot {
    match message
    case Ignored => slot
    case Ping => slot
    case Prepare(None) => slot
    case Prepare(Some(goal)) =>
      if fate.start.Started? && !(slot.Some? && fate.stopCancelled) then Some((goal, fate.start.pid)) else None
    case _ => None
  }

  /** The run was cut short or its reply did not get through. */
  predicate Broke(turn: Binding, fate: Fate) {
    fate.run.Aborts? || (!fate.send.Delivered? && RunReply(turn, fate.run).Some?)
  }

  predicate EndsPrepare(slot: Slot, fate: Fate) {
    (slot.Some? && fate.stopCancelled) || fate.start.StartCancelled? || !fate.send.Delivered?
  }

  predicate EndsTurn(slot: Slot, turn: Binding, fate: Fate) {
    if slot.Some? && slot.value.0 != turn then fate.stopCancelled
    else if slot.None? && !fate.start.Started? then fate.start.StartCancelled? || !fate.send.Delivered?
    else fate.stopCancelled || Broke(turn, fate)
  }

  /** The message ends the connection: a stop or a start it needs is cancelled, its run is cut
      short, or its reply does not get through. */
  predicate Ends(slot: Slot, message: Message, fate: Fate) {
    match message
    case Ping => !fate.send.Delivered?
    case Prepare(Some(_)) => EndsPrepare(slot, fate)
    case Turn(Some(turn)) => EndsTurn(slot, turn, fate)
    case Rejection => slot.Some? && fate.stopCancelled
    case Turn(None) => slot.Some? && fate.stopCancelled
    case _ => false
  }

  /** A reply, if there is one and it leaves. */
  function Saying(reply: Option<Reply>, send: Send): seq<Event> {
    if reply.Some? && (send.Delivered? || send.left) then [Sent(reply.value)] else []
  }

  /** A prepared process that is not to be run is stopped. */
  function Discarding(slot: Slot): seq<Event> {
    if slot.Some? then [Stopped(slot.value.1)] else []
  }

  /** What a process is handed and says, while it runs. */
  function Conversation(pid: int, turn: Binding, fate: Fate): seq<Event> {
    (if fate.run.Aborts? && !fate.run.handed then [] else [Handed(pid, turn)])
    + Saying(RunReply(turn, fate.run), fate.send)
  }

  /** A process handed a request answers, and is stopped in every case. */
  function RunEvents(pid: int, turn: Binding, fate: Fate): seq<Event> {
    Conversation(pid, turn, fate) + [Stopped(pid)]
  }

  function Preparing(goal: Binding, fate: Fate): seq<Event> {
    (if fate.start.Started? then [Spawned(fate.start.pid, goal)] else [])
    + Saying(Answer(None, Prepare(Some(goal)), fate), fate.send)
  }

  function PrepareEvents(slot: Slot, goal: Binding, fate: Fate): seq<Event> {
    if slot.Some? && fate.stopCancelled then Discarding(slot) else Discarding(slot) + Preparing(goal, fate)
  }

  function TurnEvents(slot: Slot, turn: Binding, fate: Fate): seq<Event> {
    if slot.Some? && slot.value.0 != turn then Discarding(slot)
    else if slot.Some? then RunEvents(slot.value.1, turn, fate)
    else if fate.start.Started? then [Spawned(fate.start.pid, turn)] + RunEvents(fate.start.pid, turn, fate)
    else Saying(Answer(slot, Turn(Some(turn)), fate), fate.send)
  }

  /** All that happens on a message, once it is received. */
  function Script(slot: Slot, message: Message, fate: Fate): seq<Event> {
    match message
    case Ping => Saying(Some(Pong), fate.send)
    case Prepare(Some(goal)) => PrepareEvents(slot, goal, fate)
    case Turn(Some(turn)) => TurnEvents(slot, turn, fate)
    case Rejection => Discarding(slot)
    case Turn(None) => Discarding(slot)
    case _ => []
  }

  // ----- the connector

  /** How a run ended: normally, by a turn error, or by an exception that ends the connection. */
  datatype Result = Returned | Raised(reason: Option<Reason>, relayed: bool) | Ended

  /** Sends one reply; a broken send ends the connection. */
  method Relay(trace: seq<Event>, reply: Reply, send: Send) returns (more: seq<Event>, ok: bool)
    requires Watched(trace).Some? && MaySend(Watched(trace).value, reply)
    ensures ok <==> send.Delivered?
    ensures more == trace + Saying(Some(reply), send)
    ensures Reaches(more, Watched(trace).value) || Reaches(more, Watched(trace).value.(replied := true))
  {
    more := trace;
    ok := send.Delivered?;
    if send.Delivered? || send.left {
      more := Then(trace, Sent(reply));
    }
  }

  /** A prepared process gets the request and one chance to answer; it is stopped in every case. */
  method RunPrepared(trace: seq<Event>, pid: int, turn: Binding, fate: Fate)
    returns (more: seq<Event>, result: Result)
    requires Reaches(trace, Monitor(Some(Process(pid, turn, false)), Turn(Some(turn)), false))
    ensures Watched(more).Some?
    ensures Watched(more).value.process.None? && Watched(more).value.current == Turn(Some(turn))
    ensures result.Ended? <==> fate.stopCancelled || Broke(turn, fate)
    ensures more == trace + RunEvents(pid, turn, fate)
    ensures result.Raised? ==> result.reason.None? || result.relayed
  {
    more, result := Converse(trace, pid, turn, fate);
    more := Then(more, Stopped(pid));
    if fate.stopCancelled {
      result := Ended;
    }
  }

  method Converse(trace: seq<Event>, pid: int, turn: Binding, fate: Fate)
    returns (more: seq<Event>, result: Result)
    requires Reaches(trace, Monitor(Some(Process(pid, turn, false)), Turn(Some(turn)), false))
    ensures Watched(more).Some?
    ensures
      var n := Watched(more).value;
      n.process.Some? && n.process.value.pid == pid && n.current == Turn(Some(turn))
    ensures result.Ended? <==> Broke(turn, fate)
    ensures more == trace + Conversation(pid, turn, fate)
    ensures result.Raised? ==> result.reason.None? || result.relayed
  {
    more := trace;
    result := Ended;
    if fate.run.Aborts? {
      if fate.run.handed {
        more := Then(more, Handed(pid, turn));
      }
      return;
    }
    more := Then(more, Handed(pid, turn));
    var ok;
    if fate.run.Answers? {
      more, ok := Relay(more, Response(turn, fate.run.output), fate.send);
      result := if ok then Returned else Ended;
    } else if fate.run.reason.None? {
      result := Raised(None, false);
    } else {
      more, ok := Relay(more, Failure(turn, fate.run.reason.value), fate.send);
      result := if ok then Raised(fate.run.reason, true) else Ended;
    }
  }

  /** A turn without a prepared process: one is started for it, and stopped if it was. */
  method RunDirect(trace: seq<Event>, turn: Binding, fate: Fate)
    returns (more: seq<Event>, result: Result)
    requires Reaches(trace, Monitor(None, Turn(Some(turn)), false))
    ensures Watched(more).Some?
    ensures Watched(more).value.process.None? && Watched(more).value.current == Turn(Some(turn))
    ensures result.Ended? <==> EndsTurn(None, turn, fate)
    ensures more == trace + TurnEvents(None, turn, fate)
    ensures result.Raised? ==> result.reason.None? || result.relayed
  {
    match fate.start
    case Started(pid) =>
      more := Then(trace, Spawned(pid, turn));
      more, result := RunPrepared(more, pid, turn, fate);
    case StartCancelled =>
      more, result := trace, Ended;
    case _ =>
      var reason := if fate.start.StartLate? then BotDecisionTimeout else BotStartFailed;
      var ok;
      more, ok := Relay(trace, Failure(turn, reason), fate.send);
      result := if ok then Raised(Some(reason), true) else Ended;
  }

  /** Nothing that ends the connection. */
  predicate Calm(fate: Fate) {
    fate.send.Delivered? && !fate.run.Aborts? && !fate.start.StartCancelled? && !fate.stopCancelled
  }

  ghost predicate Holds(trace: seq<Event>, slot: Slot) {
    && Watched(trace).Some?
    && Watched(trace).value.process
       == (match slot case None => None case Some((goal, pid)) => Some(Process(pid, goal, false)))
  }

  /** A message has just been received and not been answered. */
  ghost predicate Asked(trace: seq<Event>, message: Message) {
    Watched(trace).Some? && Watched(trace).value.current == message && !Watched(trace).value.replied
  }

  /** The part of the preparation that follows the stop of an older process. */
  method StartPrepared(trace: seq<Event>, goal: Binding, fate: Fate)
    returns (more: seq<Event>, next: Slot, going: bool)
    requires Holds(trace, None) && Asked(trace, Prepare(Some(goal)))
    ensures Holds(more, next) && more == trace + Preparing(goal, fate)
    ensures going <==> !EndsPrepare(None, fate)
    ensures next == SlotAfter(None, Prepare(Some(goal)), fate)
  {
    more, next, going := trace, None, true;
    match fate.start
    case StartCancelled =>
      going := false;
    case Started(pid) =>
      more := Then(more, Spawned(pid, goal));
      next := Some((goal, pid));
      more, going := Relay(more, Prepared(goal), fate.send);
    case _ =>
      more, going := Relay(more, Failure(goal, BotStartFailed), fate.send);
  }

  method HandlePrepare(trace: seq<Event>, slot: Slot, goal: Binding, fate: Fate)
    returns (more: seq<Event>, next: Slot, going: bool)
    requires Holds(trace, slot) && Asked(trace, Prepare(Some(goal)))
    ensures Holds(more, next) && more == trace + PrepareEvents(slot, goal, fate)
    ensures going <==> !EndsPrepare(slot, fate)
    ensures next == SlotAfter(slot, Prepare(Some(goal)), fate)
  {
    more := trace;
    if slot.Some? {
      more := Then(more, Stopped(slot.value.1));
      if fate.stopCancelled {
        return more, None, false;
      }
    }
    more, next, going := StartPrepared(more, goal, fate);
  }

  method HandleTurn(trace: seq<Event>, slot: Slot, turn: Binding, fate: Fate)
    returns (more: seq<Event>, next: Slot, going: bool)
    requires Holds(trace, slot) && Asked(trace, Turn(Some(turn)))
    ensures Holds(more, next) && more == trace + TurnEvents(slot, turn, fate)
    ensures going <==> !EndsTurn(slot, turn, fate)
    ensures next.None?
  {
    more, next, going := trace, None, true;
    var result;
    if slot.Some? {
      var (goal, pid) := slot.value;
      if goal != turn {
        more := Then(more, Stopped(pid));
        going := !fate.stopCancelled;
        return;
      }
      more, result := RunPrepared(more, pid, turn, fate);
    } else {
      more, result := RunDirect(more, turn, fate);
    }
    match result
    case Returned =>
    case Ended => going := false;
    case Raised(reason, relayed) =>
      // Every reportable failure has been relayed where it arose: the loop's own send is never needed.
      if reason.Some? && !relayed {
        assert false;
      }
  }

  /** A prepared process that no request will use is stopped. */
  method Discard(trace: seq<Event>, slot: Slot, fate: Fate) returns (more: seq<Event>, going: bool)
    requires Holds(trace, slot)
    ensures Holds(more, None) && more == trace + Discarding(slot)
    ensures going <==> !(slot.Some? && fate.stopCancelled)
  {
    more, going := trace, true;
    if slot.Some? {
      more := Then(more, Stopped(slot.value.1));
      going := !fate.stopCancelled;
    }
  }

  /** The branches for a message that has been received. */
  method React(trace: seq<Event>, slot: Slot, message: Message, fate: Fate)
    returns (more: seq<Event>, next: Slot, going: bool)
    requires Holds(trace, slot) && Asked(trace, message)
    ensures Holds(more, next) && more == trace + Script(slot, message, fate)
    ensures going <==> !Ends(slot, message, fate)
    ensures next == SlotAfter(slot, message, fate)
  {
    more, next, going := trace, slot, true;
    match message
    case Ignored =>
    case Ping =>
      more, going := Relay(trace, Pong, fate.send);
    case Prepare(preparation) =>
      if preparation.Some? {
        more, next, going := HandlePrepare(trace, slot, preparation.value, fate);
      }
    case Turn(Some(turn)) =>
      more, next, going := HandleTurn(trace, slot, turn, fate);
    case _ =>
      next := None;
      more, going := Discard(trace, slot, fate);
  }

  /** One message, whatever its fate: what happens, what is prepared then, and whether the
      connection goes on. */
  method HandleMessage(trace: seq<Event>, slot: Slot, message: Message, fate: Fate)
    returns (more: seq<Event>, next: Slot, going: bool)
    requires Holds(trace, slot)
    ensures Holds(more, next) && more == trace + [Received(message)] + Script(slot, message, fate)
    ensures going <==> !Ends(slot, message, fate)
    ensures next == SlotAfter(slot, message, fate)
  {
    more, next, going := React(Then(trace, Received(message)), slot, message, fate);
  }

  // ----- the whole connection

  /** The messages of an inbox handled in turn up to one that ends the connection, and a process
      left over stopped at the end. */
  function Transcript(slot: Slot, inbox: seq<(Message, Fate)>): seq<Event>
    decreases |inbox|
  {
    if |inbox| == 0 then Discarding(slot)
    else
      var (message, fate) := inbox[0];
      var next := SlotAfter(slot, message, fate);
      [Received(message)] + Script(slot, message, fate)
      + (if Ends(slot, message, fate) then Discarding(next) else Transcript(next, inbox[1..]))
  }

  lemma Glue(a: seq<Event>, b: seq<Event>, c: seq<Event>, d: seq<Event>)
    ensures a + (b + c + d) == (a + b + c) + d
  {
  }

  /** What is still to come after some messages. */
  ghost predicate Follows(trace: seq<Event>, slot: Slot, inbox: seq<(Message, Fate)>, i: nat, going: bool)
    requires i <= |inbox|
  {
    Transcript(None, inbox) == trace + (if going then Transcript(slot, inbox[i..]) else Discarding(slot))
  }

  lemma FollowsOn(trace: seq<Event>, slot: Slot, inbox: seq<(Message, Fate)>, i: nat, script: seq<Event>, going: bool)
    requires i < |inbox| && Follows(trace, slot, inbox, i, true) && (going <==> !Ends(slot, inbox[i].0, inbox[i].1))
    requires script == Script(slot, inbox[i].0, inbox[i].1)
    ensures
      var (message, fate) := inbox[i];
      Follows(trace + [Received(message)] + script, SlotAfter(slot, message, fate), inbox, i + 1, going)
  {
    assert inbox[i..][1..] == inbox[i + 1..];
    var next := SlotAfter(slot, inbox[i].0, inbox[i].1);
    Glue(trace, [Received(inbox[i].0)], script, if going then Transcript(next, inbox[i + 1..]) else Discarding(next));
  }

  /** The loop, until the messages run out or one ends the connection. */
  method Serve(inbox: seq<(Message, Fate)>) returns (trace: seq<Event>, prepared: Slot)
    ensures Holds(trace, prepared) && Transcript(None, inbox) == trace + Discarding(prepared)
  {
    trace, prepared := [], None;
    var i := 0;
    var going := true;
    assert inbox[0..] == inbox;
    while i < |inbox| && going
      invariant 0 <= i <= |inbox| && Holds(trace, prepared)
      invariant Follows(trace, prepared, inbox, i, going)
    {
      ghost var slot := prepared;
      var (message, fate) := inbox[i];
      FollowsOn(trace, slot, inbox, i, Script(slot, message, fate), !Ends(slot, message, fate));
      trace, prepared, going := HandleMessage(trace, prepared, message, fate);
      i := i + 1;
    }
    assert going ==> inbox[i..] == [];
  }

  /** Whatever arrives and whatever fails: no rule is broken, no process is left, and what
      happens is exactly what the messages call for, up to the one that ends the connection. */
  method HandleConnection(inbox: seq<(Message, Fate)>) returns (trace: seq<Event>)
    ensures Watched(trace).Some? && Watched(trace).value.process.None?
    ensures Alive(trace) == {}
    ensures trace == Transcript(None, inbox)
  {
    var prepared;
    trace, prepared := Serve(inbox);
    if prepared.Some? {
      trace := Then(trace, Stopped(prepared.value.1));
    }
    AliveIsMonitored(trace);
  }

  // ----- the dialogue

  /** The messages and replies of a trace. */
  function Dialogue(trace: seq<Event>): seq<Event> {
    if |trace| == 0 then []
    else
      var last := trace[|trace| - 1];
      Dialogue(trace[..|trace| - 1]) + (if last.Received? || last.Sent? then [last] else [])
  }

  /** Each message followed by the reply it calls for, if any, up to one that ends the connection;
      there the reply may have been lost. */
  function Answered(slot: Slot, inbox: seq<(Message, Fate)>): seq<Event>
    decreases |inbox|
  {
    if |inbox| == 0 then []
    else
      var (message, fate) := inbox[0];
      [Received(message)] + Saying(Answer(slot, message, fate), fate.send)
      + (if Ends(slot, message, fate) then [] else Answered(SlotAfter(slot, message, fate), inbox[1..]))
  }

  lemma {:induction false} DialogueSplit(a: seq<Event>, b: seq<Event>)
    ensures Dialogue(a + b) == Dialogue(a) + Dialogue(b)
    decreases |b|
  {
    if |b| == 0 {
      assert a + b == a;
    } else {
      assert (a + b)[..|a + b| - 1] == a + b[..|b| - 1];
      DialogueSplit(a, b[..|b| - 1]);
    }
  }

  lemma DialogueOne(e: Event)
    ensures Dialogue([e]) == if e.Received? || e.Sent? then [e] else []
  {
    assert [e][..0] == [];
  }

  lemma DialogueSaying(reply: Option<Reply>, send: Send)
    ensures Dialogue(Saying(reply, send)) == Saying(reply, send)
  {
    if reply.Some? {
      DialogueOne(Sent(reply.value));
    }
  }

  lemma DialogueOfRun(pid: int, turn: Binding, fate: Fate)
    ensures Dialogue(RunEvents(pid, turn, fate)) == Saying(RunReply(turn, fate.run), fate.send)
  {
    var hand := if fate.run.Aborts? && !fate.run.handed then [] else [Handed(pid, turn)];
    DialogueOne(Handed(pid, turn));
    DialogueOne(Stopped(pid));
    DialogueSaying(RunReply(turn, fate.run), fate.send);
    DialogueSplit(hand, Saying(RunReply(turn, fate.run), fate.send));
    DialogueSplit(Conversation(pid, turn, fate), [Stopped(pid)]);
  }

  lemma DialogueOfDiscarding(slot: Slot)
    ensures Dialogue(Discarding(slot)) == []
  {
    if slot.Some? {
      DialogueOne(Stopped(slot.value.1));
    }
  }

  lemma DialogueOfPrepare(slot: Slot, goal: Binding, fate: Fate)
    ensures Dialogue(PrepareEvents(slot, goal, fate)) == Saying(Answer(slot, Prepare(Some(goal)), fate), fate.send)
  {
    var start := if fate.start.Started? then [Spawned(fate.start.pid, goal)] else [];
    var reply := Answer(None, Prepare(Some(goal)), fate);
    DialogueOfDiscarding(slot);
    if fate.start.Started? {
      DialogueOne(Spawned(fate.start.pid, goal));
    }
    DialogueSaying(reply, fate.send);
    DialogueSplit(start, Saying(reply, fate.send));
    DialogueSplit(Discarding(slot), Preparing(goal, fate));
  }

  lemma DialogueOfTurn(slot: Slot, turn: Binding, fate: Fate)
    ensures Dialogue(TurnEvents(slot, turn, fate)) == Saying(Answer(slot, Turn(Some(turn)), fate), fate.send)
  {
    if slot.Some? {
      DialogueOfDiscarding(slot);
      DialogueOfRun(slot.value.1, turn, fate);
    } else if fate.start.Started? {
      DialogueOne(Spawned(fate.start.pid, turn));
      DialogueOfRun(fate.start.pid, turn, fate);
      DialogueSplit([Spawned(fate.start.pid, turn)], RunEvents(fate.start.pid, turn, fate));
    } else {
      DialogueSaying(Answer(slot, Turn(Some(turn)), fate), fate.send);
    }
  }

  lemma DialogueOfScript(slot: Slot, message: Message, fate: Fate)
    ensures Dialogue(Script(slot, message, fate)) == Saying(Answer(slot, message, fate), fate.send)
  {
    match message
    case Ping => DialogueSaying(Some(Pong), fate.send);
    case Prepare(Some(goal)) => DialogueOfPrepare(slot, goal, fate);
    case Turn(Some(turn)) => DialogueOfTurn(slot, turn, fate);
    case _ => DialogueOfDiscarding(slot);
  }

  lemma DialogueOn(message: Message, script: seq<Event>, said: seq<Event>, rest: seq<Event>)
    requires Dialogue(script) == said
    ensures Dialogue([Received(message)] + script + rest) == [Received(message)] + said + Dialogue(rest)
  {
    DialogueOne(Received(message));
    DialogueSplit([Received(message)], script);
    DialogueSplit([Received(message)] + script, rest);
  }

  /** Between each message and the next stands exactly the reply it calls for. */
  lemma {:induction false} TranscriptIsAnswered(slot: Slot, inbox: seq<(Message, Fate)>)
    ensures Dialogue(Transcript(slot, inbox)) == Answered(slot, inbox)
    decreases |inbox|
  {
    if |inbox| == 0 {
      DialogueOfDiscarding(slot);
    } else {
      var (message, fate) := inbox[0];
      var next := SlotAfter(slot, message, fate);
      DialogueOfScript(slot, message, fate);
      DialogueOfDiscarding(next);
      DialogueOn(message, Script(slot, message, fate), Saying(Answer(slot, message, fate), fate.send),
                 if Ends(slot, message, fate) then Discarding(next) else Transcript(next, inbox[1..]));
      TranscriptIsAnswered(next, inbox[1..]);
    }
  }

  /** If nothing is cancelled, cut short or lost, a message does not end the connection and the
      reply it calls for is sent. */
  lemma CalmGoesOn(slot: Slot, message: Message, fate: Fate)
    requires Calm(fate)
    ensures !Ends(slot, message, fate)
    ensures Answer(slot, message, fate).Some? ==>
              Saying(Answer(slot, message, fate), fate.send) == [Sent(Answer(slot, message, fate).value)]
  {
  }
}
