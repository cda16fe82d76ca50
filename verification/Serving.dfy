/** The connected phase makes progress: with no fault, refusal, failed poll or panic, every message that is
    submitted is returned by the server. There is no circular wait between the worker's poll for its
    message and the receive that the server posts again after each one. */
module Serving {
  import opened Registration
  import opened Completion
  import opened Commands
  import opened Journal
  import opened Protocol
  import opened Invariant
  import opened Preservation
  import opened FabricPreservation
  import opened Shadows
  import opened Theorems
  import opened Delivery
  import opened Reports
  import opened Shutdown
  import opened Progress

  /** The command can be carried out: its message fits, its transfer passes every check. */
  predicate Feasible(cfg: Config, cmd: Command) {
    (Message(cmd) ==> FitsBuffer(cmd)) && (Transfer(cmd) ==> Allowed(cfg, cmd))
  }

  /** In terms of the command's own fields: a `Complete` is of at most 4083 bytes, and both blocks of a transfer of
      at least one byte are in range. */
  lemma FeasibleIff(cfg: Config, cmd: Command)
    ensures Feasible(cfg, cmd) <==>
            (cmd.Complete? ==> 13 + |cmd.reqId| <= 4096)
            && ((cmd.Send? || cmd.Recv?) && cmd.local.size > 0 ==> LocalInRange(cfg, cmd) && RemoteInRange(cfg, cmd))
  {
    if cmd.Send? || cmd.Recv? {
      AllowedIff(cfg, cmd);
    }
  }

  predicate AllFeasible(cfg: Config, cmds: seq<Command>) {
    forall i :: 0 <= i < |cmds| ==> Feasible(cfg, cmds[i])
  }

  predicate AllWell(outs: seq<Outcome>) {
    forall i :: 0 <= i < |outs| ==> outs[i].Ok? || outs[i].Skipped?
  }

  /** Both calls have returned Ok, nothing has gone wrong since, and nothing infeasible was submitted. A
      queue pair fails only when its own program disconnects. */
  predicate Calm(cfg: Config, st: State) {
    ClientPhase(st.client.pc) == 9 && ServerPhase(st.server.pc) == 9
    && (st.c.err ==> st.client.pc.CDone?) && (st.s.err ==> st.server.pc == SClosed(true))
    && AllWell(st.client.outs) && AllFeasible(cfg, st.cmds) && ValidConfig(cfg)
  }

  /** A sound state of a connection that is calm. */
  ghost predicate Serves(cfg: Config, st: State) {
    Sound(cfg, st) && Calm(cfg, st)
  }

  lemma ServesIsCore(cfg: Config, st: State)
    requires Serves(cfg, st)
    ensures Core(cfg, st)
  {
    AliveIsCore(cfg, st);
  }

  /** The steps that carry commands on. */
  predicate WorkAction(st: State, a: Action) {
    a.ClientRuns? || a.ServerRuns? || a.DeliverToServer? || (a.FetchClient? && st.c.sq != [] && st.c.sq[0].payload.None?)
  }

  /** What may happen besides: anything but a fault, a refusal, a lost acknowledgement, a failed poll or an
      infeasible command. */
  predicate Gentle(cfg: Config, a: Action) {
    !a.ClientIsRefused? && !a.ServerIsRefused? && !a.ClientPollFails? && !a.ServerPollFails?
    && !a.FaultClient? && !a.FaultServer? && !a.LoseAckClient? && !a.LoseAckServer?
    && (a.Submit? ==> Feasible(cfg, a.cmd))
  }

  // ----- The rank: steps left to the worker and to the server

  function PassLeft(pc: ClientPc, c: Node): nat {
    match pc
    case CLock => 15
    case CAdd => 14
    case CEvict => 13
    case CPost => 12
    case CPoll => if c.sq == [] then 2 else if c.sq[0].payload.None? then 11 else 10
    case _ => 16
  }

  function ClientWork(cmds: nat, client: Client, c: Node): nat {
    (if client.k < cmds then 16 * (cmds - client.k - 1) + PassLeft(client.pc, c) else 0) + if client.pc.CHangup? then 1 else 0
  }

  function ServerWork(pc: ServerPc, s: Node): nat {
    if pc.SPollRecv? then (if s.rcq == [] then 0 else 7) else if pc.SDecode? then 6 else if pc.SHandle? then 5 else if pc.SLock? then 4
    else if pc.SAdd? then 3 else if pc.SEvict? then 2 else if pc.SPostRecv? || pc.SHangup? then 1 else 0
  }

  function Work(st: State): nat {
    ClientWork(|st.cmds|, st.client, st.c) + ServerWork(st.server.pc, st.s)
  }

  // ----- No circular wait

  /** The server waits for the next message, or has stopped for good. */
  predicate Resting(st: State) {
    (st.server.pc.SPollRecv? && st.s.rcq == []) || st.server.pc == SClosed(true)
  }

  /** The worker has nothing left to do. */
  predicate Idle(st: State) {
    (st.client.pc.CNext? && st.client.k >= |st.cmds|) || st.client.pc.CDone?
  }

  lemma SomeWork(cfg: Config, st: State) returns (a: Action)
    requires Core(cfg, st) && Calm(cfg, st) && !(Idle(st) && Resting(st))
    ensures WorkAction(st, a) && Enabled(cfg, st, a)
  {
    if !Resting(st) {
      a := ServerRuns;
      ServerCanRun(st);
    } else if !(st.client.pc.CPoll? && st.c.scq == []) {
      a := ClientRuns;
      WorkerHasCommand(cfg, st);
    } else {
      NotStoppedYet(cfg, st);
      a := SomeDelivery(cfg, st);
    }
  }

  lemma ServerCanRun(st: State)
    requires ServerPhase(st.server.pc) == 9 && !Resting(st)
    ensures ServerEnabled(st)
  {
  }

  lemma WorkerHasCommand(cfg: Config, st: State)
    requires Worker(cfg, st) && ClientPhase(st.client.pc) == 9 && !Idle(st) && !(st.client.pc.CPoll? && st.c.scq == [])
    ensures ClientEnabled(st)
  {
    assert Current(cfg, st.cmds, st.client, st.c.buf);
  }

  /** While a request of the worker is on its queue, the server has not been told to stop. */
  lemma NotStoppedYet(cfg: Config, st: State)
    requires Core(cfg, st) && st.client.pc.CPoll? && st.c.scq == []
    ensures !Stopped(st.server.pc)
  {
    if Stopped(st.server.pc) {
      var p := StopMessage(cfg, st);
      NotStoppedAt(st.cmds, st.client, p);
    }
  }

  lemma NotStoppedAt(cmds: seq<Command>, client: Client, p: nat)
    requires Outcomes(cmds, client) && client.pc.CPoll? && p < client.k && p < |cmds|
    ensures !cmds[p].Disconnect?
  {
  }

  lemma SomeDelivery(cfg: Config, st: State) returns (a: Action)
    requires Setup(cfg, st) && Worker(cfg, st) && Calm(cfg, st) && st.client.pc.CPoll? && st.c.scq == []
    requires st.server.pc.SPollRecv? && st.s.rcq == []
    ensures WorkAction(st, a) && Enabled(cfg, st, a)
  {
    OnQueue(cfg, st);
    var slot := st.c.sq[0];
    if slot.wr.WrRead? || slot.payload.Some? {
      a := DeliverToServer;
    } else {
      a := FetchClient;
    }
  }

  /** The request on the queue is that of a feasible command, so nothing but its delivery is missing. */
  lemma OnQueue(cfg: Config, st: State)
    requires Setup(cfg, st) && Worker(cfg, st) && Calm(cfg, st) && st.client.pc.CPoll? && st.c.scq == []
    requires st.server.pc.SPollRecv? && st.s.rcq == []
    ensures st.c.sq != [] && !st.c.sq[0].wr.WrHello? && !st.c.err && !st.s.err && st.s.rq != [] && st.accepted
    ensures st.c.sq[0].payload.None? && !st.c.sq[0].wr.WrRead? ==> CanFetch(st.c)
    ensures st.c.sq[0].payload.Some? || st.c.sq[0].wr.WrRead? ==> ToServerEnabled(cfg, st)
  {
    assert Current(cfg, st.cmds, st.client, st.c.buf);
    assert Posted(cfg, st.cmds, st.client, st.c, st.journal);
    var cmd := st.cmds[st.client.k];
    QueuedBounds(cfg, st);
    if Message(cmd) {
      MessageOnQueue(cfg, cmd, st);
    } else {
      TransferOnQueue(cfg, cmd, st);
    }
  }

  lemma QueuedBounds(cfg: Config, st: State)
    requires Setup(cfg, st) && st.client.pc.CPoll? && st.c.scq == [] && st.server.pc.SPollRecv? && st.s.rcq == []
    ensures |st.c.sq| == 1 && |st.s.rq| == 1 && st.accepted && |st.s.buf| == |st.c.buf| == 4096
  {
  }

  lemma MessageOnQueue(cfg: Config, cmd: Command, st: State)
    requires |st.c.sq| == 1 && |st.s.rq| == 1 && st.accepted && |st.s.buf| == 4096 && !st.c.err && !st.s.err && Message(cmd)
    requires st.c.sq[0].wr == RequestFor(cfg, cfg.serverCpu, RemoteOf(cfg.serverBufs), cmd)
    requires st.c.sq[0].payload.Some? ==> HoldsNote(cmd, st.c.sq[0].payload.value)
    ensures st.c.sq[0].payload.None? ==> CanFetch(st.c)
    ensures st.c.sq[0].payload.Some? ==> ToServerEnabled(cfg, st)
  {
  }

  lemma TransferOnQueue(cfg: Config, cmd: Command, st: State)
    requires |st.c.sq| == 1 && st.accepted && !st.c.err && !st.s.err && Transfer(cmd) && Allowed(cfg, cmd)
    requires st.c.sq[0].wr == RequestFor(cfg, cfg.serverCpu, RemoteOf(cfg.serverBufs), cmd)
    requires st.c.sq[0].payload.Some? && cmd.Send? ==>
               SeenAt(cfg, st.journal, cmd, st.c.sq[0].since, st.c.sq[0].seen, st.c.sq[0].payload.value)
    requires ValidConfig(cfg)
    ensures !st.c.sq[0].wr.WrHello? && !st.c.sq[0].wr.WrImm?
    ensures st.c.sq[0].payload.None? && !st.c.sq[0].wr.WrRead? ==> CanFetch(st.c)
    ensures st.c.sq[0].payload.Some? || st.c.sq[0].wr.WrRead? ==> ToServerEnabled(cfg, st)
  {
    RemoteAgreesWithLocal(cfg.serverBufs);
    AllowedInMemory(cfg, cmd);
  }

  // ----- Every step keeps the calm, and those of the work lower the rank

  /** From `st` to `t` one step of the work is done. */
  predicate Closer(cfg: Config, st: State, t: State) {
    Calm(cfg, t) && Work(t) < Work(st)
  }

  lemma WorkerCloser(cfg: Config, st: State)
    requires Setup(cfg, st) && Worker(cfg, st) && Calm(cfg, st) && ClientEnabled(st)
    ensures Closer(cfg, st, WorkerStep(cfg, st))
  {
    if st.client.pc.CNext? {
      KnowsRemote(cfg, st);
      TakeCloser(cfg, st);
    } else if st.client.pc.CPoll? {
      assert SendQueues(st.c, true);
      PollCloser(cfg, st);
    } else if st.client.pc.CPost? {
      KnowsRemote(cfg, st);
      assert Current(cfg, st.cmds, st.client, st.c.buf);
      assert st.c.sq == [] && st.c.scq == [];
      PostCloser(cfg, st);
    } else {
      assert Current(cfg, st.cmds, st.client, st.c.buf);
      LockCloser(cfg, st);
    }
  }

  lemma TakeCloser(cfg: Config, st: State)
    requires Calm(cfg, st) && st.client.pc.CNext? && st.client.k < |st.cmds| && |st.c.buf| == 4096
    requires st.client.remote == RemoteOf(cfg.serverBufs)
    ensures Closer(cfg, st, TakeCommand(cfg, st))
  {
    var cmd := st.cmds[st.client.k];
    assert Feasible(cfg, cmd);
    if Message(cmd) {
      MessageCloser(cfg, st);
    } else {
      TransferCloser(cfg, st);
    }
  }

  lemma MessageCloser(cfg: Config, st: State)
    requires Calm(cfg, st) && st.client.pc.CNext? && st.client.k < |st.cmds| && |st.c.buf| == 4096
    requires Message(st.cmds[st.client.k]) && FitsBuffer(st.cmds[st.client.k])
    ensures Closer(cfg, st, TakeCommand(cfg, st))
  {
  }

  lemma TransferCloser(cfg: Config, st: State)
    requires Calm(cfg, st) && st.client.pc.CNext? && st.client.k < |st.cmds| && Moving(st.cmds[st.client.k])
    requires Feasible(cfg, st.cmds[st.client.k]) && st.client.remote == RemoteOf(cfg.serverBufs)
    ensures Closer(cfg, st, TakeCommand(cfg, st))
  {
  }

  lemma PostCloser(cfg: Config, st: State)
    requires Calm(cfg, st) && st.client.pc.CPost? && st.client.k < |st.cmds| && st.c.sq == []
    requires Moving(st.cmds[st.client.k]) ==> Resolved(cfg, st.client.remote, st.cmds[st.client.k])
    ensures Closer(cfg, st, WorkerStep(cfg, st))
  {
  }

  lemma PollCloser(cfg: Config, st: State)
    requires Calm(cfg, st) && st.client.pc.CPoll? && ClientEnabled(st) && SendQueues(st.c, true)
    ensures Closer(cfg, st, WorkerStep(cfg, st))
  {
    assert st.c.scq[0].ok;
  }

  lemma LockCloser(cfg: Config, st: State)
    requires Calm(cfg, st) && ClientEnabled(st)
    requires st.client.pc.CLock? || st.client.pc.CAdd? || st.client.pc.CEvict? || st.client.pc.CHangup?
    requires st.client.pc.CAdd? ==> st.cmds[st.client.k].Complete?
    ensures Closer(cfg, st, WorkerStep(cfg, st))
  {
  }

  lemma ServerCloser(cfg: Config, st: State)
    requires Inbox(st) && ServerQueues(st.s, st.server.pc, st.accepted) && Calm(cfg, st) && ServerEnabled(st)
    ensures Closer(cfg, st, LoopStep(st)) && !Accepting(st.server.pc)
  {
    if st.server.pc.SDecode? {
      DecodesArrived(st.cmds[SignalAt(st.journal)[|st.server.returned|]], st);
    } else if st.server.pc.SPollRecv? {
      PollingIsPop(st);
    } else {
      LoopCloser(cfg, st);
    }
  }

  lemma LoopCloser(cfg: Config, st: State)
    requires Recorded(st.server) && Calm(cfg, st) && ServerEnabled(st) && !st.server.pc.SDecode? && !st.server.pc.SPollRecv?
    requires st.s.rcq == []
    ensures Closer(cfg, st, LoopStep(st))
  {
    if st.server.pc.SHandle? {
      HandleCloser(cfg, st);
    } else if st.server.pc.SAdd? || st.server.pc.SHangup? {
      AddCloser(cfg, st);
    }
  }

  lemma HandleCloser(cfg: Config, st: State)
    requires Calm(cfg, st) && st.server.pc.SHandle?
    ensures Closer(cfg, st, LoopStep(st))
  {
  }

  lemma AddCloser(cfg: Config, st: State)
    requires Recorded(st.server) && Calm(cfg, st) && (st.server.pc.SAdd? || st.server.pc.SHangup?)
    ensures Closer(cfg, st, LoopStep(st))
  {
  }

  /** What a delivery leaves of the request: a completion. */
  lemma DeliveryCloser(cfg: Config, st: State)
    requires Setup(cfg, st) && Worker(cfg, st) && Calm(cfg, st) && ToServerEnabled(cfg, st)
    ensures Closer(cfg, st, ToServer(cfg, st, true))
  {
    if HelloDeliverable(st.c, st.s) {
      HelloToServer(cfg, st);
    } else if ImmDeliverable(st.c, st.s, cfg.serverCpu) {
      MessageToServer(cfg, st);
      ArrivalCloser(cfg, st);
    } else {
      TransferToServer(cfg, st);
      LandingCloser(cfg, st);
    }
  }

  lemma ArrivalCloser(cfg: Config, st: State)
    requires Calm(cfg, st) && ToServerEnabled(cfg, st) && ImmDeliverable(st.c, st.s, cfg.serverCpu)
    requires st.client.pc.CPoll? && st.client.k < |st.cmds| && |st.c.sq| == 1 && st.server.pc.SPollRecv? && st.s.rcq == []
    ensures Closer(cfg, st, ToServer(cfg, st, true))
  {
  }

  lemma LandingCloser(cfg: Config, st: State)
    requires Calm(cfg, st) && ToServerEnabled(cfg, st) && OneSided(cfg, st)
    requires st.client.pc.CPoll? && st.client.k < |st.cmds| && |st.c.sq| == 1
    ensures Closer(cfg, st, ToServer(cfg, st, true))
  {
  }

  lemma FetchCloser(cfg: Config, st: State)
    requires Setup(cfg, st) && Worker(cfg, st) && Calm(cfg, st) && CanFetch(st.c)
    ensures var t := st.(c := Fetch(st.c, |st.journal|));
            Calm(cfg, t) && if st.c.sq[0].payload.None? then Work(t) < Work(st) else Work(t) == Work(st)
  {
    assert st.client.pc.CPoll?;
    assert Current(cfg, st.cmds, st.client, st.c.buf);
  }

  lemma WorkDescends(cfg: Config, st: State, a: Action)
    requires Core(cfg, st) && Calm(cfg, st) && WorkAction(st, a) && Enabled(cfg, st, a)
    ensures Closer(cfg, st, Effect(cfg, st, a))
  {
    if a.ClientRuns? {
      WorkerCloser(cfg, st);
    } else if a.ServerRuns? {
      ServerCloser(cfg, st);
    } else if a.DeliverToServer? {
      DeliveryCloser(cfg, st);
    } else {
      FetchCloser(cfg, st);
    }
  }

  /** What else may happen does not raise the rank, a new command excepted. */
  lemma OthersCalm(cfg: Config, st: State, a: Action)
    requires Core(cfg, st) && Calm(cfg, st) && Gentle(cfg, a) && !WorkAction(st, a) && Enabled(cfg, st, a)
    ensures Calm(cfg, Effect(cfg, st, a))
    ensures Work(Effect(cfg, st, a)) <= Work(st) + if a.Submit? then 16 else 0
  {
    if a.FetchClient? {
      FetchCloser(cfg, st);
    } else {
      NothingElse(cfg, st);
      RestCalm(cfg, st, a);
    }
  }

  lemma NothingElse(cfg: Config, st: State)
    requires Setup(cfg, st) && Calm(cfg, st)
    ensures st.s.sq == [] && (st.c.err ==> st.c.sq == [] && st.c.rq == []) && (st.s.err ==> st.s.rq == [])
  {
  }

  lemma RestCalm(cfg: Config, st: State, a: Action)
    requires Calm(cfg, st) && st.s.sq == [] && (st.c.err ==> st.c.sq == [] && st.c.rq == []) && (st.s.err ==> st.s.rq == [])
    requires Gentle(cfg, a) && !WorkAction(st, a) && !a.FetchClient? && Enabled(cfg, st, a)
    ensures Calm(cfg, Effect(cfg, st, a))
    ensures Work(Effect(cfg, st, a)) <= Work(st) + if a.Submit? then 16 else 0
  {
  }

  /** A handshake that has stayed on course ends in such a state, if nothing infeasible was submitted. */
  lemma EstablishedServes(cfg: Config, st: State)
    requires Reachable(cfg, st) && OnCourse(cfg, st) && Established(st)
    requires AllWell(st.client.outs) && AllFeasible(cfg, st.cmds)
    ensures Serves(cfg, st)
  {
  }

  // ----- Whole runs

  predicate AllGentle(cfg: Config, acts: seq<Action>) {
    forall i :: 0 <= i < |acts| ==> Gentle(cfg, acts[i])
  }

  /** The steps of the work in a run. */
  ghost function WorkSteps(cfg: Config, st: State, acts: seq<Action>): nat
    decreases |acts|
  {
    if acts == [] || !Enabled(cfg, st, acts[0]) then 0
    else (if WorkAction(st, acts[0]) then 1 else 0) + WorkSteps(cfg, Effect(cfg, st, acts[0]), acts[1..])
  }

  function Submits(acts: seq<Action>): nat {
    if acts == [] then 0 else (if acts[0].Submit? then 1 else 0) + Submits(acts[1..])
  }

  lemma ServeStep(cfg: Config, st: State, a: Action)
    requires Serves(cfg, st) && Gentle(cfg, a) && Enabled(cfg, st, a)
    ensures Serves(cfg, Effect(cfg, st, a))
    ensures Work(Effect(cfg, st, a)) + (if WorkAction(st, a) then 1 else 0) <= Work(st) + if a.Submit? then 16 else 0
  {
    CalmStep(cfg, st, a);
    ReachableExtends(cfg, st, a);
    FlagUnmoved(cfg, st, a);
  }

  lemma CalmStep(cfg: Config, st: State, a: Action)
    requires Serves(cfg, st) && Gentle(cfg, a) && Enabled(cfg, st, a)
    ensures Calm(cfg, Effect(cfg, st, a))
    ensures Work(Effect(cfg, st, a)) + (if WorkAction(st, a) then 1 else 0) <= Work(st) + if a.Submit? then 16 else 0
  {
    ServesIsCore(cfg, st);
    if WorkAction(st, a) {
      WorkDescends(cfg, st, a);
    } else {
      OthersCalm(cfg, st, a);
    }
  }

  lemma FlagUnmoved(cfg: Config, st: State, a: Action)
    requires Enabled(cfg, st, a) && !a.ClientPollFails?
    ensures Effect(cfg, st, a).pollFailed == st.pollFailed
  {
    if a.ClientRuns? {
      ClientLeavesFlag(cfg, st);
    } else if a.ServerRuns? {
      ServerLeavesFlag(cfg, st);
    }
  }

  lemma {:induction false} ServesOn(cfg: Config, st: State, acts: seq<Action>, end: State)
    requires Serves(cfg, st) && Run(cfg, st, acts, end) && AllGentle(cfg, acts)
    ensures Serves(cfg, end)
    decreases |acts|
  {
    if acts != [] {
      ServeStep(cfg, st, acts[0]);
      ServesOn(cfg, Effect(cfg, st, acts[0]), acts[1..], end);
    }
  }

  /** However the steps are interleaved and whatever is submitted meanwhile, the steps of the work are
      bounded by the work at the start and 16 for every command submitted. */
  lemma {:induction false} WorkTerminates(cfg: Config, st: State, acts: seq<Action>, end: State)
    requires Serves(cfg, st) && Run(cfg, st, acts, end) && AllGentle(cfg, acts)
    ensures WorkSteps(cfg, st, acts) + Work(end) <= Work(st) + 16 * Submits(acts)
    decreases |acts|
  {
    if acts != [] {
      ServeStep(cfg, st, acts[0]);
      WorkTerminates(cfg, Effect(cfg, st, acts[0]), acts[1..], end);
    }
  }

  /** Every message is returned: whatever is interleaved and submitted, once no step of the work is left,
      the server has returned every message and recorded every id up to the first `Disconnect`, every
      command has gone well, and if nobody else writes both memories are the fold. */
  lemma EverythingReturned(cfg: Config, st: State, acts: seq<Action>, end: State)
    requires Serves(cfg, st) && Run(cfg, st, acts, end) && AllGentle(cfg, acts)
    requires forall a :: WorkAction(end, a) ==> !Enabled(cfg, end, a)
    ensures end.client.k <= |end.cmds|
    ensures end.client.k == |end.cmds| || (end.client.k > 0 && end.cmds[end.client.k - 1].Disconnect?)
    ensures end.server.returned == Notes(end.cmds[..end.client.k]) && end.server.recorded == CompletedIds(end.cmds[..end.client.k])
    ensures DoneWell(end.cmds, end.client) && RecordsEach(end.cmds, end.client.k, end.server.recorded)
    ensures Alone(end.journal) ==> Memories(end.c.mem, end.s.mem) == Fold(cfg, end.cmds, end.client.outs)
  {
    ServesOn(cfg, st, acts, end);
    RestIsDone(cfg, end);
  }

  /** With no step of the work left, everything submitted up to the first `Disconnect` has been done, and
      done well: the server has returned all its messages and recorded all its ids, and if nobody else
      writes both memories are the fold. */
  lemma RestIsDone(cfg: Config, st: State)
    requires Serves(cfg, st) && forall a :: WorkAction(st, a) ==> !Enabled(cfg, st, a)
    ensures st.client.k <= |st.cmds|
    ensures st.client.k == |st.cmds| || (st.client.k > 0 && st.cmds[st.client.k - 1].Disconnect?)
    ensures st.server.returned == Notes(st.cmds[..st.client.k]) && st.server.recorded == CompletedIds(st.cmds[..st.client.k])
    ensures DoneWell(st.cmds, st.client) && RecordsEach(st.cmds, st.client.k, st.server.recorded)
    ensures Alone(st.journal) ==> Memories(st.c.mem, st.s.mem) == Fold(cfg, st.cmds, st.client.outs)
  {
    ServesIsCore(cfg, st);
    if !(Idle(st) && Resting(st)) {
      var a := SomeWork(cfg, st);
    }
    AllDone(cfg, st);
    EachDone(cfg, st);
    if Alone(st.journal) {
      MemoriesAreFold(cfg, st);
    }
  }

  /** Every command has returned Ok but the `Send`s and `Recv`s of no bytes, which are skipped. */
  predicate DoneWell(cmds: seq<Command>, client: Client) {
    |client.outs| == client.k <= |cmds|
    && forall i :: 0 <= i < client.k ==>
                     client.outs[i] == if (cmds[i].Send? || cmds[i].Recv?) && cmds[i].local.size == 0 then Skipped else Ok
  }

  /** The id of every `Complete` has been recorded. */
  predicate RecordsEach(cmds: seq<Command>, k: nat, recorded: seq<ReqId>)
    requires k <= |cmds|
  {
    forall i :: 0 <= i < k && cmds[i].Complete? ==> cmds[i].reqId in recorded
  }

  lemma EachDone(cfg: Config, st: State)
    requires Worker(cfg, st) && AllWell(st.client.outs) && st.server.recorded == CompletedIds(st.cmds[..st.client.k])
    ensures DoneWell(st.cmds, st.client) && RecordsEach(st.cmds, st.client.k, st.server.recorded)
  {
    WellMeansOk(st.cmds, st.client);
    IncludesEach(st.cmds[..st.client.k]);
    assert forall i :: 0 <= i < st.client.k ==> st.cmds[..st.client.k][i] == st.cmds[i];
  }

  lemma WellMeansOk(cmds: seq<Command>, client: Client)
    requires Outcomes(cmds, client) && AllWell(client.outs)
    ensures DoneWell(cmds, client)
  {
  }

  lemma {:induction false} IncludesEach(cmds: seq<Command>)
    ensures RecordsEach(cmds, |cmds|, CompletedIds(cmds))
  {
    if cmds != [] {
      var n := |cmds| - 1;
      IncludesEach(cmds[..n]);
      assert forall i :: 0 <= i < n ==> cmds[..n][i] == cmds[i];
    }
  }

  lemma AllDone(cfg: Config, st: State)
    requires Core(cfg, st) && Calm(cfg, st) && Idle(st) && Resting(st)
    ensures st.client.k <= |st.cmds|
    ensures st.client.k == |st.cmds| || (st.client.k > 0 && st.cmds[st.client.k - 1].Disconnect?)
    ensures st.server.returned == Notes(st.cmds[..st.client.k]) && st.server.recorded == CompletedIds(st.cmds[..st.client.k])
    ensures |st.client.outs| == st.client.k && OutcomesNow(st) == st.client.outs
  {
    IdleWorkerDone(cfg, st);
    EachReturned(cfg, st);
    ReturnedIsAllLanded(cfg, st);
    IdsOfNotes(st.cmds[..st.client.k]);
    RecordsAll(st.server, st.s);
  }

  lemma IdleWorkerDone(cfg: Config, st: State)
    requires Worker(cfg, st) && ClientQueues(st.c, st.client.pc) && Calm(cfg, st) && Idle(st)
    ensures OutcomesNow(st) == st.client.outs && |OutcomesNow(st)| == st.client.k <= |st.cmds|
    ensures st.client.k == |st.cmds| || (st.client.k > 0 && st.cmds[st.client.k - 1].Disconnect?)
    ensures LandedNotes(st.cmds, OutcomesNow(st)) == Notes(st.cmds[..st.client.k])
  {
    SaneNow(cfg, st);
    NothingUnpolled(st.c, st.client.pc);
    assert Outcomes(st.cmds, st.client);
    LandedNotesPrefix(st.cmds, OutcomesNow(st));
  }

  lemma EachReturned(cfg: Config, st: State)
    requires Inbox(st) && Resting(st)
    ensures |SignalAt(st.journal)| == |st.server.returned|
  {
    ReturnedEach(st.cmds, SignalAt(st.journal), st.server, st.s);
  }

  lemma RecordsAll(server: Server, s: Node)
    requires Recorded(server) && ((server.pc.SPollRecv? && s.rcq == []) || server.pc == SClosed(true))
    ensures server.recorded == IdsOf(server.returned)
  {
  }

  lemma NextWork(cfg: Config, st: State) returns (a: Action)
    requires Serves(cfg, st) && !(Idle(st) && Resting(st))
    ensures WorkAction(st, a) && Enabled(cfg, st, a) && Gentle(cfg, a)
  {
    ServesIsCore(cfg, st);
    a := SomeWork(cfg, st);
  }

  /** From every such state the work can be completed. */
  lemma {:induction false} WorkCompletes(cfg: Config, st: State) returns (acts: seq<Action>, end: State)
    requires Serves(cfg, st)
    ensures Run(cfg, st, acts, end) && Serves(cfg, end) && Idle(end) && Resting(end)
    decreases Work(st)
  {
    if Idle(st) && Resting(st) {
      acts, end := [], st;
    } else {
      var a := NextWork(cfg, st);
      var rest;
      ServeStep(cfg, st, a);
      rest, end := WorkCompletes(cfg, Effect(cfg, st, a));
      acts := [a] + rest;
    }
  }

  // ----- From nothing to everything

  /** On the way: connecting without trouble, or connected and calm. */
  ghost predicate Going(cfg: Config, st: State) {
    Serves(cfg, st)
    || (Reachable(cfg, st) && OnCourse(cfg, st) && !Established(st) && AllWell(st.client.outs) && AllFeasible(cfg, st.cmds))
  }

  /** The client program lives and every command it ends has gone well. */
  predicate Thrives(st: State, t: State) {
    !t.client.pc.CDead? && (AllWell(st.client.outs) ==> AllWell(t.client.outs)) && t.cmds == st.cmds
  }

  lemma ConnectThrives(cfg: Config, st: State)
    requires Setup(cfg, st) && !st.c.err && ClientEnabled(st) && Connecting(st.client.pc)
    ensures Thrives(st, ConnectStep(cfg, st))
  {
    ClientAdvances(cfg, st);
    ConnectMoves(cfg, st);
  }

  lemma WorkerThrives(cfg: Config, st: State)
    requires Setup(cfg, st) && Worker(cfg, st) && ClientPhase(st.client.pc) == 9 && !st.c.err && ClientEnabled(st) && AllFeasible(cfg, st.cmds)
    ensures Thrives(st, WorkerStep(cfg, st))
  {
    if st.client.pc.CNext? {
      KnowsRemote(cfg, st);
      assert Feasible(cfg, st.cmds[st.client.k]);
      TakeThrives(cfg, st);
    } else if st.client.pc.CPoll? {
      assert SendQueues(st.c, true);
      PollThrives(cfg, st);
    } else {
      PassThrives(cfg, st);
    }
  }

  lemma TakeThrives(cfg: Config, st: State)
    requires st.client.pc.CNext? && st.client.k < |st.cmds| && |st.c.buf| == 4096
    requires Feasible(cfg, st.cmds[st.client.k]) && st.client.remote == RemoteOf(cfg.serverBufs)
    ensures Thrives(st, TakeCommand(cfg, st))
  {
    if Message(st.cmds[st.client.k]) {
      MessageThrives(cfg, st);
    }
  }

  lemma MessageThrives(cfg: Config, st: State)
    requires st.client.pc.CNext? && st.client.k < |st.cmds| && |st.c.buf| == 4096
    requires Message(st.cmds[st.client.k]) && FitsBuffer(st.cmds[st.client.k])
    ensures Thrives(st, TakeCommand(cfg, st))
  {
  }

  lemma PollThrives(cfg: Config, st: State)
    requires st.client.pc.CPoll? && ClientEnabled(st) && SendQueues(st.c, true) && !st.c.err
    ensures Thrives(st, WorkerStep(cfg, st))
  {
    assert st.c.scq[0].ok;
  }

  lemma PassThrives(cfg: Config, st: State)
    requires ClientEnabled(st) && (Working(st.client.pc) || st.client.pc.CHangup?) && !st.client.pc.CPoll?
    ensures Thrives(st, WorkerStep(cfg, st))
  {
  }

  /** Without trouble and with feasible commands the client does not die. */
  lemma GentleThrives(cfg: Config, st: State, a: Action)
    requires Setup(cfg, st) && Worker(cfg, st) && !st.c.err && !st.client.pc.CDead? && AllFeasible(cfg, st.cmds)
    requires Gentle(cfg, a) && Enabled(cfg, st, a)
    ensures !Effect(cfg, st, a).client.pc.CDead? && (AllWell(st.client.outs) ==> AllWell(Effect(cfg, st, a).client.outs))
    ensures AllFeasible(cfg, Effect(cfg, st, a).cmds)
  {
    if a.ClientRuns? {
      ClientThrives(cfg, st);
    } else if !a.Submit? {
      ServerLeavesClient(cfg, st, a);
    }
  }

  lemma ClientThrives(cfg: Config, st: State)
    requires Setup(cfg, st) && Worker(cfg, st) && !st.c.err && !st.client.pc.CDead? && AllFeasible(cfg, st.cmds) && ClientEnabled(st)
    ensures var t := ClientStep(cfg, st);
            !t.client.pc.CDead? && (AllWell(st.client.outs) ==> AllWell(t.client.outs)) && AllFeasible(cfg, t.cmds)
  {
    if Connecting(st.client.pc) { ConnectThrives(cfg, st); } else { WorkerThrives(cfg, st); }
  }

  lemma GoingStep(cfg: Config, st: State, a: Action)
    requires Going(cfg, st) && Gentle(cfg, a) && Enabled(cfg, st, a)
    ensures Going(cfg, Effect(cfg, st, a))
  {
    if Serves(cfg, st) {
      ServeStep(cfg, st, a);
    } else {
      ComingStep(cfg, st, a);
    }
  }

  lemma ComingStep(cfg: Config, st: State, a: Action)
    requires Reachable(cfg, st) && OnCourse(cfg, st) && !Established(st) && AllWell(st.client.outs) && AllFeasible(cfg, st.cmds)
    requires Gentle(cfg, a) && Enabled(cfg, st, a)
    ensures Going(cfg, Effect(cfg, st, a))
  {
    var t := Effect(cfg, st, a);
    GentleThrives(cfg, st, a);
    CourseStep(cfg, st, a);
    ReachableExtends(cfg, st, a);
    if Established(t) {
      EstablishedServes(cfg, t);
    }
  }

  lemma {:induction false} GoingRun(cfg: Config, st: State, acts: seq<Action>, end: State)
    requires Going(cfg, st) && Run(cfg, st, acts, end) && AllGentle(cfg, acts)
    ensures Going(cfg, end)
    decreases |acts|
  {
    if acts != [] {
      GoingStep(cfg, st, acts[0]);
      GoingRun(cfg, Effect(cfg, st, acts[0]), acts[1..], end);
    }
  }

  lemma GoingFromInit(cfg: Config)
    requires ValidConfig(cfg)
    ensures Going(cfg, Init(cfg))
  {
    InitHealthy(cfg);
    assert Run(cfg, Init(cfg), [], Init(cfg));
  }

  /** Both sides are connected, every command up to the first `Disconnect` has gone well, every message has
      been returned and every id recorded, and if nobody else writes both memories are the fold. */
  ghost predicate AllServed(cfg: Config, st: State)
    requires ValidConfig(cfg)
  {
    ClientPhase(st.client.pc) == 9 && ServerPhase(st.server.pc) == 9
    && st.client.k <= |st.cmds| && (st.client.k == |st.cmds| || (st.client.k > 0 && st.cmds[st.client.k - 1].Disconnect?))
    && st.server.returned == Notes(st.cmds[..st.client.k]) && st.server.recorded == CompletedIds(st.cmds[..st.client.k])
    && DoneWell(st.cmds, st.client) && RecordsEach(st.cmds, st.client.k, st.server.recorded)
    && (Alone(st.journal) ==> Memories(st.c.mem, st.s.mem) == Fold(cfg, st.cmds, st.client.outs))
  }

  /** Nothing of the handshake and nothing of the work is left to do. */
  ghost predicate AtRest(cfg: Config, st: State) {
    forall a :: HandshakeAction(st, a) || WorkAction(st, a) ==> !Enabled(cfg, st, a)
  }

  /** End to end: in every run from the start without fault, refusal or failed poll whose commands are
      feasible, however everything is interleaved, once nothing is left to do everything has been served if
      and only if the server has at most 340 buffers. With more the client waits for the table. */
  lemma EndToEnd(cfg: Config, acts: seq<Action>, end: State)
    requires ValidConfig(cfg) && Run(cfg, Init(cfg), acts, end) && AllGentle(cfg, acts) && AtRest(cfg, end)
    ensures AllServed(cfg, end) <==> |cfg.serverBufs| <= 340
    ensures |cfg.serverBufs| > 340 ==> Stalled(end) && end.client.pc.CPollTable? && end.c.rcq == []
  {
    GoingFromInit(cfg);
    GoingRun(cfg, Init(cfg), acts, end);
    if Serves(cfg, end) {
      ServedEnd(cfg, end);
    } else {
      StalledEnd(cfg, end);
    }
  }

  lemma ServedEnd(cfg: Config, st: State)
    requires ValidConfig(cfg) && Serves(cfg, st) && AtRest(cfg, st)
    ensures AllServed(cfg, st) && |cfg.serverBufs| <= 340
  {
    RestIsDone(cfg, st);
    TableWhole(cfg, st);
  }

  lemma StalledEnd(cfg: Config, st: State)
    requires ValidConfig(cfg) && OnCourse(cfg, st) && !Established(st) && AtRest(cfg, st)
    ensures Stalled(st) && !TableFits(cfg) && !AllServed(cfg, st)
  {
    if !Stalled(st) {
      var a := SomeStep(cfg, st);
    }
    EndsByTable(cfg, st);
  }
}
