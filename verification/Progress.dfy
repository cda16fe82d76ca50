/** The handshake ends: no circular wait between the two programs' polls, and a rank that every step of
    the handshake lowers. It ends well exactly when the table fits the buffer. */
module Progress {
  import opened Registration
  import opened Commands
  import opened Journal
  import opened Protocol
  import opened Invariant
  import opened Preservation
  import opened FabricPreservation
  import opened Theorems
  import opened Reports
  import opened Shutdown

  /** The server has given up because its table does not fit. */
  predicate TableFailed(cfg: Config, st: State) {
    !TableFits(cfg) && st.met == Met(true, true, false)
    && (st.server.pc == SClosed(false) || (st.server.pc == SHangup(false) && !st.s.err))
  }

  /** No queue pair has failed and neither program has met an error other than a table too long. */
  predicate Smooth(cfg: Config, st: State) {
    !st.c.err && !st.client.pc.CDead?
    && ((ServerPhase(st.server.pc) <= 9 && !st.s.err) || TableFailed(cfg, st))
  }

  /** Both calls have returned Ok. */
  predicate Established(st: State) {
    Connected(st) && Accepted(st)
  }

  /** The server has closed the connection and the client still polls for the table. */
  predicate Stalled(st: State) {
    st.server.pc == SClosed(false) && st.client.pc.CPollTable? && st.c.rcq == []
  }

  /** The steps that belong to the handshake. */
  predicate HandshakeAction(st: State, a: Action) {
    match a
    case ClientRuns => Connecting(st.client.pc)
    case ServerRuns => Accepting(st.server.pc) || st.server.pc == SHangup(false)
    case DeliverToServer => st.client.pc.CPollSent?
    case DeliverToClient => true
    case FetchServer => st.s.sq != [] && st.s.sq[0].payload.None?
    case _ => false
  }

  function ClientLeft(pc: ClientPc): nat {
    if ClientPhase(pc) <= 9 then 9 - ClientPhase(pc) else 0
  }

  function ServerLeft(pc: ServerPc): nat {
    if ServerPhase(pc) <= 8 then 10 - ServerPhase(pc) else if pc == SHangup(false) then 1 else 0
  }

  function SlotLeft(n: Node): nat {
    if n.sq == [] then 0 else if n.sq[0].wr.WrImm? && n.sq[0].payload.None? then 2 else 1
  }

  function Rank(st: State): nat {
    4 * ClientLeft(st.client.pc) + 4 * ServerLeft(st.server.pc)
    + (if st.client.pc.CPollSent? then SlotLeft(st.c) else 0) + SlotLeft(st.s)
  }

  /** Some handshake step is enabled in every smooth state where the handshake is not over. */
  lemma SomeStep(cfg: Config, st: State) returns (a: Action)
    requires Setup(cfg, st) && Smooth(cfg, st) && !Established(st) && !Stalled(st)
    ensures HandshakeAction(st, a) && Enabled(cfg, st, a)
  {
    var p, q := ClientPhase(st.client.pc), ServerPhase(st.server.pc);
    if p < 9 && ClientEnabled(st) {
      a := ClientRuns;
    } else if (q < 9 || st.server.pc == SHangup(false)) && ServerEnabled(st) {
      a := ServerRuns;
    } else {
      a := SomeDelivery(cfg, st);
    }
  }

  /** When both programs wait, a message can be fetched or delivered. */
  lemma SomeDelivery(cfg: Config, st: State) returns (a: Action)
    requires Setup(cfg, st) && Smooth(cfg, st) && !Established(st) && !Stalled(st)
    requires ClientPhase(st.client.pc) == 9 || !ClientEnabled(st)
    requires !((ServerPhase(st.server.pc) < 9 || st.server.pc == SHangup(false)) && ServerEnabled(st))
    ensures HandshakeAction(st, a) && Enabled(cfg, st, a)
  {
    if st.client.pc.CPollSent? {
      a := DeliverToServer;
    } else if st.server.pc.SPollTable? && st.s.sq[0].payload.None? {
      a := FetchServer;
    } else {
      a := DeliverToClient;
    }
  }

  // ----- Every handshake step lowers the rank

  /** From `st` to `t` the client has gone on to the next point of `connect`, without an error. */
  predicate Advanced(st: State, t: State) {
    ClientPhase(t.client.pc) == ClientPhase(st.client.pc) + 1 && !t.client.pc.CDead? && !t.c.err
    && t.s == st.s && t.server == st.server && t.met == st.met && t.pollFailed == st.pollFailed
    && (t.client.pc.CPollSent? ==> |t.c.sq| == 1 && t.c.sq[0].wr.WrHello?)
  }

  /** Without errors, a step of `connect` goes on to the next point. */
  lemma ClientAdvances(cfg: Config, st: State)
    requires Setup(cfg, st) && !st.c.err && Connecting(st.client.pc) && ClientEnabled(st)
    ensures Advanced(st, ConnectStep(cfg, st))
  {
    if st.client.pc.CDecode? {
      DecodeAdvances(cfg, st);
    } else if st.client.pc.CPollSent? || st.client.pc.CPollHello? || st.client.pc.CPollTable? {
      PollsAdvance(cfg, st);
    } else {
      PostsAdvance(cfg, st);
    }
  }

  lemma DecodeAdvances(cfg: Config, st: State)
    requires st.client.pc == CDecode(TableSize(cfg)) && HoldsTable(cfg, st.c.buf) && !st.c.err
    ensures ConnectStep(cfg, st) == st.(client := st.client.(pc := CNext, remote := RemoteOf(cfg.serverBufs)))
    ensures Advanced(st, ConnectStep(cfg, st))
  {
    TableReads(cfg, st.c.buf);
  }

  lemma PollsAdvance(cfg: Config, st: State)
    requires st.client.pc.CPollSent? || st.client.pc.CPollHello? || st.client.pc.CPollTable?
    requires ClientQueues(st.c, st.client.pc) && !st.c.err && ClientEnabled(st)
    requires TableTaken(cfg, st.c, st.client.pc, st.client.remote, st.met.table)
    ensures Advanced(st, ConnectStep(cfg, st))
  {
  }

  lemma PostsAdvance(cfg: Config, st: State)
    requires ClientPhase(st.client.pc) < 8 && !st.client.pc.CPollSent? && !st.client.pc.CPollHello? && !st.client.pc.CPollTable?
    requires ClientQueues(st.c, st.client.pc) && !st.c.err && ClientEnabled(st)
    ensures Advanced(st, ConnectStep(cfg, st))
  {
  }

  lemma ClientDescends(cfg: Config, st: State)
    requires Setup(cfg, st) && Smooth(cfg, st) && Connecting(st.client.pc) && ClientEnabled(st)
    ensures var t := ConnectStep(cfg, st); Smooth(cfg, t) && Rank(t) < Rank(st) && t.pollFailed == st.pollFailed
  {
    ClientAdvances(cfg, st);
  }

  /** Without errors, a step of `accept` goes on to the next point, unless the table is too long. */
  predicate ServerAdvanced(cfg: Config, st: State, t: State) {
    (ServerPhase(t.server.pc) == ServerPhase(st.server.pc) + 1
     || (st.server.pc.SStage? && !TableFits(cfg) && t.server.pc == SHangup(false)))
    && !t.s.err && t.c == st.c && t.client == st.client && t.met == st.met && t.pollFailed == st.pollFailed
    && SlotLeft(t.s) <= 2
  }

  lemma ServerAdvances(cfg: Config, st: State)
    requires ServerQueues(st.s, st.server.pc, st.accepted) && !st.s.err && ServerEnabled(st) && Accepting(st.server.pc)
    ensures ServerAdvanced(cfg, st, AcceptStep(cfg, st))
  {
    if st.server.pc.SPollHello? || st.server.pc.SPollSent? || st.server.pc.SPollTable? {
      ServerPollAdvances(cfg, st);
    } else if st.server.pc.SStage? {
      StageAdvances(cfg, st);
    } else if st.server.pc.SPostTable? || st.server.pc.SSendHello? {
      ServerPostAdvances(cfg, st);
    }
  }

  lemma ServerPollAdvances(cfg: Config, st: State)
    requires ServerQueues(st.s, st.server.pc, st.accepted) && !st.s.err && ServerEnabled(st)
    requires st.server.pc.SPollHello? || st.server.pc.SPollSent? || st.server.pc.SPollTable?
    ensures ServerAdvanced(cfg, st, AcceptStep(cfg, st))
  {
  }

  lemma StageAdvances(cfg: Config, st: State)
    requires ServerQueues(st.s, st.server.pc, st.accepted) && !st.s.err && st.server.pc.SStage?
    ensures ServerAdvanced(cfg, st, AcceptStep(cfg, st))
  {
  }

  lemma ServerPostAdvances(cfg: Config, st: State)
    requires ServerQueues(st.s, st.server.pc, st.accepted) && !st.s.err && (st.server.pc.SPostTable? || st.server.pc.SSendHello?)
    ensures ServerAdvanced(cfg, st, AcceptStep(cfg, st))
  {
  }

  lemma ServerDescends(cfg: Config, st: State)
    requires Setup(cfg, st) && Smooth(cfg, st) && ServerEnabled(st) && Accepting(st.server.pc)
    ensures var t := AcceptStep(cfg, st); Smooth(cfg, t) && Rank(t) < Rank(st) && t.pollFailed == st.pollFailed
  {
    ServerAdvances(cfg, st);
    if st.server.pc.SStage? {
      MetBothHellos(cfg, st);
    }
  }

  lemma MetBothHellos(cfg: Config, st: State)
    requires Setup(cfg, st) && st.server.pc.SStage?
    ensures st.met == Met(true, true, false)
  {
  }

  lemma HangupDescends(cfg: Config, st: State)
    requires Smooth(cfg, st) && st.server.pc == SHangup(false)
    ensures var t := LoopStep(st); Smooth(cfg, t) && Rank(t) < Rank(st)
  {
  }

  lemma FetchDescends(cfg: Config, st: State)
    requires Setup(cfg, st) && Smooth(cfg, st) && CanFetch(st.s) && st.s.sq[0].payload.None?
    ensures var t := st.(s := Fetch(st.s, |st.journal|)); Smooth(cfg, t) && Rank(t) < Rank(st)
  {
  }

  lemma HelloDescends(cfg: Config, st: State)
    requires Setup(cfg, st) && Worker(cfg, st) && Smooth(cfg, st) && ToServerEnabled(cfg, st) && st.client.pc.CPollSent?
    ensures var t := ToServer(cfg, st, true); Smooth(cfg, t) && Rank(t) < Rank(st)
  {
    SendsHello(cfg, st);
    HelloToServer(cfg, st);
  }

  lemma SendsHello(cfg: Config, st: State)
    requires Setup(cfg, st) && ToServerEnabled(cfg, st) && st.client.pc.CPollSent?
    ensures HelloDeliverable(st.c, st.s)
  {
  }

  lemma ReplyDescends(cfg: Config, st: State)
    requires Setup(cfg, st) && Smooth(cfg, st) && ToClientEnabled(cfg, st)
    ensures var t := ToClient(cfg, st, true); Smooth(cfg, t) && Rank(t) < Rank(st)
  {
    if HelloDeliverable(st.s, st.c) {
      HelloToClient(cfg, st);
    } else {
      TableToClient(cfg, st);
    }
  }

  lemma StepDescends(cfg: Config, st: State, a: Action)
    requires Setup(cfg, st) && Worker(cfg, st) && Smooth(cfg, st) && HandshakeAction(st, a) && Enabled(cfg, st, a)
    ensures Smooth(cfg, Effect(cfg, st, a)) && Rank(Effect(cfg, st, a)) < Rank(st)
    ensures Effect(cfg, st, a).pollFailed == st.pollFailed
  {
    if a.ClientRuns? {
      ClientDescends(cfg, st);
    } else if a.ServerRuns? {
      ServerRunDescends(cfg, st);
    } else {
      DeliveryDescends(cfg, st, a);
    }
  }

  lemma DeliveryDescends(cfg: Config, st: State, a: Action)
    requires Setup(cfg, st) && Worker(cfg, st) && Smooth(cfg, st) && HandshakeAction(st, a) && Enabled(cfg, st, a)
    requires !a.ClientRuns? && !a.ServerRuns?
    ensures Smooth(cfg, Effect(cfg, st, a)) && Rank(Effect(cfg, st, a)) < Rank(st)
    ensures Effect(cfg, st, a).pollFailed == st.pollFailed
  {
    if a.DeliverToServer? {
      HelloDescends(cfg, st);
    } else if a.DeliverToClient? {
      ReplyDescends(cfg, st);
    } else {
      FetchDescends(cfg, st);
    }
  }

  lemma ServerRunDescends(cfg: Config, st: State)
    requires Setup(cfg, st) && Smooth(cfg, st) && ServerEnabled(st) && (Accepting(st.server.pc) || st.server.pc == SHangup(false))
    ensures var t := ServerStep(cfg, st); Smooth(cfg, t) && Rank(t) < Rank(st) && t.pollFailed == st.pollFailed
  {
    if Accepting(st.server.pc) {
      ServerDescends(cfg, st);
    } else {
      HangupDescends(cfg, st);
    }
  }

  /** A run of handshake steps only. */
  ghost predicate HandshakeRun(cfg: Config, st: State, acts: seq<Action>, end: State)
    decreases |acts|
  {
    if acts == [] then st == end
    else HandshakeAction(st, acts[0]) && Enabled(cfg, st, acts[0])
         && HandshakeRun(cfg, Effect(cfg, st, acts[0]), acts[1..], end)
  }

  lemma {:induction false} HandshakeRunIsRun(cfg: Config, st: State, acts: seq<Action>, end: State)
    requires HandshakeRun(cfg, st, acts, end)
    ensures Run(cfg, st, acts, end)
    decreases |acts|
  {
    if acts != [] {
      HandshakeRunIsRun(cfg, Effect(cfg, st, acts[0]), acts[1..], end);
    }
  }

  /** A connection on course: the invariant holds and nothing has gone wrong so far. */
  ghost predicate OnCourse(cfg: Config, st: State) {
    Core(cfg, st) && !st.pollFailed && Smooth(cfg, st)
  }

  /** However the handshake steps are interleaved, there are at most `Rank` of them, and a run that
      cannot be prolonged has established the connection or stalled. */
  lemma {:induction false} HandshakeTerminates(cfg: Config, st: State, acts: seq<Action>, end: State)
    requires OnCourse(cfg, st) && HandshakeRun(cfg, st, acts, end)
    ensures |acts| + Rank(end) <= Rank(st) && OnCourse(cfg, end)
    ensures (forall a :: HandshakeAction(end, a) ==> !Enabled(cfg, end, a)) ==> Established(end) || Stalled(end)
    decreases |acts|
  {
    if acts == [] {
      if !Established(st) && !Stalled(st) {
        var a := SomeStep(cfg, st);
      }
    } else {
      var next := Effect(cfg, st, acts[0]);
      StepDescends(cfg, st, acts[0]);
      StepKeeps(cfg, st, acts[0]);
      HandshakeTerminates(cfg, next, acts[1..], end);
    }
  }

  /** From every state on course the handshake can be completed. */
  lemma {:induction false} HandshakeCompletes(cfg: Config, st: State) returns (acts: seq<Action>, end: State)
    requires OnCourse(cfg, st)
    ensures HandshakeRun(cfg, st, acts, end) && OnCourse(cfg, end) && (Established(end) || Stalled(end))
    decreases Rank(st)
  {
    if Established(st) || Stalled(st) {
      acts, end := [], st;
    } else {
      var a, next := OneStepOn(cfg, st);
      var rest;
      rest, end := HandshakeCompletes(cfg, next);
      acts := [a] + rest;
    }
  }

  lemma OneStepOn(cfg: Config, st: State) returns (a: Action, next: State)
    requires OnCourse(cfg, st) && !Established(st) && !Stalled(st)
    ensures HandshakeAction(st, a) && Enabled(cfg, st, a) && next == Effect(cfg, st, a)
    ensures OnCourse(cfg, next) && Rank(next) < Rank(st)
  {
    a := SomeStep(cfg, st);
    next := Effect(cfg, st, a);
    StepDescends(cfg, st, a);
    StepKeeps(cfg, st, a);
  }

  lemma InitHealthy(cfg: Config)
    requires ValidConfig(cfg)
    ensures OnCourse(cfg, Init(cfg))
  {
    InitCore(cfg);
  }

  /** Which way the handshake ends is decided by the size of the table alone. */
  lemma EndsByTable(cfg: Config, st: State)
    requires OnCourse(cfg, st) && (Established(st) || Stalled(st))
    ensures Established(st) <==> TableFits(cfg)
    ensures Stalled(st) <==> !TableFits(cfg)
  {
    assert Setup(cfg, st);
  }

  /** Starting afresh, the fault-free handshake always reaches its end within 76 steps, and that end is
      two Ok results if and only if the server has at most 340 buffers. */
  lemma HandshakeIff(cfg: Config, acts: seq<Action>, end: State)
    requires ValidConfig(cfg) && HandshakeRun(cfg, Init(cfg), acts, end)
    ensures |acts| <= 76
    ensures (forall a :: HandshakeAction(end, a) ==> !Enabled(cfg, end, a)) ==>
              (Established(end) <==> |cfg.serverBufs| <= 340) && (Stalled(end) <==> |cfg.serverBufs| > 340)
  {
    InitHealthy(cfg);
    HandshakeTerminates(cfg, Init(cfg), acts, end);
    if forall a :: HandshakeAction(end, a) ==> !Enabled(cfg, end, a) {
      EndsByTable(cfg, end);
    }
  }

  /** The client's queue pair stays up and its polls do not fail. */
  predicate SparesClient(acts: seq<Action>) {
    forall i :: 0 <= i < |acts| ==> !acts[i].FaultClient? && !acts[i].ClientPollFails?
  }

  // ----- Whatever else goes on meanwhile

  /** No fault, no refusal, no lost acknowledgement, no failed poll and no panic of the client. */
  predicate Undisturbing(cfg: Config, st: State, a: Action)
    requires Enabled(cfg, st, a)
  {
    !a.ClientIsRefused? && !a.ServerIsRefused? && !a.ClientPollFails? && !a.ServerPollFails?
    && !a.FaultClient? && !a.FaultServer? && !a.LoseAckClient? && !a.LoseAckServer?
    && !Effect(cfg, st, a).client.pc.CDead?
  }

  /** What an action beside the handshake leaves as it is. */
  predicate Aside(st: State, t: State) {
    !t.c.err && t.s.err == st.s.err && t.met == st.met && t.pollFailed == st.pollFailed
    && ClientLeft(t.client.pc) == ClientLeft(st.client.pc) && !t.client.pc.CDead?
    && (t.server.pc == st.server.pc || (ServerPhase(t.server.pc) == 9 && ServerPhase(st.server.pc) == 9))
    && (if t.client.pc.CPollSent? then SlotLeft(t.c) else 0) == (if st.client.pc.CPollSent? then SlotLeft(st.c) else 0)
    && SlotLeft(t.s) == SlotLeft(st.s)
  }

  lemma AsideIsNothing(cfg: Config, st: State, t: State)
    requires Smooth(cfg, st) && Aside(st, t)
    ensures Smooth(cfg, t) && Rank(t) == Rank(st)
  {
  }

  /** Before both calls have returned, no message of the worker has landed. */
  lemma NoSignalYet(cfg: Config, st: State)
    requires Core(cfg, st) && Smooth(cfg, st) && !Established(st)
    ensures SignalAt(st.journal) == []
    ensures !st.client.pc.CHangup? && !st.client.pc.CDone?
  {
    if Connected(st) {
      StillAccepting(cfg, st);
      NothingYet(st.cmds, SignalAt(st.journal), st.server, st.s);
      if st.client.pc.CHangup? || st.client.pc.CDone? {
        StoppedByCommand(st.cmds, st.client);
        FinishedTells(cfg, st, st.client.k - 1);
      }
    } else {
      NothingLanded(cfg, st);
    }
  }

  lemma StillAccepting(cfg: Config, st: State)
    requires Setup(cfg, st) && Smooth(cfg, st) && Connected(st) && !Established(st)
    ensures Accepting(st.server.pc)
  {
  }

  /** A client that is not connected has sent nothing. */
  lemma NothingLanded(cfg: Config, st: State)
    requires Worker(cfg, st) && ClientPhase(st.client.pc) < 9
    ensures SignalAt(st.journal) == []
  {
    NoOwnNoSignal(st.journal);
  }

  lemma NoOwnNoSignal(j: seq<Event>)
    requires OwnAt(j) == []
    ensures SignalAt(j) == []
  {
    SignalsInOrder(j);
    assert SignalAt(j) == [] || SignalAt(j)[0] in SignalAt(j);
  }

  /** A server that has been sent nothing is about to wait for the first message. */
  lemma AboutToWait(st: State)
    requires Inbox(st) && ServerPhase(st.server.pc) == 9 && SignalAt(st.journal) == [] && ServerEnabled(st) && !st.s.err
    requires ServerQueues(st.s, st.server.pc, st.accepted)
    ensures st.server.pc.SPostRecv? || st.server.pc.SEvict?
  {
  }

  lemma ServerAside(cfg: Config, st: State)
    requires Smooth(cfg, st) && (st.server.pc.SPostRecv? || st.server.pc.SEvict?)
    ensures Aside(st, LoopStep(st))
  {
  }

  lemma WorkerAside(cfg: Config, st: State)
    requires !st.c.err && Connected(st) && ClientEnabled(st) && !st.client.pc.CHangup?
    requires !WorkerStep(cfg, st).client.pc.CDead?
    ensures Aside(st, WorkerStep(cfg, st))
  {
    WorksQuietly(cfg, st);
    StepsAlong(cfg, st);
    AlongIsAside(st, WorkerStep(cfg, st));
  }

  lemma AlongIsAside(st: State, t: State)
    requires Along(st, t) && t.s == st.s && t.server == st.server && Connected(st) && !st.c.err && !t.client.pc.CDead?
    ensures Aside(st, t)
  {
  }

  lemma StepsAlong(cfg: Config, st: State)
    requires Connected(st) && ClientEnabled(st) && !st.client.pc.CHangup?
    ensures Along(st, WorkerStep(cfg, st))
  {
    if st.client.pc.CNext? {
      TakesAlong(cfg, st);
    } else if st.client.pc.CPoll? {
      PollsAlong(cfg, st);
    } else {
      WorksAlong(cfg, st);
    }
  }

  /** What a step of the worker leaves beside the server's side. */
  predicate Along(st: State, t: State) {
    t.met == st.met && t.pollFailed == st.pollFailed && t.c.err == st.c.err && ClientPhase(t.client.pc) >= 9
  }

  lemma TakesAlong(cfg: Config, st: State)
    requires st.client.pc.CNext? && st.client.k < |st.cmds|
    ensures Along(st, TakeCommand(cfg, st))
  {
    if st.cmds[st.client.k].Complete? {
      CompleteAlong(cfg, st);
    } else if Moving(st.cmds[st.client.k]) {
      TransferAlong(cfg, st);
    }
  }

  lemma CompleteAlong(cfg: Config, st: State)
    requires st.client.pc.CNext? && st.client.k < |st.cmds| && st.cmds[st.client.k].Complete?
    ensures Along(st, TakeCommand(cfg, st))
  {
  }

  lemma TransferAlong(cfg: Config, st: State)
    requires st.client.pc.CNext? && st.client.k < |st.cmds| && Moving(st.cmds[st.client.k])
    ensures Along(st, TakeCommand(cfg, st))
  {
  }

  lemma PollsAlong(cfg: Config, st: State)
    requires st.client.pc.CPoll? && st.client.k < |st.cmds| && st.c.scq != []
    ensures Along(st, WorkerStep(cfg, st))
  {
  }

  lemma WorksAlong(cfg: Config, st: State)
    requires st.client.k < |st.cmds|
    requires st.client.pc.CLock? || st.client.pc.CAdd? || st.client.pc.CEvict? || st.client.pc.CPost?
    ensures Along(st, WorkerStep(cfg, st))
  {
  }

  lemma DeliveryAside(cfg: Config, st: State)
    requires Setup(cfg, st) && Worker(cfg, st) && Smooth(cfg, st) && ToServerEnabled(cfg, st) && !st.client.pc.CPollSent?
    ensures Aside(st, ToServer(cfg, st, true))
  {
    NoHelloLeft(cfg, st);
    if st.c.sq[0].wr.WrImm? {
      MessageLandsAside(cfg, st);
    } else {
      TransferLandsAside(cfg, st);
    }
  }

  lemma NoHelloLeft(cfg: Config, st: State)
    requires Setup(cfg, st) && Worker(cfg, st) && ToServerEnabled(cfg, st) && !st.client.pc.CPollSent?
    ensures !st.c.sq[0].wr.WrHello?
  {
    if HelloDeliverable(st.c, st.s) {
      HelloToServer(cfg, st);
    }
  }

  lemma MessageLandsAside(cfg: Config, st: State)
    requires ToServerEnabled(cfg, st) && st.c.sq[0].wr.WrImm? && !st.c.err && !st.client.pc.CPollSent? && !st.client.pc.CDead?
    ensures Aside(st, ToServer(cfg, st, true))
  {
  }

  lemma TransferLandsAside(cfg: Config, st: State)
    requires ToServerEnabled(cfg, st) && !st.c.err && !st.client.pc.CPollSent? && !st.client.pc.CDead?
    requires st.c.sq[0].wr.WrWrite? || st.c.sq[0].wr.WrRead?
    ensures Aside(st, ToServer(cfg, st, true))
  {
  }

  lemma FetchesAside(cfg: Config, st: State)
    requires Setup(cfg, st) && Smooth(cfg, st)
    ensures CanFetch(st.c) ==> Aside(st, st.(c := Fetch(st.c, |st.journal|)))
    ensures CanFetch(st.s) && st.s.sq[0].payload.Some? ==> Aside(st, st.(s := Fetch(st.s, |st.journal|)))
  {
  }

  lemma OthersAside(cfg: Config, st: State, a: Action)
    requires Setup(cfg, st) && Smooth(cfg, st) && Enabled(cfg, st, a)
    requires a.Submit? || a.Intrude? || a.WriteLocal? || a.FlushClientSend? || a.FlushClientRecv? || a.FlushServerSend? || a.FlushServerRecv?
    ensures Aside(st, Effect(cfg, st, a))
  {
    NothingToFlush(cfg, st);
    if a.Submit? || a.Intrude? || a.WriteLocal? {
      WritesAside(cfg, st, a);
    }
  }

  lemma NothingToFlush(cfg: Config, st: State)
    requires Setup(cfg, st) && Smooth(cfg, st)
    ensures !st.c.err && !st.client.pc.CDead? && (st.s.err ==> st.s.sq == [] && st.s.rq == [])
  {
  }

  lemma WritesAside(cfg: Config, st: State, a: Action)
    requires (a.Submit? || a.Intrude? || a.WriteLocal?) && Enabled(cfg, st, a) && !st.c.err && !st.client.pc.CDead?
    ensures Aside(st, Effect(cfg, st, a))
  {
  }

  lemma WorkerRunsAside(cfg: Config, st: State)
    requires Smooth(cfg, st) && !st.client.pc.CHangup? && !st.client.pc.CDone?
    requires ClientEnabled(st) && !Connecting(st.client.pc) && !ClientStep(cfg, st).client.pc.CDead?
    ensures Aside(st, ClientStep(cfg, st))
  {
    WorkerAside(cfg, st);
  }

  lemma ServerRunsAside(cfg: Config, st: State)
    requires Inbox(st) && ServerQueues(st.s, st.server.pc, st.accepted) && Smooth(cfg, st) && SignalAt(st.journal) == []
    requires ServerEnabled(st) && !Accepting(st.server.pc) && st.server.pc != SHangup(false)
    ensures Aside(st, ServerStep(cfg, st))
  {
    AboutToWait(st);
    ServerAside(cfg, st);
  }

  /** Everything else that can happen before both calls have returned keeps the handshake on course and
      does not raise its rank. */
  lemma AsideStep(cfg: Config, st: State, a: Action)
    requires OnCourse(cfg, st) && !Established(st) && Enabled(cfg, st, a) && Undisturbing(cfg, st, a) && !HandshakeAction(st, a)
    ensures Aside(st, Effect(cfg, st, a))
  {
    NoSignalYet(cfg, st);
    if a.ClientRuns? {
      WorkerRunsAside(cfg, st);
    } else if a.ServerRuns? {
      ServerRunsAside(cfg, st);
    } else {
      FabricAside(cfg, st, a);
    }
  }

  lemma FabricAside(cfg: Config, st: State, a: Action)
    requires OnCourse(cfg, st) && !Established(st) && Enabled(cfg, st, a) && Undisturbing(cfg, st, a) && !HandshakeAction(st, a)
    requires !a.ClientRuns? && !a.ServerRuns?
    ensures Aside(st, Effect(cfg, st, a))
  {
    NoSignalYet(cfg, st);
    if a.DeliverToServer? {
      DeliveryAside(cfg, st);
    } else if a.FetchClient? || a.FetchServer? {
      FetchesAside(cfg, st);
    } else {
      OthersAside(cfg, st, a);
    }
  }

  /** The handshake steps of a run, up to the end of the handshake. */
  ghost function HandshakeSteps(cfg: Config, st: State, acts: seq<Action>): nat
    decreases |acts|
  {
    if acts == [] || Established(st) || !Enabled(cfg, st, acts[0]) then 0
    else (if HandshakeAction(st, acts[0]) then 1 else 0) + HandshakeSteps(cfg, Effect(cfg, st, acts[0]), acts[1..])
  }

  ghost predicate AllUndisturbing(cfg: Config, st: State, acts: seq<Action>)
    decreases |acts|
  {
    acts == [] || (Enabled(cfg, st, acts[0]) && Undisturbing(cfg, st, acts[0])
                   && AllUndisturbing(cfg, Effect(cfg, st, acts[0]), acts[1..]))
  }

  /** Both calls have returned Ok at some point of the run. */
  ghost predicate PassesEstablished(cfg: Config, st: State, acts: seq<Action>)
    decreases |acts|
  {
    Established(st) || (acts != [] && Enabled(cfg, st, acts[0]) && PassesEstablished(cfg, Effect(cfg, st, acts[0]), acts[1..]))
  }

  lemma CourseStep(cfg: Config, st: State, a: Action)
    requires OnCourse(cfg, st) && !Established(st) && Enabled(cfg, st, a) && Undisturbing(cfg, st, a)
    ensures OnCourse(cfg, Effect(cfg, st, a))
    ensures Rank(Effect(cfg, st, a)) + (if HandshakeAction(st, a) then 1 else 0) <= Rank(st)
  {
    StepKeeps(cfg, st, a);
    if HandshakeAction(st, a) {
      StepDescends(cfg, st, a);
    } else {
      AsideStep(cfg, st, a);
      AsideIsNothing(cfg, st, Effect(cfg, st, a));
    }
  }

  /** Whatever is interleaved with the handshake, it takes no more than `Rank` steps of its own, and until
      it has ended it stays on course. */
  lemma {:induction false} InterleavedTerminates(cfg: Config, st: State, acts: seq<Action>, end: State)
    requires OnCourse(cfg, st) && Run(cfg, st, acts, end) && AllUndisturbing(cfg, st, acts)
    ensures HandshakeSteps(cfg, st, acts) <= Rank(st)
    ensures PassesEstablished(cfg, st, acts) ==> TableFits(cfg)
    ensures !PassesEstablished(cfg, st, acts) ==>
              OnCourse(cfg, end) && !Established(end) && HandshakeSteps(cfg, st, acts) + Rank(end) <= Rank(st)
    decreases |acts|
  {
    if Established(st) {
      EndsByTable(cfg, st);
    } else if acts != [] {
      CourseStep(cfg, st, acts[0]);
      InterleavedTerminates(cfg, Effect(cfg, st, acts[0]), acts[1..], end);
    }
  }

  /** Starting afresh, in every run without fault, refusal or panic, whatever else is interleaved, the
      handshake takes at most 76 steps; and if none is left to take, both calls have returned Ok if and only
      if the server has at most 340 buffers. */
  lemma InterleavedIff(cfg: Config, acts: seq<Action>, end: State)
    requires ValidConfig(cfg) && Run(cfg, Init(cfg), acts, end) && AllUndisturbing(cfg, Init(cfg), acts)
    ensures HandshakeSteps(cfg, Init(cfg), acts) <= 76
    ensures (forall a :: HandshakeAction(end, a) ==> !Enabled(cfg, end, a)) ==>
              (PassesEstablished(cfg, Init(cfg), acts) <==> |cfg.serverBufs| <= 340)
  {
    InitHealthy(cfg);
    InterleavedTerminates(cfg, Init(cfg), acts, end);
    if !PassesEstablished(cfg, Init(cfg), acts) && (forall a :: HandshakeAction(end, a) ==> !Enabled(cfg, end, a)) {
      StuckMeansStalled(cfg, end);
    }
  }

  lemma StuckMeansStalled(cfg: Config, st: State)
    requires OnCourse(cfg, st) && !Established(st) && forall a :: HandshakeAction(st, a) ==> !Enabled(cfg, st, a)
    ensures !TableFits(cfg)
  {
    if !Stalled(st) {
      var a := SomeStep(cfg, st);
    } else {
      EndsByTable(cfg, st);
    }
  }

  // ----- What a stall means

  /** A stalled connection with nothing left to send on either side. */
  predicate OnHold(st: State) {
    Stalled(st) && !st.c.err && st.c.sq == [] && st.s.sq == []
  }

  lemma StallStep(cfg: Config, st: State, a: Action)
    requires OnHold(st) && Enabled(cfg, st, a) && !a.FaultClient? && !a.ClientPollFails?
    ensures OnHold(Effect(cfg, st, a))
  {
    NothingHeld(cfg, st, a);
  }

  /** Neither program has a step to take and nothing can be delivered. */
  lemma NothingHeld(cfg: Config, st: State, a: Action)
    requires OnHold(st) && Enabled(cfg, st, a)
    ensures !a.ClientRuns? && !a.ClientIsRefused? && !a.ServerRuns? && !a.ServerIsRefused? && !a.ServerPollFails?
    ensures !a.DeliverToServer? && !a.LoseAckClient? && !a.DeliverToClient? && !a.LoseAckServer?
    ensures !a.FetchClient? && !a.FetchServer?
  {
  }

  /** A stalled client polls for ever: short of a failing queue pair or poll of its own, no run ends its
      wait, whatever is submitted and whatever the other side does. */
  lemma {:induction false} StallLasts(cfg: Config, st: State, acts: seq<Action>, end: State)
    requires OnHold(st) && Run(cfg, st, acts, end) && SparesClient(acts)
    ensures OnHold(end)
    decreases |acts|
  {
    if acts != [] {
      StallStep(cfg, st, acts[0]);
      StallLasts(cfg, Effect(cfg, st, acts[0]), acts[1..], end);
    }
  }

  /** With more than 340 buffers the fault-free handshake leaves the client polling for good. */
  lemma TooManyBuffersHang(cfg: Config) returns (st: State)
    requires ValidConfig(cfg) && |cfg.serverBufs| > 340
    ensures Reachable(cfg, st) && Stalled(st) && !st.pollFailed
    ensures forall acts, end :: Run(cfg, st, acts, end) && SparesClient(acts) ==> Stalled(end)
  {
    InitHealthy(cfg);
    var first;
    first, st := HandshakeCompletes(cfg, Init(cfg));
    HandshakeRunIsRun(cfg, Init(cfg), first, st);
    EndsByTable(cfg, st);
    assert Setup(cfg, st);
    forall acts, end | Run(cfg, st, acts, end) && SparesClient(acts)
      ensures Stalled(end)
    {
      StallLasts(cfg, st, acts, end);
    }
  }
}
