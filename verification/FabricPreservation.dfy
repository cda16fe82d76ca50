/** The fabric's actions, the arrival of commands and other writers keep the invariant. */
module FabricPreservation {
  import opened Bytes
  import opened Codec
  import opened ImmWord
  import opened Registration
  import opened Commands
  import opened Journal
  import opened Protocol
  import opened Invariant
  import opened Preservation

  // ----- What a deliverable request is

  /** A hello on the client's queue is the one of `connect`, and the server waits for it. */
  lemma HelloToServer(cfg: Config, st: State)
    requires Setup(cfg, st) && Worker(cfg, st) && st.accepted && HelloDeliverable(st.c, st.s)
    ensures st.client.pc.CPollSent? && st.server.pc.SPollHello?
    ensures st.c.sq == [st.c.sq[0]] && st.c.sq[0].wr == WrHello(cfg.clientCpu) && st.c.scq == []
  {
  }

  /** A message that can be delivered is the worker's current one, and the server waits for a message. */
  lemma MessageToServer(cfg: Config, st: State)
    requires Setup(cfg, st) && Worker(cfg, st) && st.accepted && ImmDeliverable(st.c, st.s, cfg.serverCpu)
    ensures st.client.pc.CPoll? && st.server.pc.SPollRecv? && st.s.rcq == []
    ensures st.client.k < |st.cmds| && Message(st.cmds[st.client.k])
    ensures st.c.sq == [st.c.sq[0]] && st.c.scq == [] && st.c.sq[0].at == st.client.k
    ensures HoldsNote(st.cmds[st.client.k], st.c.sq[0].payload.value)
    ensures st.c.sq[0].wr.imm == MetadataWord(NotificationSize(NoteOf(st.cmds[st.client.k])))
  {
  }

  lemma TransferToServer(cfg: Config, st: State)
    requires Setup(cfg, st) && Worker(cfg, st) && OneSided(cfg, st)
    ensures st.client.pc.CPoll? && st.client.k < |st.cmds|
    ensures st.c.sq == [st.c.sq[0]] && st.c.scq == [] && st.c.sq[0].at == st.client.k
    ensures var cmd := st.cmds[st.client.k];
            Transfer(cmd) && Resolved(cfg, RemoteOf(cfg.serverBufs), cmd)
            && st.c.sq[0].wr == RequestFor(cfg, cfg.serverCpu, RemoteOf(cfg.serverBufs), cmd)
            && (cmd.Send? ==> var slot := st.c.sq[0]; SeenAt(cfg, st.journal, cmd, slot.since, slot.seen, slot.payload.value))
  {
  }

  lemma HelloToClient(cfg: Config, st: State)
    requires Setup(cfg, st) && HelloDeliverable(st.s, st.c)
    ensures st.server.pc.SPollSent? && st.s.sq == [st.s.sq[0]] && st.s.sq[0].wr == WrHello(cfg.serverCpu) && st.s.scq == []
    ensures st.c.rq == [HelloReceive] && st.c.rcq == []
  {
  }

  lemma TableToClient(cfg: Config, st: State)
    requires Setup(cfg, st) && ImmDeliverable(st.s, st.c, cfg.clientCpu)
    ensures st.server.pc.SPollTable? && st.client.pc.CPollTable? && st.s.sq == [st.s.sq[0]] && st.s.scq == []
    ensures st.c.rq == [BufferReceive] && st.c.rcq == []
    ensures HoldsTable(cfg, st.s.sq[0].payload.value) && st.s.sq[0].wr.imm == TableSize(cfg)
  {
  }

  // ----- Hello messages

  lemma HelloToServerSetup(cfg: Config, st: State, acked: bool)
    requires Setup(cfg, st) && ToServerEnabled(cfg, st) && HelloDeliverable(st.c, st.s)
    requires st.client.pc.CPollSent? && st.server.pc.SPollHello?
    ensures Setup(cfg, ToServer(cfg, st, acked))
  {
  }

  lemma HelloToServerRest(cfg: Config, st: State, acked: bool)
    requires Worker(cfg, st) && Inbox(st) && ToServerEnabled(cfg, st) && HelloDeliverable(st.c, st.s)
    requires st.client.pc.CPollSent? && st.server.pc.SPollHello?
    ensures Worker(cfg, ToServer(cfg, st, acked)) && Inbox(ToServer(cfg, st, acked))
  {
  }

  lemma HelloToClientSetup(cfg: Config, st: State, acked: bool)
    requires Setup(cfg, st) && ToClientEnabled(cfg, st) && HelloDeliverable(st.s, st.c)
    requires st.server.pc.SPollSent? && st.c.rq == [HelloReceive] && st.c.rcq == []
    ensures Setup(cfg, ToClient(cfg, st, acked))
  {
  }

  lemma TableToClientSetup(cfg: Config, st: State, acked: bool)
    requires Setup(cfg, st) && ToClientEnabled(cfg, st) && ImmDeliverable(st.s, st.c, cfg.clientCpu)
    requires st.server.pc.SPollTable? && st.client.pc.CPollTable?
    ensures Setup(cfg, ToClient(cfg, st, acked))
  {
    ImmediateSurvives(cfg.serverOrder, cfg.clientOrder, st.s.sq[0].wr.imm);
  }

  /** A delivery to the client happens during its connection setup, so the worker is not concerned. */
  lemma ToClientWorker(cfg: Config, st: State, acked: bool)
    requires Worker(cfg, st) && ToClientEnabled(cfg, st) && (ClientPhase(st.client.pc) < 9 || st.client.pc.CDead?)
    ensures Worker(cfg, ToClient(cfg, st, acked))
  {
    ToClientLeaves(cfg, st, acked);
    IdleWorker(cfg, st, ToClient(cfg, st, acked));
  }

  lemma ToClientLeaves(cfg: Config, st: State, acked: bool)
    requires ToClientEnabled(cfg, st)
    ensures var t := ToClient(cfg, st, acked);
            t.client == st.client && t.cmds == st.cmds && t.journal == st.journal && t.c.err == st.c.err
  {
  }

  lemma IdleWorker(cfg: Config, st: State, t: State)
    requires Worker(cfg, st) && (ClientPhase(st.client.pc) < 9 || st.client.pc.CDead?)
    requires t.client == st.client && t.cmds == st.cmds && t.journal == st.journal && t.c.err == st.c.err
    ensures Worker(cfg, t)
  {
  }

  lemma ToClientInbox(cfg: Config, st: State, acked: bool)
    requires Inbox(st) && ToClientEnabled(cfg, st) && (st.server.pc.SPollSent? || st.server.pc.SPollTable?)
    ensures Inbox(ToClient(cfg, st, acked))
  {
  }

  lemma ToClientKeeps(cfg: Config, st: State, acked: bool)
    requires Core(cfg, st) && ToClientEnabled(cfg, st)
    ensures Core(cfg, ToClient(cfg, st, acked))
  {
    if HelloDeliverable(st.s, st.c) {
      HelloToClient(cfg, st);
      HelloToClientSetup(cfg, st, acked);
    } else {
      TableToClient(cfg, st);
      TableToClientSetup(cfg, st, acked);
    }
    ReceivingClient(st);
    ToClientWorker(cfg, st, acked);
    ToClientInbox(cfg, st, acked);
  }

  lemma ReceivingClient(st: State)
    requires ClientQueues(st.c, st.client.pc) && st.c.rq != []
    ensures ClientPhase(st.client.pc) < 9 || st.client.pc.CDead?
  {
  }

  // ----- The worker's messages

  lemma MessageSetup(cfg: Config, st: State, acked: bool)
    requires Setup(cfg, st) && ToServerEnabled(cfg, st) && ImmDeliverable(st.c, st.s, cfg.serverCpu)
    requires st.client.pc.CPoll? && st.server.pc.SPollRecv?
    ensures Setup(cfg, ToServer(cfg, st, acked))
  {
    MessageQueues(cfg, st, acked);
  }

  lemma MessageQueues(cfg: Config, st: State, acked: bool)
    requires ClientQueues(st.c, st.client.pc) && ServerQueues(st.s, st.server.pc, st.accepted)
    requires ToServerEnabled(cfg, st) && ImmDeliverable(st.c, st.s, cfg.serverCpu) && st.client.pc.CPoll? && st.server.pc.SPollRecv?
    ensures var t := ToServer(cfg, st, acked);
            ClientQueues(t.c, t.client.pc) && ServerQueues(t.s, t.server.pc, t.accepted)
            && t == st.(c := t.c, s := t.s, journal := t.journal)
  {
  }

  /** The worker's part: the current command has landed, and the journal says so. */
  predicate LandsNow(cfg: Config, st: State, t: State, e: Event) {
    st.client.pc.CPoll? && t.client == st.client && t.cmds == st.cmds && t.journal == st.journal + [e]
    && st.client.k < |st.cmds| && Own(e) && e.at == st.client.k
    && st.c.scq == [] && t.c.sq == [] && |t.c.scq| == 1 && t.c.scq[0].landed && t.c.scq[0].at == st.client.k
    && t.c.buf == st.c.buf
  }

  lemma LandsWorker(cfg: Config, st: State, t: State, e: Event)
    requires Worker(cfg, st) && LandsNow(cfg, st, t, e) && !st.c.err
    ensures Worker(cfg, t)
  {
    Extend(st.journal, e);
  }

  /** The server's part: a message arrives that is readable in the buffer. */
  lemma ArrivesInbox(cmds: seq<Command>, signals: seq<nat>, server: Server, s: Node, t: Node, k: nat)
    requires Arrived(cmds, signals, server, s) && server.pc.SPollRecv? && s.rcq == []
    requires k < |cmds| && Message(cmds[k]) && Readable(cmds[k], server.pc, t) && t.rcq != [] && t.rcq[0].ok
    ensures Arrived(cmds, signals + [k], server, t)
  {
  }

  lemma MessageWord(cfg: Config, cmd: Command)
    requires FitsBuffer(cmd)
    ensures var size := NotificationSize(NoteOf(cmd));
            Received(cfg.clientOrder, cfg.serverOrder, MetadataWord(size)) == size
  {
    var size := NotificationSize(NoteOf(cmd));
    SizeWordExact(cfg.clientOrder, cfg.serverOrder, 0, size);
  }

  lemma MessageInbox(cfg: Config, st: State, acked: bool)
    requires Inbox(st) && ToServerEnabled(cfg, st) && ImmDeliverable(st.c, st.s, cfg.serverCpu)
    requires st.server.pc.SPollRecv? && st.s.rcq == [] && st.c.sq[0].at == st.client.k < |st.cmds|
    requires Message(st.cmds[st.client.k])
    requires HoldsNote(st.cmds[st.client.k], st.c.sq[0].payload.value)
    requires st.c.sq[0].wr.imm == MetadataWord(NotificationSize(NoteOf(st.cmds[st.client.k])))
    ensures Inbox(ToServer(cfg, st, acked))
  {
    MessageWord(cfg, st.cmds[st.client.k]);
    Extend(st.journal, Signal(st.client.k));
    var t := ToServer(cfg, st, acked);
    ArrivesInbox(st.cmds, SignalAt(st.journal), st.server, st.s, t.s, st.client.k);
  }

  lemma MessageMemory(cfg: Config, st: State)
    requires Memory(cfg, st.cmds, st.c.mem, st.s.mem, st.journal)
    requires st.client.k < |st.cmds| && Message(st.cmds[st.client.k]) && FitsBuffer(st.cmds[st.client.k])
    ensures Memory(cfg, st.cmds, st.c.mem, st.s.mem, st.journal + [Signal(st.client.k)])
  {
    Extend(st.journal, Signal(st.client.k));
    ExtendOk(cfg, st.cmds, st.journal, Signal(st.client.k));
  }

  lemma MessageKeeps(cfg: Config, st: State, acked: bool)
    requires Core(cfg, st) && ToServerEnabled(cfg, st) && ImmDeliverable(st.c, st.s, cfg.serverCpu)
    ensures Core(cfg, ToServer(cfg, st, acked))
  {
    MessageToServer(cfg, st);
    var t := ToServer(cfg, st, acked);
    MessageSetup(cfg, st, acked);
    assert LandsNow(cfg, st, t, Signal(st.client.k));
    LandsWorker(cfg, st, t, Signal(st.client.k));
    MessageInbox(cfg, st, acked);
    MessageMemory(cfg, st);
  }

  // ----- The worker's transfers

  /** From `st` to `t` the only request of the client completes, and the memories may change. */
  predicate Completes(st: State, t: State, acked: bool) {
    |st.c.sq| == 1 && st.c.scq == []
    && t.c == st.c.(sq := [], scq := t.c.scq, err := st.c.err || !acked, mem := t.c.mem)
    && |t.c.scq| == 1 && t.c.scq[0].landed && t.c.scq[0].ok == acked && t.c.scq[0].op != OpSend
    && t.s == st.s.(mem := t.s.mem)
    && t == st.(c := t.c, s := t.s, journal := t.journal)
  }

  lemma TransferSetup(cfg: Config, st: State, acked: bool)
    requires Setup(cfg, st) && ToServerEnabled(cfg, st) && OneSided(cfg, st) && st.client.pc.CPoll?
    ensures Setup(cfg, ToServer(cfg, st, acked))
  {
    TransferCompletes(cfg, st, acked);
    CompletesSetup(cfg, st, ToServer(cfg, st, acked), acked);
  }

  lemma TransferCompletes(cfg: Config, st: State, acked: bool)
    requires ToServerEnabled(cfg, st) && OneSided(cfg, st) && |st.c.sq| == 1 && st.c.scq == []
    ensures Completes(st, ToServer(cfg, st, acked), acked)
  {
  }

  lemma CompletesSetup(cfg: Config, st: State, t: State, acked: bool)
    requires Setup(cfg, st) && st.client.pc.CPoll? && Completes(st, t, acked)
    ensures Setup(cfg, t)
  {
  }

  lemma PassesChecks(cfg: Config, st: State)
    requires OneSided(cfg, st) && st.client.k < |st.cmds|
    requires var cmd := st.cmds[st.client.k];
             Transfer(cmd) && Resolved(cfg, RemoteOf(cfg.serverBufs), cmd)
             && st.c.sq[0].wr == RequestFor(cfg, cfg.serverCpu, RemoteOf(cfg.serverBufs), cmd)
    ensures var cmd, wr := st.cmds[st.client.k], st.c.sq[0].wr;
            Allowed(cfg, cmd) && wr.laddr == LocalAddress(cmd) && wr.raddr == RemoteAddress(cmd) && wr.len == cmd.local.size
            && wr.WrWrite? == cmd.Send? && wr.WrRead? == cmd.Recv?
  {
    RemoteAgreesWithLocal(cfg.serverBufs);
  }

  /** The request on the queue performs its command's copy. */
  predicate Performs(cfg: Config, st: State) {
    OneSided(cfg, st) && st.client.pc.CPoll? && st.client.k < |st.cmds|
    && st.c.sq == [st.c.sq[0]] && st.c.scq == [] && st.c.sq[0].at == st.client.k
    && var cmd, slot := st.cmds[st.client.k], st.c.sq[0];
    Transfer(cmd) && Allowed(cfg, cmd)
    && slot.wr.laddr == LocalAddress(cmd) && slot.wr.raddr == RemoteAddress(cmd) && slot.wr.len == cmd.local.size
    && slot.wr.WrWrite? == cmd.Send? && slot.wr.WrRead? == cmd.Recv?
    && (cmd.Send? ==> SeenAt(cfg, st.journal, cmd, slot.since, slot.seen, slot.payload.value))
  }

  function CopyEvent(st: State, cmd: Command): Event
    requires Moving(cmd) && st.c.sq != [] && (cmd.Send? ==> st.c.sq[0].payload.Some?)
  {
    var n, slot := cmd.local.size, st.c.sq[0];
    if cmd.Send? then Push(st.client.k, RemoteAddress(cmd), slot.payload.value, slot.since, slot.seen)
    else Pull(st.client.k, LocalAddress(cmd), Slice(st.s.mem, RemoteAddress(cmd), n))
  }

  /** What a one-sided operation does to the state. */
  lemma TransferEffect(cfg: Config, st: State, acked: bool)
    requires ToServerEnabled(cfg, st) && Performs(cfg, st)
    ensures var t, e := ToServer(cfg, st, acked), CopyEvent(st, st.cmds[st.client.k]);
            LandsNow(cfg, st, t, e) && t.server == st.server && t.s == st.s.(mem := t.s.mem)
            && t.s.mem == (if e.Push? then Splice(st.s.mem, e.addr, e.data) else st.s.mem)
            && t.c.mem == (if e.Pull? then Splice(st.c.mem, e.addr, e.data) else st.c.mem)
  {
  }

  lemma TransferMemory(cfg: Config, st: State, t: State, e: Event)
    requires Memory(cfg, st.cmds, st.c.mem, st.s.mem, st.journal) && Performs(cfg, st)
    requires e == CopyEvent(st, st.cmds[st.client.k]) && t.cmds == st.cmds && t.journal == st.journal + [e]
    requires t.s.mem == if e.Push? then Splice(st.s.mem, e.addr, e.data) else st.s.mem
    requires t.c.mem == if e.Pull? then Splice(st.c.mem, e.addr, e.data) else st.c.mem
    ensures Memory(cfg, t.cmds, t.c.mem, t.s.mem, t.journal)
  {
    Extend(st.journal, e);
    ExtendOk(cfg, st.cmds, st.journal, e);
  }

  lemma TransferInbox(st: State, t: State, e: Event)
    requires Inbox(st) && !e.Signal? && t.cmds == st.cmds && t.journal == st.journal + [e]
    requires t.server == st.server && t.s == st.s.(mem := t.s.mem)
    ensures Inbox(t)
  {
    Extend(st.journal, e);
  }

  lemma TransferKeeps(cfg: Config, st: State, acked: bool)
    requires Core(cfg, st) && ToServerEnabled(cfg, st) && OneSided(cfg, st)
    ensures Core(cfg, ToServer(cfg, st, acked))
  {
    TransferToServer(cfg, st);
    PassesChecks(cfg, st);
    assert Performs(cfg, st);
    var t, e := ToServer(cfg, st, acked), CopyEvent(st, st.cmds[st.client.k]);
    TransferEffect(cfg, st, acked);
    TransferSetup(cfg, st, acked);
    LandsWorker(cfg, st, t, e);
    TransferMemory(cfg, st, t, e);
    TransferInbox(st, t, e);
  }

  lemma HelloKeeps(cfg: Config, st: State, acked: bool)
    requires Core(cfg, st) && ToServerEnabled(cfg, st) && HelloDeliverable(st.c, st.s)
    ensures Core(cfg, ToServer(cfg, st, acked))
  {
    HelloToServer(cfg, st);
    HelloToServerSetup(cfg, st, acked);
    HelloToServerRest(cfg, st, acked);
  }

  lemma ToServerKeeps(cfg: Config, st: State, acked: bool)
    requires Core(cfg, st) && ToServerEnabled(cfg, st)
    ensures Core(cfg, ToServer(cfg, st, acked))
  {
    if HelloDeliverable(st.c, st.s) { HelloKeeps(cfg, st, acked); }
    else if ImmDeliverable(st.c, st.s, cfg.serverCpu) { MessageKeeps(cfg, st, acked); }
    else { TransferKeeps(cfg, st, acked); }
  }

  // ----- Fetching, failing and flushing

  lemma FetchClientKeeps(cfg: Config, st: State)
    requires Core(cfg, st) && CanFetch(st.c)
    ensures Core(cfg, st.(c := Fetch(st.c, |st.journal|)))
  {
    FetchClientSetup(cfg, st);
    FetchClientWorker(cfg, st);
  }

  lemma FetchClientSetup(cfg: Config, st: State)
    requires Setup(cfg, st) && CanFetch(st.c)
    ensures Setup(cfg, st.(c := Fetch(st.c, |st.journal|)))
    ensures st.client.pc.CPoll? && |st.c.sq| == 1
  {
  }

  lemma FetchClientWorker(cfg: Config, st: State)
    requires Worker(cfg, st) && CanFetch(st.c) && st.client.pc.CPoll? && |st.c.sq| == 1
    requires st.c.mem == ReplayClient(cfg.clientMem, st.journal)
    ensures Worker(cfg, st.(c := Fetch(st.c, |st.journal|)))
  {
    RemoteAgreesWithLocal(cfg.serverBufs);
    assert st.journal[..|st.journal|] == st.journal;
  }

  lemma FetchServerKeeps(cfg: Config, st: State)
    requires Core(cfg, st) && CanFetch(st.s)
    ensures Core(cfg, st.(s := Fetch(st.s, |st.journal|)))
  {
    FetchServerSetup(cfg, st);
  }

  lemma FetchServerSetup(cfg: Config, st: State)
    requires Setup(cfg, st) && CanFetch(st.s)
    ensures Setup(cfg, st.(s := Fetch(st.s, |st.journal|)))
  {
  }

  lemma FaultSetup(cfg: Config, st: State)
    requires Setup(cfg, st)
    ensures Setup(cfg, st.(c := st.c.(err := true))) && Setup(cfg, st.(s := st.s.(err := true)))
  {
    ClientFaultSetup(cfg, st);
  }

  lemma ClientFaultSetup(cfg: Config, st: State)
    requires Setup(cfg, st)
    ensures Setup(cfg, st.(c := st.c.(err := true)))
  {
  }

  lemma FaultWorker(cfg: Config, st: State)
    requires Worker(cfg, st)
    ensures Worker(cfg, st.(c := st.c.(err := true)))
  {
  }

  lemma FaultInbox(st: State)
    requires Inbox(st)
    ensures Inbox(st.(s := st.s.(err := true)))
  {
  }

  lemma FaultKeeps(cfg: Config, st: State)
    requires Core(cfg, st)
    ensures Core(cfg, st.(c := st.c.(err := true))) && Core(cfg, st.(s := st.s.(err := true)))
  {
    FaultSetup(cfg, st);
    FaultWorker(cfg, st);
    FaultInbox(st);
  }

  lemma FlushClientSetup(cfg: Config, st: State)
    requires Setup(cfg, st) && st.c.err
    ensures st.c.sq != [] ==> Setup(cfg, st.(c := FlushSend(st.c)))
    ensures st.c.rq != [] ==> Setup(cfg, st.(c := FlushRecv(st.c)))
  {
  }

  lemma FlushClientWorker(cfg: Config, st: State)
    requires Worker(cfg, st) && SendQueues(st.c, st.client.pc.CPollSent? || st.client.pc.CPoll?) && st.c.err
    ensures st.c.sq != [] ==> Worker(cfg, st.(c := FlushSend(st.c)))
    ensures st.c.rq != [] ==> Worker(cfg, st.(c := FlushRecv(st.c)))
  {
  }

  lemma FlushClientKeeps(cfg: Config, st: State)
    requires Core(cfg, st) && st.c.err
    ensures st.c.sq != [] ==> Core(cfg, st.(c := FlushSend(st.c)))
    ensures st.c.rq != [] ==> Core(cfg, st.(c := FlushRecv(st.c)))
  {
    FlushClientSetup(cfg, st);
    FlushClientWorker(cfg, st);
  }

  lemma FlushServerSetup(cfg: Config, st: State)
    requires Setup(cfg, st) && st.s.err
    ensures st.s.sq != [] ==> Setup(cfg, st.(s := FlushSend(st.s)))
    ensures st.s.rq != [] ==> Setup(cfg, st.(s := FlushRecv(st.s)))
  {
  }

  lemma FlushServerInbox(st: State)
    requires Inbox(st) && ServerQueues(st.s, st.server.pc, st.accepted)
    ensures st.s.sq != [] ==> Inbox(st.(s := FlushSend(st.s)))
    ensures st.s.rq != [] ==> Inbox(st.(s := FlushRecv(st.s)))
  {
  }

  lemma FlushServerKeeps(cfg: Config, st: State)
    requires Core(cfg, st) && st.s.err
    ensures st.s.sq != [] ==> Core(cfg, st.(s := FlushSend(st.s)))
    ensures st.s.rq != [] ==> Core(cfg, st.(s := FlushRecv(st.s)))
  {
    FlushServerSetup(cfg, st);
    FlushServerInbox(st);
  }

  // ----- Commands arriving and memory changing under the connection

  lemma SubmitWorker(cfg: Config, st: State, cmd: Command)
    requires Worker(cfg, st)
    ensures Worker(cfg, st.(cmds := st.cmds + [cmd]))
  {
  }

  lemma SubmitInbox(st: State, cmd: Command)
    requires Inbox(st)
    ensures Inbox(st.(cmds := st.cmds + [cmd]))
  {
  }

  lemma SubmitWindow(cfg: Config, cmds: seq<Command>, client: Client, cmd: Command)
    requires ClientWindow(cfg, cmds, client) && (Working(client.pc) ==> client.k < |cmds|)
    ensures ClientWindow(cfg, cmds + [cmd], client)
  {
    assert (cmds + [cmd])[..client.k] == cmds[..client.k];
  }

  lemma SubmitKeeps(cfg: Config, st: State, cmd: Command)
    requires Core(cfg, st)
    ensures Core(cfg, st.(cmds := st.cmds + [cmd]))
  {
    SubmitWorker(cfg, st, cmd);
    SubmitInbox(st, cmd);
    SubmitWindow(cfg, st.cmds, st.client, cmd);
    JournalOkLater(cfg, st.cmds, cmd, st.journal);
  }

  lemma IntrudeSetup(cfg: Config, st: State, t: State)
    requires Setup(cfg, st) && t == st.(s := st.s.(mem := t.s.mem), journal := t.journal)
    ensures Setup(cfg, t)
  {
  }

  lemma WriteLocalSetup(cfg: Config, st: State, t: State)
    requires Setup(cfg, st) && t == st.(c := st.c.(mem := t.c.mem), journal := t.journal)
    ensures Setup(cfg, t)
  {
  }

  lemma IntrudeRest(cfg: Config, st: State, t: State, e: Event)
    requires Worker(cfg, st) && Inbox(st) && !Own(e)
    requires t.client == st.client && t.server == st.server && t.cmds == st.cmds && t.journal == st.journal + [e]
    requires t.c == st.c.(mem := t.c.mem) && t.s == st.s.(mem := t.s.mem)
    ensures Worker(cfg, t) && Inbox(t)
  {
    Extend(st.journal, e);
    assert OwnAt(t.journal) == OwnAt(st.journal) && SignalAt(t.journal) == SignalAt(st.journal);
    assert forall n :: 0 <= n <= |st.journal| ==> t.journal[..n] == st.journal[..n];
  }

  lemma IntrudeKeeps(cfg: Config, st: State, addr: nat, data: seq<u8>)
    requires Core(cfg, st) && addr + |data| <= |st.s.mem|
    ensures Core(cfg, Effect(cfg, st, Intrude(addr, data)))
  {
    var e, t := Foreign(addr, data), Effect(cfg, st, Intrude(addr, data));
    IntrudeSetup(cfg, st, t);
    IntrudeRest(cfg, st, t, e);
    WriteMemory(cfg, st.cmds, st.c.mem, st.s.mem, st.journal, e);
  }

  /** A write by somebody else is an event of its own. */
  lemma WriteMemory(cfg: Config, cmds: seq<Command>, client: seq<u8>, server: seq<u8>, journal: seq<Event>, e: Event)
    requires Memory(cfg, cmds, client, server, journal) && (e.Foreign? || e.Local?)
    requires e.addr + |e.data| <= if e.Foreign? then |server| else |client|
    ensures e.Foreign? ==> Memory(cfg, cmds, client, Splice(server, e.addr, e.data), journal + [e])
    ensures e.Local? ==> Memory(cfg, cmds, Splice(client, e.addr, e.data), server, journal + [e])
  {
    Extend(journal, e);
    ExtendOk(cfg, cmds, journal, e);
  }

  lemma WriteLocalKeeps(cfg: Config, st: State, addr: nat, data: seq<u8>)
    requires Core(cfg, st) && addr + |data| <= |st.c.mem|
    ensures Core(cfg, Effect(cfg, st, WriteLocal(addr, data)))
  {
    var e, t := Local(addr, data), Effect(cfg, st, WriteLocal(addr, data));
    WriteLocalSetup(cfg, st, t);
    IntrudeRest(cfg, st, t, e);
    WriteMemory(cfg, st.cmds, st.c.mem, st.s.mem, st.journal, e);
  }

  // ----- All actions, all runs

  /** Every action but a failed poll keeps the invariant. */
  lemma StepKeeps(cfg: Config, st: State, a: Action)
    requires Core(cfg, st) && Enabled(cfg, st, a) && !a.ClientPollFails? && !a.ServerPollFails?
    ensures Core(cfg, Effect(cfg, st, a))
  {
    if a.ClientRuns? || a.ServerRuns? || a.ClientIsRefused? || a.ServerIsRefused? {
      ProgramKeeps(cfg, st, a);
    } else {
      FabricKeeps(cfg, st, a);
    }
  }

  lemma ProgramKeeps(cfg: Config, st: State, a: Action)
    requires Core(cfg, st) && Enabled(cfg, st, a) && (a.ClientRuns? || a.ServerRuns? || a.ClientIsRefused? || a.ServerIsRefused?)
    ensures Core(cfg, Effect(cfg, st, a))
  {
    match a
    case ClientRuns => if Connecting(st.client.pc) { ConnectKeeps(cfg, st); } else { WorkerKeeps(cfg, st); }
    case ServerRuns => if Accepting(st.server.pc) { AcceptKeeps(cfg, st); } else { LoopKeeps(cfg, st); }
    case ClientIsRefused => RefusedKeeps(cfg, st);
    case ServerIsRefused => RefusedKeeps(cfg, st);
  }

  lemma DeliveriesKeep(cfg: Config, st: State, a: Action)
    requires a.DeliverToServer? || a.LoseAckClient? || a.DeliverToClient? || a.LoseAckServer?
    requires Core(cfg, st) && Enabled(cfg, st, a)
    ensures Core(cfg, Effect(cfg, st, a))
  {
    if a.DeliverToServer? || a.LoseAckClient? {
      ToServerKeeps(cfg, st, a.DeliverToServer?);
    } else {
      ToClientKeeps(cfg, st, a.DeliverToClient?);
    }
  }

  lemma FaultsKeep(cfg: Config, st: State, a: Action)
    requires (a.FaultClient? || a.FaultServer?) && Core(cfg, st)
    ensures Core(cfg, Effect(cfg, st, a))
  {
    FaultKeeps(cfg, st);
  }

  lemma FlushesKeep(cfg: Config, st: State, a: Action)
    requires a.FlushClientSend? || a.FlushClientRecv? || a.FlushServerSend? || a.FlushServerRecv?
    requires Core(cfg, st) && Enabled(cfg, st, a)
    ensures Core(cfg, Effect(cfg, st, a))
  {
    if a.FlushClientSend? || a.FlushClientRecv? {
      FlushClientKeeps(cfg, st);
    } else {
      FlushServerKeeps(cfg, st);
    }
  }

  lemma FabricKeeps(cfg: Config, st: State, a: Action)
    requires Core(cfg, st) && Enabled(cfg, st, a)
    requires !a.ClientRuns? && !a.ServerRuns? && !a.ClientIsRefused? && !a.ServerIsRefused?
    requires !a.ClientPollFails? && !a.ServerPollFails?
    ensures Core(cfg, Effect(cfg, st, a))
  {
    if a.DeliverToServer? || a.LoseAckClient? || a.DeliverToClient? || a.LoseAckServer? {
      DeliveriesKeep(cfg, st, a);
    } else if a.Submit? {
      SubmitKeeps(cfg, st, a.cmd);
    } else if a.Intrude? {
      IntrudeKeeps(cfg, st, a.addr, a.data);
    } else if a.WriteLocal? {
      WriteLocalKeeps(cfg, st, a.addr, a.data);
    } else if a.FetchClient? {
      FetchClientKeeps(cfg, st);
    } else if a.FetchServer? {
      FetchServerKeeps(cfg, st);
    } else if a.FaultClient? || a.FaultServer? {
      FaultsKeep(cfg, st, a);
    } else {
      FlushesKeep(cfg, st, a);
    }
  }
}
