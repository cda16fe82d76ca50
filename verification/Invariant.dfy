/** What every reachable state of a connection satisfies, as long as no poll call fails. */
module Invariant {
  import opened Bytes
  import opened Wrappers
  import opened Codec
  import opened MemBuffers
  import opened Registration
  import opened Completion
  import opened Commands
  import opened Journal
  import opened Protocol

  /** How far the client program is; the worker is phase 9. */
  function ClientPhase(pc: ClientPc): nat {
    match pc
    case CPostHello => 0
    case CRequest => 1
    case CWaitAccept => 2
    case CSendHello => 3
    case CPollSent => 4
    case CPollHello => 5
    case CPostTable => 6
    case CPollTable => 7
    case CDecode(_) => 8
    case CDead => 10
    case _ => 9
  }

  /** How far the server program is; the notification loop is phase 9. */
  function ServerPhase(pc: ServerPc): nat {
    match pc
    case SListening => 0
    case SPostHello => 1
    case SAccept => 2
    case SPollHello => 3
    case SSendHello => 4
    case SPollSent => 5
    case SStage => 6
    case SPostTable => 7
    case SPollTable => 8
    case SDead => 10
    case SHangup(clean) => if clean then 9 else 10
    case SClosed(clean) => if clean then 9 else 10
    case _ => 9
  }

  // ----- Queue bounds: who may have what outstanding

  predicate SendQueues(n: Node, sending: bool) {
    (if sending then |n.sq| + |n.scq| == 1 else n.sq == [] && n.scq == [])
    && (n.scq != [] ==> if n.scq[0].ok then n.scq[0].landed else n.err)
  }

  predicate ReceiveQueues(n: Node, kind: Option<Receive>) {
    match kind
    case None => n.rq == [] && n.rcq == []
    case Some(r) => |n.rq| + |n.rcq| == 1 && (n.rq != [] ==> n.rq[0] == r) && (n.rcq != [] ==> n.rcq[0].ok || n.err)
  }

  predicate ClientQueues(c: Node, pc: ClientPc) {
    SendQueues(c, pc.CPollSent? || pc.CPoll?)
    && (if 1 <= ClientPhase(pc) <= 5 then ReceiveQueues(c, Some(HelloReceive))
        else if pc.CPollTable? then ReceiveQueues(c, Some(BufferReceive))
        else ReceiveQueues(c, Option.None) || (pc.CDead? && ReceiveQueues(c, Some(HelloReceive))))
    && |c.buf| == CPU_BUFFER_BASE_SIZE
    && (c.scq != [] && c.scq[0].landed ==> (c.scq[0].op == OpSend <==> pc.CPollSent?))
  }

  predicate ServerQueues(s: Node, pc: ServerPc, accepted: bool) {
    SendQueues(s, pc.SPollSent? || pc.SPollTable?)
    && (if 2 <= ServerPhase(pc) <= 3 then ReceiveQueues(s, Some(HelloReceive))
        else if pc.SPollRecv? then ReceiveQueues(s, Some(BufferReceive))
        else ReceiveQueues(s, Option.None)
             || (ServerPhase(pc) == 10 && ReceiveQueues(s, Some(HelloReceive)) && !accepted))
    && |s.buf| == CPU_BUFFER_BASE_SIZE
  }

  // ----- Handshake: which message has gone where

  /** The connection manager's exchange: the client asks, the server answers, the client goes on. */
  predicate Managed(p: nat, q: nat, requested: bool, accepted: bool) {
    (2 <= p <= 9 ==> requested) && (p < 2 ==> !requested)
    && (3 <= p <= 9 ==> accepted)
    && (1 <= q <= 9 ==> requested)
    && (q < 3 ==> !accepted) && (3 <= q <= 9 ==> accepted)
  }

  predicate ClientHello(cfg: Config, c: Node, p: nat, s: Node, q: nat, peer: Connection, met: bool) {
    (p < 4 ==> !met)
    && (p == 4 && c.sq != [] ==> c.sq[0].wr == WrHello(cfg.clientCpu) && !met)
    && (p == 4 && c.scq != [] && c.scq[0].ok ==> met)
    && (5 <= p <= 9 ==> met)
    && (q < 2 ==> !met)
    && (2 <= q <= 3 && s.rq != [] ==> !met)
    && (2 <= q <= 3 && s.rcq != [] && s.rcq[0].ok ==> met && s.rcq[0].op == OpRecv)
    && (met ==> s.hello == cfg.clientCpu)
    && (4 <= q <= 9 ==> met && peer == cfg.clientCpu)
  }

  predicate ServerHello(cfg: Config, s: Node, q: nat, c: Node, p: nat, peer: Connection, met: bool) {
    (q < 5 ==> !met)
    && (q == 5 && s.sq != [] ==> s.sq[0].wr == WrHello(cfg.serverCpu) && !met)
    && (q == 5 && s.scq != [] && s.scq[0].ok ==> met)
    && (6 <= q <= 9 ==> met)
    && (p < 1 ==> !met)
    && (p != 7 && c.rq != [] ==> !met)
    && (1 <= p <= 5 && c.rcq != [] && c.rcq[0].ok ==> met && c.rcq[0].op == OpRecv)
    && (met ==> c.hello == cfg.serverCpu)
    && (6 <= p <= 9 ==> met && peer == cfg.serverCpu)
  }

  /** A buffer whose start is the encoded table. */
  predicate HoldsTable(cfg: Config, buf: seq<u8>) {
    TableFits(cfg) && |buf| == CPU_BUFFER_BASE_SIZE && buf[..TableSize(cfg)] == TableBytes(cfg)
  }

  predicate TableSent(cfg: Config, s: Node, q: nat, met: bool) {
    (q < 8 ==> !met)
    && (q == 7 ==> HoldsTable(cfg, s.buf))
    && (q == 8 && s.sq != [] ==>
          !met && HoldsTable(cfg, s.buf)
          && s.sq[0].wr == WrImm(cfg.clientCpu.basePtr, cfg.clientCpu.rkey, TableSize(cfg))
          && (s.sq[0].payload.Some? ==> HoldsTable(cfg, s.sq[0].payload.value)))
    && (q == 8 && s.scq != [] && s.scq[0].ok ==> met)
    && (q == 9 ==> met)
    && (met ==> TableFits(cfg))
  }

  predicate TableTaken(cfg: Config, c: Node, pc: ClientPc, remote: map<u64, Connection>, met: bool) {
    var p := ClientPhase(pc);
    (p < 7 ==> !met)
    && (p == 7 && c.rq != [] ==> !met)
    && (p == 7 && c.rcq != [] && c.rcq[0].ok ==>
          met && c.rcq[0].op == OpRecvImm && c.rcq[0].imm == TableSize(cfg) && HoldsTable(cfg, c.buf))
    && (p == 8 ==> met && pc.size == TableSize(cfg) && HoldsTable(cfg, c.buf))
    && (p == 9 ==> met && remote == RemoteOf(cfg.serverBufs))
  }

  predicate Handshake(cfg: Config, st: State) {
    var p, q := ClientPhase(st.client.pc), ServerPhase(st.server.pc);
    Managed(p, q, st.requested, st.accepted)
    && ClientHello(cfg, st.c, p, st.s, q, st.server.peer, st.met.clientHello)
    && ServerHello(cfg, st.s, q, st.c, p, st.client.peer, st.met.serverHello)
    && TableSent(cfg, st.s, q, st.met.table)
    && TableTaken(cfg, st.c, st.client.pc, st.client.remote, st.met.table)
  }

  // ----- The worker and its outcomes

  /** A buffer whose start is the encoded message of `cmd`. */
  predicate HoldsNote(cmd: Command, buf: seq<u8>) {
    FitsBuffer(cmd) && |buf| == CPU_BUFFER_BASE_SIZE
    && buf[..NotificationSize(NoteOf(cmd))] == EncodeNotification(NoteOf(cmd))
  }

  /** The current command has taken effect and its completion has not been polled. */
  predicate LandedNow(client: Client, c: Node) {
    client.pc.CPoll? && c.scq != [] && c.scq[0].landed
  }

  predicate NoFailure(outs: seq<Outcome>) {
    forall i :: 0 <= i < |outs| ==> !outs[i].Failed?
  }

  /** Once a command has failed, none after it takes effect. */
  predicate Sticky(outs: seq<Outcome>) {
    forall i, j :: 0 <= i < j < |outs| && outs[i].Failed? ==> !Landed(outs[j])
  }

  /** The worker is in the middle of a command it can carry out. */
  predicate Current(cfg: Config, cmds: seq<Command>, client: Client, buf: seq<u8>) {
    Working(client.pc) ==>
      client.k < |cmds|
      && var cmd := cmds[client.k];
      (Message(cmd) || Transfer(cmd))
      && (client.pc.CLock? || client.pc.CAdd? || client.pc.CEvict? ==> cmd.Complete?)
      && (Message(cmd) ==> HoldsNote(cmd, buf))
      && (Transfer(cmd) ==> Resolvable(cfg, cmd))
  }

  /** The request on the send queue is the current command's, with the right payload. */
  predicate Posted(cfg: Config, cmds: seq<Command>, client: Client, c: Node, journal: seq<Event>) {
    client.pc.CPoll? && client.k < |cmds| ==>
      (c.sq != [] ==>
         var cmd, slot := cmds[client.k], c.sq[0];
         slot.at == client.k && slot.since <= |journal|
         && (Moving(cmd) ==> Resolved(cfg, RemoteOf(cfg.serverBufs), cmd))
         && slot.wr == RequestFor(cfg, cfg.serverCpu, RemoteOf(cfg.serverBufs), cmd)
         && (slot.payload.Some? && Message(cmd) ==> HoldsNote(cmd, slot.payload.value))
         && (slot.payload.Some? && cmd.Send? ==>
               SeenAt(cfg, journal, cmd, slot.since, slot.seen, slot.payload.value)))
      && (c.scq != [] ==> c.scq[0].at == client.k)
  }

  predicate Outcomes(cmds: seq<Command>, client: Client) {
    var pc, k, outs := client.pc, client.k, client.outs;
    |outs| == k <= |cmds|
    && (ClientPhase(pc) < 9 ==> k == 0)
    && (forall i :: 0 <= i < k ==> (outs[i].Skipped? <==> !Message(cmds[i]) && !Transfer(cmds[i])))
    && (forall i :: 0 <= i < k - 1 ==> !cmds[i].Disconnect?)
    && (k > 0 && cmds[k - 1].Disconnect? ==> pc.CDead? || pc.CHangup? || pc.CDone?)
    && (pc.CHangup? || pc.CDone? ==> k > 0 && cmds[k - 1].Disconnect? && outs[k - 1].Ok?)
    && Sticky(outs)
  }

  predicate Healthy(client: Client, c: Node) {
    (c.err && !LandedNow(client, c)) || NoFailure(client.outs)
  }

  /** The journal holds exactly the commands that took effect, in order. */
  predicate Record(journal: seq<Event>, client: Client, c: Node) {
    OwnAt(journal) == LandedAt(client.outs) + if LandedNow(client, c) then [client.k] else []
  }

  predicate Worker(cfg: Config, st: State) {
    Current(cfg, st.cmds, st.client, st.c.buf)
    && Posted(cfg, st.cmds, st.client, st.c, st.journal)
    && Outcomes(st.cmds, st.client)
    && Healthy(st.client, st.c)
    && Record(st.journal, st.client, st.c)
  }

  // ----- Memories

  predicate Memory(cfg: Config, cmds: seq<Command>, client: seq<u8>, server: seq<u8>, journal: seq<Event>) {
    client == ReplayClient(cfg.clientMem, journal)
    && server == ReplayServer(cfg.serverMem, journal)
    && JournalOk(cfg, cmds, journal)
  }

  // ----- Messages at the server

  /** A message has arrived that `handle_notification` has not returned yet. */
  predicate Pending(pc: ServerPc, s: Node) {
    pc.SDecode? || (pc.SPollRecv? && s.rcq != [] && s.rcq[0].ok)
  }

  predicate Returned(cmds: seq<Command>, signals: seq<nat>, returned: seq<Notification>, pending: bool) {
    |signals| == |returned| + (if pending then 1 else 0)
    && (forall m :: 0 <= m < |signals| ==> signals[m] < |cmds| && Message(cmds[signals[m]]))
    && (forall m :: 0 <= m < |returned| ==> returned[m] == NoteOf(cmds[signals[m]]))
  }

  /** The arrived message is complete in the buffer and its size is known. */
  predicate Readable(cmd: Command, pc: ServerPc, s: Node) {
    HoldsNote(cmd, s.buf)
    && (pc.SDecode? ==> pc.size == NotificationSize(NoteOf(cmd)))
    && (pc.SPollRecv? && s.rcq != [] ==> s.rcq[0].op == OpRecvImm && s.rcq[0].imm == NotificationSize(NoteOf(cmd)))
  }

  predicate Arrived(cmds: seq<Command>, signals: seq<nat>, server: Server, s: Node) {
    Returned(cmds, signals, server.returned, Pending(server.pc, s))
    && (Pending(server.pc, s) ==> Readable(cmds[signals[|server.returned|]], server.pc, s))
  }

  predicate Unrecorded(pc: ServerPc) {
    pc.SHandle? || pc.SLock? || pc.SAdd?
  }

  predicate Recorded(server: Server) {
    var pc, r := server.pc, server.returned;
    (ServerPhase(pc) < 9 ==> r == [])
    && (Unrecorded(pc) ==> r != [] && server.note == r[|r| - 1])
    && server.recorded == IdsOf(if Unrecorded(pc) && r != [] then r[..|r| - 1] else r)
    && (forall m :: 0 <= m < |r| - 1 ==> r[m].done == 0)
    && (r != [] && r[|r| - 1].done > 0 ==> pc == SHandle || pc == SHangup(true) || pc == SClosed(true))
    && (pc == SHangup(true) || pc == SClosed(true) ==> r != [] && r[|r| - 1].done > 0)
    && (pc.SLock? || pc.SAdd? ==> server.note.reqId.Some?)
  }

  // ----- The client's window

  /** The guard is held from before the addition until after the message's completion. */
  predicate Guarded(cmds: seq<Command>, client: Client) {
    client.pc.CAdd? || client.pc.CEvict?
    || ((client.pc.CPost? || client.pc.CPoll?) && client.k < |cmds| && cmds[client.k].Complete?)
  }

  predicate ClientWindow(cfg: Config, cmds: seq<Command>, client: Client) {
    var pc, k := client.pc, client.k;
    k <= |cmds|
    && client.locked == Guarded(cmds, client)
    && var before := Rounds(New(cfg.cap), CompletedIds(cmds[..k]));
    if k < |cmds| && cmds[k].Complete? && pc.CEvict? then client.win == Add(before, cmds[k].reqId)
    else if k < |cmds| && cmds[k].Complete? && (pc.CPost? || pc.CPoll?) then client.win == Round(before, cmds[k].reqId)
    else client.win == before
  }

  predicate Setup(cfg: Config, st: State) {
    ClientQueues(st.c, st.client.pc)
    && ServerQueues(st.s, st.server.pc, st.accepted)
    && Handshake(cfg, st)
  }

  predicate Core(cfg: Config, st: State) {
    Setup(cfg, st)
    && Worker(cfg, st)
    && Memory(cfg, st.cmds, st.c.mem, st.s.mem, st.journal)
    && Arrived(st.cmds, SignalAt(st.journal), st.server, st.s)
    && Recorded(st.server)
    && ClientWindow(cfg, st.cmds, st.client)
  }

  lemma InitCore(cfg: Config)
    ensures Core(cfg, Init(cfg))
  {
  }
}
