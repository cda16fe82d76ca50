/** One connection as a state machine: the client program, the server program and the fabric between
    them, one atomic action at a time.

    The fabric assumptions are the guards and effects of the fabric actions:
    - delivery is reliable and in order while both queue pairs are healthy, one message at a time;
    - a SEND and a WRITE_WITH_IMM wait until the receiver has posted a receive;
    - placing the payload, consuming the receive and completing on both sides is one step;
    - the adapter reads the payload at any moment between post and completion, more than once
      if it likes (`FetchClient`, `FetchServer`), a SEND of at most 16 bytes excepted, which is inline;
    - a queue pair may fail at any time and stays failed; its requests then complete with an error;
    - a message may land although its sender sees an error (`LoseAckClient`, `LoseAckServer`). */
module Protocol {
  import opened Bytes
  import opened Wrappers
  import opened Codec
  import opened ImmWord
  import opened MemBuffers
  import opened Registration
  import opened Completion
  import opened Commands
  import opened Journal

  // ----- Queue pairs

  datatype Opcode = OpSend | OpRecv | OpRecvImm | OpWrite | OpRead

  datatype WorkRequest =
    | WrHello(conn: Connection)
    | WrImm(raddr: u64, rkey: u32, imm: u32)
    | WrWrite(mr: GpuBuffer, laddr: u64, len: u32, raddr: u64, rkey: u32)
    | WrRead(mr: GpuBuffer, laddr: u64, len: u32, raddr: u64, rkey: u32)

  /** A request on the send queue, the command that posted it, the payload as last fetched, and the
      length of the journal at the post and at that fetch. */
  datatype Slot = Slot(wr: WorkRequest, at: nat, payload: Option<seq<u8>>, since: nat, seen: nat)

  datatype Receive = HelloReceive | BufferReceive

  /** A work completion. `at` says which command's post it completes and `landed` whether the
      operation took effect; the programs look at neither. */
  datatype WorkCompletion = WorkCompletion(ok: bool, op: Opcode, imm: u32, at: nat, landed: bool)

  /** One host: its queue pair, the two completion queues, the CPU buffer, the local variable that the
      first receive fills, and the GPU memory. */
  datatype Node = Node(
    sq: seq<Slot>, scq: seq<WorkCompletion>, rq: seq<Receive>, rcq: seq<WorkCompletion>, err: bool,
    buf: seq<u8>, hello: Connection, mem: seq<u8>)

  // ----- Programs

  /** Where the client program is: `connect` up to `CDecode`, then the worker. */
  datatype ClientPc =
    | CPostHello | CRequest | CWaitAccept | CSendHello | CPollSent | CPollHello
    | CPostTable | CPollTable | CDecode(size: nat)
    | CNext | CLock | CAdd | CEvict | CPost | CPoll | CHangup | CDone
    | CDead

  /** Where the server program is: `accept` up to `SPollTable`, then the notification loop. */
  datatype ServerPc =
    | SListening | SPostHello | SAccept | SPollHello | SSendHello | SPollSent
    | SStage | SPostTable | SPollTable
    | SPostRecv | SPollRecv | SDecode(size: nat) | SHandle | SLock | SAdd | SEvict
    | SHangup(clean: bool) | SClosed(clean: bool)
    | SDead

  datatype Client = Client(
    pc: ClientPc, peer: Connection, remote: map<u64, Connection>,
    k: nat, outs: seq<Outcome>, win: Window, locked: bool)

  datatype Server = Server(
    pc: ServerPc, peer: Connection, note: Notification,
    returned: seq<Notification>, recorded: seq<ReqId>)

  /** Which handshake messages have landed. */
  datatype Met = Met(clientHello: bool, serverHello: bool, table: bool)

  /** `requested` and `accepted` are the two halves of the connection manager's exchange,
      `pollFailed` says that the worker went on after a poll call that had itself returned an error. */
  datatype State = State(
    c: Node, s: Node, client: Client, server: Server,
    cmds: seq<Command>, requested: bool, accepted: bool, pollFailed: bool,
    met: Met, journal: seq<Event>)

  function NewNode(mem: seq<u8>): Node {
    Node([], [], [], [], false, seq(CPU_BUFFER_BASE_SIZE, _ => 0), NoConnection, mem)
  }

  function Init(cfg: Config): State {
    State(NewNode(cfg.clientMem), NewNode(cfg.serverMem),
          Client(CPostHello, NoConnection, map[], 0, [], New(cfg.cap), false),
          Server(SListening, NoConnection, DefaultNotification, [], []),
          [], false, false, false, Met(false, false, false), [])
  }

  // ----- Small pieces

  function PostSend(n: Node, wr: WorkRequest, at: nat, now: nat): Node {
    n.(sq := n.sq + [Slot(wr, at, Option.None, now, now)])
  }

  function PostRecv(n: Node, r: Receive): Node {
    n.(rq := n.rq + [r])
  }

  function PopSent(n: Node): Node
    requires n.scq != []
  {
    n.(scq := n.scq[1..])
  }

  function PopReceived(n: Node): Node
    requires n.rcq != []
  {
    n.(rcq := n.rcq[1..])
  }

  /** What `write_metadata` puts in the immediate for a message of `size` bytes at offset 0. */
  function MetadataWord(size: nat): u32 {
    Pack(0, TruncateToU16(size))
  }

  function TableSize(cfg: Config): nat {
    8 + 12 * |cfg.serverBufs|
  }

  function TableBytes(cfg: Config): seq<u8> {
    EncodeConnections(TableOf(cfg.serverBufs))
  }

  predicate Resolved(cfg: Config, remote: map<u64, Connection>, cmd: Command)
    requires Moving(cmd)
  {
    cmd.remote.base in remote && cmd.local.base in LocalMap(cfg.clientBufs)
  }

  /** The work request of a command, built from the maps the client holds. */
  function RequestFor(cfg: Config, peer: Connection, remote: map<u64, Connection>, cmd: Command): WorkRequest
    requires Moving(cmd) ==> Resolved(cfg, remote, cmd)
  {
    match cmd
    case Send(l, r) =>
      WrWrite(LocalMap(cfg.clientBufs)[l.base], Address(l.base, l.offset), l.size,
              Address(remote[r.base].basePtr, r.offset), remote[r.base].rkey)
    case Recv(l, r) =>
      WrRead(LocalMap(cfg.clientBufs)[l.base], Address(l.base, l.offset), l.size,
             Address(remote[r.base].basePtr, r.offset), remote[r.base].rkey)
    case _ =>
      WrImm(peer.basePtr, peer.rkey, MetadataWord(NotificationSize(NoteOf(cmd))))
  }

  // ----- The client program

  function SetClient(st: State, pc: ClientPc): State {
    st.(client := st.client.(pc := pc))
  }

  /** The end of one pass of the worker loop. */
  function Finish(st: State, o: Outcome): State {
    st.(client := st.client.(pc := CNext, k := st.client.k + 1, outs := st.client.outs + [o], locked := false))
  }

  predicate Working(pc: ClientPc) {
    pc.CLock? || pc.CAdd? || pc.CEvict? || pc.CPost? || pc.CPoll?
  }

  /** The client's next step can be taken: a poll has something to return, a wait is over, a command
      is there. */
  predicate ClientEnabled(st: State) {
    match st.client.pc
    case CWaitAccept => st.accepted
    case CPollSent => st.c.scq != []
    case CPollHello => st.c.rcq != []
    case CPollTable => st.c.rcq != []
    case CNext => st.client.k < |st.cmds|
    case CPoll => st.c.scq != [] && st.client.k < |st.cmds|
    case CDone => false
    case CDead => false
    case _ => Working(st.client.pc) ==> st.client.k < |st.cmds|
  }

  /** One step of `connect`. */
  function ConnectStep(cfg: Config, st: State): State
    requires ClientEnabled(st)
  {
    match st.client.pc
    case CPostHello => SetClient(st, CRequest).(c := PostRecv(st.c, HelloReceive))
    case CRequest => SetClient(st, CWaitAccept).(requested := true)
    case CWaitAccept => SetClient(st, CSendHello)
    case CSendHello => SetClient(st, CPollSent).(c := PostSend(st.c, WrHello(cfg.clientCpu), 0, |st.journal|))
    case CPollSent =>
      SetClient(st, if st.c.scq[0].ok then CPollHello else CDead).(c := PopSent(st.c))
    case CPollHello =>
      if st.c.rcq[0].ok
      then st.(c := PopReceived(st.c), client := st.client.(pc := CPostTable, peer := st.c.hello))
      else SetClient(st, CDead).(c := PopReceived(st.c))
    case CPostTable => SetClient(st, CPollTable).(c := PostRecv(st.c, BufferReceive))
    case CPollTable =>
      var wc := st.c.rcq[0];
      SetClient(st, if wc.ok && wc.op == OpRecvImm then CDecode(wc.imm) else CDead).(c := PopReceived(st.c))
    case CDecode(size) =>
      if size > |st.c.buf| then SetClient(st, CDead)
      else
        (match DecodeConnections(st.c.buf[..size])
         case Failure(_) => SetClient(st, CDead)
         case Success(conns) => st.(client := st.client.(pc := CNext, remote := RemoteMap(conns))))
    case _ => st
  }

  /** Takes the next command off the channel. A message is serialised over the CPU buffer at once. */
  function TakeCommand(cfg: Config, st: State): State
    requires st.client.k < |st.cmds|
  {
    var cmd := st.cmds[st.client.k];
    match cmd
    case Complete(_) =>
      var staged := st.(c := st.c.(buf := Overlay(st.c.buf, EncodeNotification(NoteOf(cmd)))));
      SetClient(staged, if NotificationSize(NoteOf(cmd)) <= |st.c.buf| then CLock else CDead)
    case Disconnect =>
      SetClient(st.(c := st.c.(buf := Overlay(st.c.buf, EncodeNotification(NoteOf(cmd))))), CPost)
    case _ =>
      if !Transfer(cmd) then Finish(st, Skipped)
      else SetClient(st, if Resolved(cfg, st.client.remote, cmd) then CPost else CDead)
  }

  /** One step of the worker loop. */
  function WorkerStep(cfg: Config, st: State): State
    requires ClientEnabled(st)
  {
    match st.client.pc
    case CNext => TakeCommand(cfg, st)
    case CLock => st.(client := st.client.(pc := CAdd, locked := true))
    case CAdd =>
      var cmd := st.cmds[st.client.k];
      if cmd.Complete? then st.(client := st.client.(pc := CEvict, win := Add(st.client.win, cmd.reqId)))
      else st
    case CEvict =>
      st.(client := st.client.(pc := CPost, win := if Full(st.client.win) then Evict(st.client.win) else st.client.win))
    case CPost =>
      var cmd := st.cmds[st.client.k];
      if Moving(cmd) && !Resolved(cfg, st.client.remote, cmd) then st
      else
        var wr := RequestFor(cfg, st.client.peer, st.client.remote, cmd);
        SetClient(st, CPoll).(c := PostSend(st.c, wr, st.client.k, |st.journal|))
    case CPoll =>
      var wc := st.c.scq[0];
      var polled := Finish(st.(c := PopSent(st.c)), if wc.ok then Ok else Failed(wc.landed));
      if st.cmds[st.client.k].Disconnect? then SetClient(polled, if wc.ok then CHangup else CDead) else polled
    case CHangup => SetClient(st, CDone).(c := st.c.(err := true))
    case _ => st
  }

  predicate Connecting(pc: ClientPc) {
    !Working(pc) && !pc.CNext? && !pc.CHangup? && !pc.CDone? && !pc.CDead?
  }

  function ClientStep(cfg: Config, st: State): State
    requires ClientEnabled(st)
  {
    if Connecting(st.client.pc) then ConnectStep(cfg, st) else WorkerStep(cfg, st)
  }

  /** The calls of the client that can be refused outright: posts and connection management. */
  predicate ClientRefusable(st: State) {
    match st.client.pc
    case CPostHello => true
    case CRequest => true
    case CWaitAccept => true
    case CSendHello => true
    case CPostTable => true
    case CPost => st.client.k < |st.cmds|
    case CHangup => true
    case _ => false
  }

  /** The worker logs a refused transfer or message and carries on; everything else is fatal. */
  function ClientRefused(st: State): State
    requires ClientRefusable(st)
  {
    if st.client.pc.CPost? then
      var next := Finish(st, Refused);
      if st.cmds[st.client.k].Disconnect? then SetClient(next, CDead) else next
    else SetClient(st, CDead)
  }

  predicate ClientPolling(st: State) {
    st.client.pc.CPollSent? || st.client.pc.CPollHello? || st.client.pc.CPollTable?
    || (st.client.pc.CPoll? && st.client.k < |st.cmds|)
  }

  /** The poll call itself fails; what was posted stays where it is. `connect` and `disconnect` return the
      error and the client panics; for any other command the worker logs it and goes on. */
  function ClientBadPoll(st: State): State
    requires ClientPolling(st)
  {
    if st.client.pc.CPoll? && !st.cmds[st.client.k].Disconnect?
    then Finish(st, Failed(false)).(pollFailed := true)
    else SetClient(st, CDead)
  }

  // ----- The server program

  function SetServer(st: State, pc: ServerPc): State {
    st.(server := st.server.(pc := pc))
  }

  predicate ServerEnabled(st: State) {
    match st.server.pc
    case SListening => st.requested
    case SPollHello => st.s.rcq != []
    case SPollSent => st.s.scq != []
    case SPollTable => st.s.scq != []
    case SPollRecv => st.s.rcq != []
    case SClosed(_) => false
    case SDead => false
    case _ => true
  }

  /** One step of `accept`; on an error the server goes on to disconnect. */
  function AcceptStep(cfg: Config, st: State): State
    requires ServerEnabled(st)
  {
    match st.server.pc
    case SListening => SetServer(st, SPostHello)
    case SPostHello => SetServer(st, SAccept).(s := PostRecv(st.s, HelloReceive))
    case SAccept => SetServer(st, SPollHello).(accepted := true)
    case SPollHello =>
      if st.s.rcq[0].ok
      then st.(s := PopReceived(st.s), server := st.server.(pc := SSendHello, peer := st.s.hello))
      else SetServer(st, SHangup(false)).(s := PopReceived(st.s))
    case SSendHello => SetServer(st, SPollSent).(s := PostSend(st.s, WrHello(cfg.serverCpu), 0, |st.journal|))
    case SPollSent =>
      SetServer(st, if st.s.scq[0].ok then SStage else SHangup(false)).(s := PopSent(st.s))
    case SStage =>
      var staged := st.(s := st.s.(buf := Overlay(st.s.buf, TableBytes(cfg))));
      SetServer(staged, if TableSize(cfg) <= |st.s.buf| then SPostTable else SHangup(false))
    case SPostTable =>
      var wr := WrImm(st.server.peer.basePtr, st.server.peer.rkey, TableSize(cfg) % 0x1_0000_0000);
      SetServer(st, SPollTable).(s := PostSend(st.s, wr, 0, |st.journal|))
    case SPollTable =>
      SetServer(st, if st.s.scq[0].ok then SPostRecv else SHangup(false)).(s := PopSent(st.s))
    case _ => st
  }

  function Return(st: State, n: Notification): State {
    st.(server := st.server.(pc := SHandle, note := n, returned := st.server.returned + [n]))
  }

  /** One step of the per-connection loop. A failed notification panics and ends it. */
  function LoopStep(st: State): State
    requires ServerEnabled(st)
  {
    match st.server.pc
    case SPostRecv => SetServer(st, SPollRecv).(s := PostRecv(st.s, BufferReceive))
    case SPollRecv =>
      var wc, popped := st.s.rcq[0], st.(s := PopReceived(st.s));
      if !wc.ok then SetServer(popped, SDead)
      else if wc.op == OpRecvImm then SetServer(popped, SDecode(wc.imm))
      else Return(popped, DefaultNotification)
    case SDecode(size) =>
      if size > |st.s.buf| then SetServer(st, SDead)
      else
        (match DecodeNotification(st.s.buf[..size])
         case Failure(_) => SetServer(st, SDead)
         case Success(n) => Return(st, n))
    case SHandle =>
      SetServer(st, if st.server.note.done > 0 then SHangup(true)
                    else if st.server.note.reqId.Some? then SLock else SPostRecv)
    case SLock => SetServer(st, SAdd)
    case SAdd =>
      if st.server.note.reqId.Some?
      then st.(server := st.server.(pc := SEvict, recorded := st.server.recorded + [st.server.note.reqId.value]))
      else st
    case SEvict => SetServer(st, SPostRecv)
    case SHangup(clean) => SetServer(st, SClosed(clean)).(s := st.s.(err := true))
    case _ => st
  }

  predicate Accepting(pc: ServerPc) {
    pc.SListening? || pc.SPostHello? || pc.SAccept? || pc.SPollHello? || pc.SSendHello? || pc.SPollSent?
    || pc.SStage? || pc.SPostTable? || pc.SPollTable?
  }

  function ServerStep(cfg: Config, st: State): State
    requires ServerEnabled(st)
  {
    if Accepting(st.server.pc) then AcceptStep(cfg, st) else LoopStep(st)
  }

  predicate ServerRefusable(st: State) {
    match st.server.pc
    case SPostHello => true
    case SAccept => true
    case SSendHello => true
    case SPostTable => true
    case SPostRecv => true
    case _ => false
  }

  function ServerRefused(st: State): State
    requires ServerRefusable(st)
  {
    SetServer(st, if st.server.pc.SPostRecv? then SDead else SHangup(false))
  }

  predicate ServerPolling(st: State) {
    st.server.pc.SPollHello? || st.server.pc.SPollSent? || st.server.pc.SPollTable? || st.server.pc.SPollRecv?
  }

  /** A failed poll ends the server's part: `accept` returns the error, the loop panics. */
  function ServerBadPoll(st: State): State
    requires ServerPolling(st)
  {
    SetServer(st, if st.server.pc.SPollRecv? then SDead else SHangup(false))
  }

  // ----- The fabric

  /** The adapter reads the payload of the oldest request. A read has none; a hello went inline. */
  predicate CanFetch(n: Node) {
    n.sq != [] && (n.sq[0].wr.WrImm? || (n.sq[0].wr.WrWrite? && Covers(n.sq[0].wr.mr, n.sq[0].wr.laddr, n.sq[0].wr.len)))
  }

  function Fetch(n: Node, now: nat): Node
    requires CanFetch(n)
  {
    var wr := n.sq[0].wr;
    var data := if wr.WrImm? then n.buf else Slice(n.mem, wr.laddr, wr.len);
    n.(sq := [n.sq[0].(payload := Some(data), seen := now)] + n.sq[1..])
  }

  /** The sender's side of a delivery; a lost acknowledgement leaves an error instead. */
  function Acknowledge(n: Node, op: Opcode, acked: bool): Node
    requires n.sq != []
  {
    n.(sq := n.sq[1..], scq := n.scq + [WorkCompletion(acked, op, 0, n.sq[0].at, true)], err := n.err || !acked)
  }

  /** The receiver's side: the oldest receive is consumed and completes. */
  function Consume(n: Node, op: Opcode, imm: u32): Node
    requires n.rq != []
  {
    n.(rq := n.rq[1..], rcq := n.rcq + [WorkCompletion(true, op, imm, 0, true)])
  }

  /** A hello lands where its receive points: the local variable, or the buffer if a buffer was posted. */
  function TakeHello(n: Node, conn: Connection): Node
    requires n.rq != []
  {
    var filled := if n.rq[0].HelloReceive? then n.(hello := conn)
                  else n.(buf := Overlay(n.buf, EncodeConnection(conn) + [0, 0, 0, 0]));
    Consume(filled, OpRecv, 0)
  }

  /** The oldest request of one side can take effect on the other. */
  predicate HelloDeliverable(from: Node, to: Node) {
    from.sq != [] && from.sq[0].wr.WrHello? && to.rq != [] && !from.err && !to.err
  }

  predicate ImmDeliverable(from: Node, to: Node, target: Connection) {
    from.sq != [] && from.sq[0].wr.WrImm? && from.sq[0].payload.Some? && to.rq != [] && !from.err && !to.err
    && from.sq[0].wr.raddr == target.basePtr && from.sq[0].wr.rkey == target.rkey
    && |from.sq[0].payload.value| == |to.buf|
  }

  /** One-sided operations, which only the client posts, check both registrations. */
  predicate OneSided(cfg: Config, st: State) {
    st.c.sq != [] && (st.c.sq[0].wr.WrWrite? || st.c.sq[0].wr.WrRead?) && !st.c.err && !st.s.err
    && var wr := st.c.sq[0].wr;
    Covers(wr.mr, wr.laddr, wr.len) && RemoteAllowed(cfg.serverBufs, wr.rkey, wr.raddr, wr.len)
    && (wr.WrWrite? ==> st.c.sq[0].payload.Some? && |st.c.sq[0].payload.value| == wr.len)
  }

  predicate ToServerEnabled(cfg: Config, st: State) {
    st.accepted && (HelloDeliverable(st.c, st.s) || ImmDeliverable(st.c, st.s, cfg.serverCpu) || OneSided(cfg, st))
  }

  /** The oldest request of the client takes effect. */
  function ToServer(cfg: Config, st: State, acked: bool): State
    requires ToServerEnabled(cfg, st)
  {
    var slot := st.c.sq[0];
    match slot.wr
    case WrHello(conn) =>
      st.(c := Acknowledge(st.c, OpSend, acked), s := TakeHello(st.s, conn), met := st.met.(clientHello := true))
    case WrImm(_, _, imm) =>
      st.(c := Acknowledge(st.c, OpWrite, acked),
          s := Consume(st.s.(buf := slot.payload.value), OpRecvImm, Received(cfg.clientOrder, cfg.serverOrder, imm)),
          journal := st.journal + [Signal(slot.at)])
    case WrWrite(_, _, _, raddr, _) =>
      st.(c := Acknowledge(st.c, OpWrite, acked),
          s := st.s.(mem := Splice(st.s.mem, raddr, slot.payload.value)),
          journal := st.journal + [Push(slot.at, raddr, slot.payload.value, slot.since, slot.seen)])
    case WrRead(_, laddr, len, raddr, _) =>
      var data := Slice(st.s.mem, raddr, len);
      st.(c := Acknowledge(st.c.(mem := Splice(st.c.mem, laddr, data)), OpRead, acked),
          journal := st.journal + [Pull(slot.at, laddr, data)])
  }

  predicate ToClientEnabled(cfg: Config, st: State) {
    st.accepted && (HelloDeliverable(st.s, st.c) || ImmDeliverable(st.s, st.c, cfg.clientCpu))
  }

  /** The oldest request of the server takes effect. */
  function ToClient(cfg: Config, st: State, acked: bool): State
    requires ToClientEnabled(cfg, st)
  {
    var slot := st.s.sq[0];
    if slot.wr.WrHello? then
      st.(s := Acknowledge(st.s, OpSend, acked), c := TakeHello(st.c, slot.wr.conn), met := st.met.(serverHello := true))
    else
      st.(s := Acknowledge(st.s, OpWrite, acked),
          c := Consume(st.c.(buf := slot.payload.value), OpRecvImm, Received(cfg.serverOrder, cfg.clientOrder, slot.wr.imm)),
          met := st.met.(table := true))
  }

  /** A failed queue pair completes what is posted with an error. */
  function FlushSend(n: Node): Node
    requires n.sq != []
  {
    n.(sq := n.sq[1..], scq := n.scq + [WorkCompletion(false, OpSend, 0, n.sq[0].at, false)])
  }

  function FlushRecv(n: Node): Node
    requires n.rq != []
  {
    n.(rq := n.rq[1..], rcq := n.rcq + [WorkCompletion(false, OpRecv, 0, 0, false)])
  }

  // ----- Actions

  datatype Action =
    | ClientRuns | ClientIsRefused | ClientPollFails
    | ServerRuns | ServerIsRefused | ServerPollFails
    | Submit(cmd: Command)
    | FetchClient | FetchServer
    | DeliverToServer | LoseAckClient
    | DeliverToClient | LoseAckServer
    | FaultClient | FaultServer
    | FlushClientSend | FlushClientRecv | FlushServerSend | FlushServerRecv
    | Intrude(addr: nat, data: seq<u8>) | WriteLocal(addr: nat, data: seq<u8>)

  predicate Enabled(cfg: Config, st: State, a: Action) {
    match a
    case ClientRuns => ClientEnabled(st)
    case ClientIsRefused => ClientRefusable(st)
    case ClientPollFails => ClientPolling(st)
    case ServerRuns => ServerEnabled(st)
    case ServerIsRefused => ServerRefusable(st)
    case ServerPollFails => ServerPolling(st)
    case Submit(_) => true
    case FetchClient => CanFetch(st.c)
    case FetchServer => CanFetch(st.s)
    case DeliverToServer => ToServerEnabled(cfg, st)
    case LoseAckClient => ToServerEnabled(cfg, st) && !st.c.sq[0].wr.WrRead?
    case DeliverToClient => ToClientEnabled(cfg, st)
    case LoseAckServer => ToClientEnabled(cfg, st)
    case FaultClient => true
    case FaultServer => true
    case FlushClientSend => st.c.err && st.c.sq != []
    case FlushClientRecv => st.c.err && st.c.rq != []
    case FlushServerSend => st.s.err && st.s.sq != []
    case FlushServerRecv => st.s.err && st.s.rq != []
    case Intrude(addr, data) => addr + |data| <= |st.s.mem|
    case WriteLocal(addr, data) => addr + |data| <= |st.c.mem|
  }

  function Effect(cfg: Config, st: State, a: Action): State
    requires Enabled(cfg, st, a)
  {
    match a
    case ClientRuns => ClientStep(cfg, st)
    case ClientIsRefused => ClientRefused(st)
    case ClientPollFails => ClientBadPoll(st)
    case ServerRuns => ServerStep(cfg, st)
    case ServerIsRefused => ServerRefused(st)
    case ServerPollFails => ServerBadPoll(st)
    case Submit(cmd) => st.(cmds := st.cmds + [cmd])
    case FetchClient => st.(c := Fetch(st.c, |st.journal|))
    case FetchServer => st.(s := Fetch(st.s, |st.journal|))
    case DeliverToServer => ToServer(cfg, st, true)
    case LoseAckClient => ToServer(cfg, st, false)
    case DeliverToClient => ToClient(cfg, st, true)
    case LoseAckServer => ToClient(cfg, st, false)
    case FaultClient => st.(c := st.c.(err := true))
    case FaultServer => st.(s := st.s.(err := true))
    case FlushClientSend => st.(c := FlushSend(st.c))
    case FlushClientRecv => st.(c := FlushRecv(st.c))
    case FlushServerSend => st.(s := FlushSend(st.s))
    case FlushServerRecv => st.(s := FlushRecv(st.s))
    case Intrude(addr, data) =>
      st.(s := st.s.(mem := Splice(st.s.mem, addr, data)), journal := st.journal + [Foreign(addr, data)])
    case WriteLocal(addr, data) =>
      st.(c := st.c.(mem := Splice(st.c.mem, addr, data)), journal := st.journal + [Local(addr, data)])
  }

  // ----- Runs

  /** `acts` can be taken one after the other from `st`, ending in `end`. */
  ghost predicate Run(cfg: Config, st: State, acts: seq<Action>, end: State)
    decreases |acts|
  {
    if acts == [] then st == end
    else Enabled(cfg, st, acts[0]) && Run(cfg, Effect(cfg, st, acts[0]), acts[1..], end)
  }

  ghost predicate Reachable(cfg: Config, st: State) {
    ValidConfig(cfg) && exists acts :: Run(cfg, Init(cfg), acts, st)
  }

  lemma {:induction false} RunExtends(cfg: Config, st: State, acts: seq<Action>, mid: State, a: Action)
    requires Run(cfg, st, acts, mid) && Enabled(cfg, mid, a)
    ensures Run(cfg, st, acts + [a], Effect(cfg, mid, a))
    decreases |acts|
  {
    if acts == [] {
    } else {
      RunExtends(cfg, Effect(cfg, st, acts[0]), acts[1..], mid, a);
      assert (acts + [a])[1..] == acts[1..] + [a];
    }
  }

  lemma ReachableExtends(cfg: Config, st: State, a: Action)
    requires Reachable(cfg, st) && Enabled(cfg, st, a)
    ensures Reachable(cfg, Effect(cfg, st, a))
  {
    var acts :| Run(cfg, Init(cfg), acts, st);
    RunExtends(cfg, Init(cfg), acts, st, a);
  }
}
