/** Every action keeps the invariant, one program point or fabric action at a time. */
module Preservation {
  import opened Bytes
  import opened Wrappers
  import opened Codec
  import opened MemBuffers
  import opened Registration
  import opened Completion
  import opened Commands
  import opened Journal
  import opened Protocol
  import opened Invariant

  // ----- Reading what a buffer holds

  lemma TableReads(cfg: Config, buf: seq<u8>)
    requires HoldsTable(cfg, buf)
    ensures TableSize(cfg) <= |buf|
    ensures DecodeConnections(buf[..TableSize(cfg)]) == Success(TableOf(cfg.serverBufs))
  {
    DecodeConnectionsExact(buf[..TableSize(cfg)], TableOf(cfg.serverBufs));
  }

  lemma NoteReads(cmd: Command, buf: seq<u8>)
    requires HoldsNote(cmd, buf)
    ensures NotificationSize(NoteOf(cmd)) <= |buf|
    ensures DecodeNotification(buf[..NotificationSize(NoteOf(cmd))]) == Success(NoteOf(cmd))
  {
    NotificationLayout(NoteOf(cmd));
    DecodeNotificationExact(buf[..NotificationSize(NoteOf(cmd))], NoteOf(cmd));
  }

  lemma StagesTable(cfg: Config, buf: seq<u8>)
    requires |buf| == CPU_BUFFER_BASE_SIZE && TableFits(cfg)
    ensures HoldsTable(cfg, Overlay(buf, TableBytes(cfg)))
  {
  }

  lemma StagesNote(cmd: Command, buf: seq<u8>)
    requires |buf| == CPU_BUFFER_BASE_SIZE && FitsBuffer(cmd)
    ensures HoldsNote(cmd, Overlay(buf, EncodeNotification(NoteOf(cmd))))
  {
    NotificationLayout(NoteOf(cmd));
  }

  // ----- The client connecting

  /** The step touches nothing of the server, of the commands or of the memories. */
  predicate ClientSetupOnly(st: State, t: State) {
    t.s == st.s && t.server == st.server && t.cmds == st.cmds && t.journal == st.journal && t.pollFailed == st.pollFailed
    && t.c.mem == st.c.mem && t.accepted == st.accepted
    && t.client == st.client.(pc := t.client.pc, peer := t.client.peer, remote := t.client.remote)
    && !Working(t.client.pc) && !t.client.pc.CHangup? && !t.client.pc.CDone?
  }

  lemma ClientPostsHello(cfg: Config, st: State)
    requires Setup(cfg, st) && ClientEnabled(st) && st.client.pc.CPostHello?
    ensures var t := ConnectStep(cfg, st); Setup(cfg, t) && ClientSetupOnly(st, t)
  {
  }

  lemma ClientRequests(cfg: Config, st: State)
    requires Setup(cfg, st) && ClientEnabled(st) && st.client.pc.CRequest?
    ensures var t := ConnectStep(cfg, st); Setup(cfg, t) && ClientSetupOnly(st, t)
  {
  }

  lemma ClientIsAccepted(cfg: Config, st: State)
    requires Setup(cfg, st) && ClientEnabled(st) && st.client.pc.CWaitAccept?
    ensures var t := ConnectStep(cfg, st); Setup(cfg, t) && ClientSetupOnly(st, t)
  {
  }

  lemma ClientSendsHello(cfg: Config, st: State)
    requires Setup(cfg, st) && ClientEnabled(st) && st.client.pc.CSendHello?
    ensures var t := ConnectStep(cfg, st); Setup(cfg, t) && ClientSetupOnly(st, t)
  {
  }

  lemma ClientHelloIsSent(cfg: Config, st: State)
    requires Setup(cfg, st) && ClientEnabled(st) && st.client.pc.CPollSent?
    ensures var t := ConnectStep(cfg, st); Setup(cfg, t) && ClientSetupOnly(st, t)
  {
  }

  lemma ClientTakesHello(cfg: Config, st: State)
    requires Setup(cfg, st) && ClientEnabled(st) && st.client.pc.CPollHello?
    ensures var t := ConnectStep(cfg, st); Setup(cfg, t) && ClientSetupOnly(st, t)
  {
    HelloTaken(st);
    if st.c.rcq[0].ok {
      HelloIsKnown(cfg, st);
    } else {
      HelloIsLost(cfg, st);
    }
  }

  lemma HelloTaken(st: State)
    requires st.client.pc.CPollHello? && st.c.rcq != []
    ensures forall cfg :: ConnectStep(cfg, st) == if st.c.rcq[0].ok then HelloRead(st) else HelloFailed(st)
  {
  }

  function HelloRead(st: State): State
    requires st.c.rcq != []
  {
    st.(c := PopReceived(st.c), client := st.client.(pc := CPostTable, peer := st.c.hello))
  }

  function HelloFailed(st: State): State
    requires st.c.rcq != []
  {
    SetClient(st, CDead).(c := PopReceived(st.c))
  }

  lemma HelloIsKnown(cfg: Config, st: State)
    requires Setup(cfg, st) && st.client.pc.CPollHello? && st.c.rcq != [] && st.c.rcq[0].ok
    ensures Setup(cfg, HelloRead(st)) && ClientSetupOnly(st, HelloRead(st))
  {
  }

  lemma HelloIsLost(cfg: Config, st: State)
    requires Setup(cfg, st) && st.client.pc.CPollHello? && st.c.rcq != []
    ensures Setup(cfg, HelloFailed(st)) && ClientSetupOnly(st, HelloFailed(st))
  {
  }

  lemma ClientPostsTable(cfg: Config, st: State)
    requires Setup(cfg, st) && ClientEnabled(st) && st.client.pc.CPostTable?
    ensures var t := ConnectStep(cfg, st); Setup(cfg, t) && ClientSetupOnly(st, t)
  {
  }

  lemma ClientTakesTable(cfg: Config, st: State)
    requires Setup(cfg, st) && ClientEnabled(st) && st.client.pc.CPollTable?
    ensures var t := ConnectStep(cfg, st); Setup(cfg, t) && ClientSetupOnly(st, t)
  {
  }

  lemma ClientDecodes(cfg: Config, st: State)
    requires Setup(cfg, st) && ClientEnabled(st) && st.client.pc.CDecode?
    ensures var t := ConnectStep(cfg, st); Setup(cfg, t) && ClientSetupOnly(st, t)
  {
    TableReads(cfg, st.c.buf);
  }

  lemma ConnectSetup(cfg: Config, st: State)
    requires Setup(cfg, st) && ClientEnabled(st) && Connecting(st.client.pc)
    ensures var t := ConnectStep(cfg, st); Setup(cfg, t) && ClientSetupOnly(st, t)
  {
    match st.client.pc
    case CPostHello => ClientPostsHello(cfg, st);
    case CRequest => ClientRequests(cfg, st);
    case CWaitAccept => ClientIsAccepted(cfg, st);
    case CSendHello => ClientSendsHello(cfg, st);
    case CPollSent => ClientHelloIsSent(cfg, st);
    case CPollHello => ClientTakesHello(cfg, st);
    case CPostTable => ClientPostsTable(cfg, st);
    case CPollTable => ClientTakesTable(cfg, st);
    case CDecode(_) => ClientDecodes(cfg, st);
  }

  /** Outside a command, a step of the connection setup leaves the rest of the invariant alone. */
  lemma ClientSetupWorker(cfg: Config, st: State, t: State)
    requires Worker(cfg, st) && Connecting(st.client.pc) && ClientSetupOnly(st, t)
    ensures Worker(cfg, t)
  {
  }

  lemma ClientSetupWindow(cfg: Config, st: State, t: State)
    requires ClientWindow(cfg, st.cmds, st.client) && Connecting(st.client.pc) && ClientSetupOnly(st, t)
    ensures ClientWindow(cfg, t.cmds, t.client)
  {
  }

  lemma ConnectKeeps(cfg: Config, st: State)
    requires Core(cfg, st) && ClientEnabled(st) && Connecting(st.client.pc)
    ensures Core(cfg, ConnectStep(cfg, st))
  {
    ConnectSetup(cfg, st);
    ClientSetupWorker(cfg, st, ConnectStep(cfg, st));
    ClientSetupWindow(cfg, st, ConnectStep(cfg, st));
  }

  // ----- The server accepting

  /** What the server's steps have to keep beside the setup. */
  predicate Inbox(st: State) {
    Arrived(st.cmds, SignalAt(st.journal), st.server, st.s) && Recorded(st.server)
  }

  predicate ServerOnly(st: State, t: State) {
    t.c == st.c && t.client == st.client && t.cmds == st.cmds && t.journal == st.journal && t.pollFailed == st.pollFailed
    && t.s.mem == st.s.mem
  }

  predicate ServerSetupOnly(st: State, t: State) {
    ServerOnly(st, t)
    && t.server == st.server.(pc := t.server.pc, peer := t.server.peer)
    && (Accepting(t.server.pc) || t.server.pc == SPostRecv || t.server.pc == SHangup(false))
  }

  lemma ServerStarts(cfg: Config, st: State)
    requires Setup(cfg, st) && ServerEnabled(st) && st.server.pc.SListening?
    ensures var t := AcceptStep(cfg, st); Setup(cfg, t) && ServerSetupOnly(st, t)
  {
  }

  lemma ServerPostsHello(cfg: Config, st: State)
    requires Setup(cfg, st) && ServerEnabled(st) && st.server.pc.SPostHello?
    ensures var t := AcceptStep(cfg, st); Setup(cfg, t) && ServerSetupOnly(st, t)
  {
  }

  lemma ServerAccepts(cfg: Config, st: State)
    requires Setup(cfg, st) && ServerEnabled(st) && st.server.pc.SAccept?
    ensures var t := AcceptStep(cfg, st); Setup(cfg, t) && ServerSetupOnly(st, t)
  {
  }

  lemma ServerTakesHello(cfg: Config, st: State)
    requires Setup(cfg, st) && ServerEnabled(st) && st.server.pc.SPollHello?
    ensures var t := AcceptStep(cfg, st); Setup(cfg, t) && ServerSetupOnly(st, t)
  {
    GreetingTaken(cfg, st);
    if st.s.rcq[0].ok {
      GreetingIsKnown(cfg, st);
    } else {
      GreetingIsLost(cfg, st);
    }
  }

  function GreetingRead(st: State): State
    requires st.s.rcq != []
  {
    st.(s := PopReceived(st.s), server := st.server.(pc := SSendHello, peer := st.s.hello))
  }

  function GreetingFailed(st: State): State
    requires st.s.rcq != []
  {
    SetServer(st, SHangup(false)).(s := PopReceived(st.s))
  }

  lemma GreetingTaken(cfg: Config, st: State)
    requires st.server.pc.SPollHello? && st.s.rcq != []
    ensures AcceptStep(cfg, st) == if st.s.rcq[0].ok then GreetingRead(st) else GreetingFailed(st)
  {
  }

  lemma GreetingIsKnown(cfg: Config, st: State)
    requires Setup(cfg, st) && st.server.pc.SPollHello? && st.s.rcq != [] && st.s.rcq[0].ok
    ensures Setup(cfg, GreetingRead(st)) && ServerSetupOnly(st, GreetingRead(st))
  {
  }

  lemma GreetingIsLost(cfg: Config, st: State)
    requires Setup(cfg, st) && st.server.pc.SPollHello? && st.s.rcq != []
    ensures Setup(cfg, GreetingFailed(st)) && ServerSetupOnly(st, GreetingFailed(st))
  {
  }

  lemma ServerSendsHello(cfg: Config, st: State)
    requires Setup(cfg, st) && ServerEnabled(st) && st.server.pc.SSendHello?
    ensures var t := AcceptStep(cfg, st); Setup(cfg, t) && ServerSetupOnly(st, t)
  {
  }

  lemma ServerHelloIsSent(cfg: Config, st: State)
    requires Setup(cfg, st) && ServerEnabled(st) && st.server.pc.SPollSent?
    ensures var t := AcceptStep(cfg, st); Setup(cfg, t) && ServerSetupOnly(st, t)
  {
  }

  lemma ServerStages(cfg: Config, st: State)
    requires Setup(cfg, st) && ServerEnabled(st) && st.server.pc.SStage?
    ensures var t := AcceptStep(cfg, st); Setup(cfg, t) && ServerSetupOnly(st, t)
  {
    if TableFits(cfg) {
      StagesTable(cfg, st.s.buf);
    }
  }

  lemma ServerSendsTable(cfg: Config, st: State)
    requires Setup(cfg, st) && ServerEnabled(st) && st.server.pc.SPostTable?
    ensures var t := AcceptStep(cfg, st); Setup(cfg, t) && ServerSetupOnly(st, t)
  {
  }

  lemma ServerTableIsSent(cfg: Config, st: State)
    requires Setup(cfg, st) && ServerEnabled(st) && st.server.pc.SPollTable?
    ensures var t := AcceptStep(cfg, st); Setup(cfg, t) && ServerSetupOnly(st, t)
  {
  }

  lemma AcceptSetup(cfg: Config, st: State)
    requires Setup(cfg, st) && ServerEnabled(st) && Accepting(st.server.pc)
    ensures var t := AcceptStep(cfg, st); Setup(cfg, t) && ServerSetupOnly(st, t)
  {
    match st.server.pc
    case SListening => ServerStarts(cfg, st);
    case SPostHello => ServerPostsHello(cfg, st);
    case SAccept => ServerAccepts(cfg, st);
    case SPollHello => ServerTakesHello(cfg, st);
    case SSendHello => ServerSendsHello(cfg, st);
    case SPollSent => ServerHelloIsSent(cfg, st);
    case SStage => ServerStages(cfg, st);
    case SPostTable => ServerSendsTable(cfg, st);
    case SPollTable => ServerTableIsSent(cfg, st);
  }

  lemma ServerSetupInbox(cfg: Config, st: State, t: State)
    requires Inbox(st) && Accepting(st.server.pc) && ServerSetupOnly(st, t)
    ensures Inbox(t)
  {
    NothingYet(st.cmds, SignalAt(st.journal), st.server, st.s);
    StillNothing(st.cmds, t.server, t.s);
  }

  /** Nothing arrives in the loop before `accept` has returned. */
  lemma NothingYet(cmds: seq<Command>, signals: seq<nat>, server: Server, s: Node)
    requires Arrived(cmds, signals, server, s) && Recorded(server) && Accepting(server.pc)
    ensures signals == [] && server.returned == [] && server.recorded == []
  {
  }

  lemma StillNothing(cmds: seq<Command>, server: Server, s: Node)
    requires server.returned == [] && server.recorded == []
    requires Accepting(server.pc) || server.pc == SPostRecv || server.pc == SHangup(false)
    ensures Arrived(cmds, [], server, s) && Recorded(server)
  {
  }

  lemma AcceptKeeps(cfg: Config, st: State)
    requires Core(cfg, st) && ServerEnabled(st) && Accepting(st.server.pc)
    ensures Core(cfg, AcceptStep(cfg, st))
  {
    AcceptSetup(cfg, st);
    ServerSetupInbox(cfg, st, AcceptStep(cfg, st));
  }

  // ----- The server's notification loop

  lemma LoopPostsSetup(cfg: Config, st: State)
    requires Setup(cfg, st) && ServerEnabled(st) && st.server.pc.SPostRecv?
    ensures var t := LoopStep(st); Setup(cfg, t) && ServerOnly(st, t)
  {
  }

  /** A completed receive of the loop is a message or an error, so the step goes to decode or dies. */
  function PollPc(wc: WorkCompletion): ServerPc {
    if wc.ok then SDecode(wc.imm) else SDead
  }

  lemma PollingIsPop(st: State)
    requires ServerEnabled(st) && st.server.pc.SPollRecv? && Inbox(st)
    ensures LoopStep(st) == SetServer(st, PollPc(st.s.rcq[0])).(s := PopReceived(st.s))
  {
  }

  lemma LoopPollsSetup(cfg: Config, st: State)
    requires Setup(cfg, st) && ServerEnabled(st) && st.server.pc.SPollRecv?
    ensures var t := SetServer(st, PollPc(st.s.rcq[0])).(s := PopReceived(st.s));
            Setup(cfg, t) && ServerOnly(st, t)
  {
  }

  lemma LoopHandlesSetup(cfg: Config, st: State)
    requires Setup(cfg, st) && ServerEnabled(st) && st.server.pc.SHandle?
    ensures var t := LoopStep(st); Setup(cfg, t) && ServerOnly(st, t)
  {
  }

  lemma LoopLocksSetup(cfg: Config, st: State)
    requires Setup(cfg, st) && ServerEnabled(st) && st.server.pc.SLock?
    ensures var t := LoopStep(st); Setup(cfg, t) && ServerOnly(st, t)
  {
  }

  lemma LoopAddsSetup(cfg: Config, st: State)
    requires Setup(cfg, st) && ServerEnabled(st) && st.server.pc.SAdd?
    ensures var t := LoopStep(st); Setup(cfg, t) && ServerOnly(st, t)
  {
  }

  lemma LoopEvictsSetup(cfg: Config, st: State)
    requires Setup(cfg, st) && ServerEnabled(st) && st.server.pc.SEvict?
    ensures var t := LoopStep(st); Setup(cfg, t) && ServerOnly(st, t)
  {
  }

  lemma LoopHangsUpSetup(cfg: Config, st: State)
    requires Setup(cfg, st) && ServerEnabled(st) && st.server.pc.SHangup?
    ensures var t := LoopStep(st); Setup(cfg, t) && ServerOnly(st, t)
  {
  }

  lemma NothingReceived(st: State)
    requires ServerQueues(st.s, st.server.pc, st.accepted) && st.server.pc.SPostRecv?
    ensures st.s.rcq == []
  {
  }

  lemma LoopPosts(st: State)
    requires Inbox(st) && st.s.rcq == [] && st.server.pc.SPostRecv?
    ensures Inbox(LoopStep(st))
  {
  }

  predicate Ends(pc: ServerPc) {
    pc == SHangup(true) || pc == SClosed(true)
  }

  /** A move that neither takes up a notification nor puts one away leaves the record as it is. */
  lemma StillRecorded(server: Server, pc: ServerPc)
    requires Recorded(server) && !Unrecorded(server.pc) && !Unrecorded(pc) && (Ends(server.pc) <==> Ends(pc))
    requires ServerPhase(pc) >= 9 || server.returned == []
    ensures Recorded(server.(pc := pc))
  {
  }

  lemma LoopPolls(st: State)
    requires Inbox(st) && ServerEnabled(st) && st.server.pc.SPollRecv?
    ensures Inbox(SetServer(st, PollPc(st.s.rcq[0])).(s := PopReceived(st.s)))
  {
    StillRecorded(st.server, PollPc(st.s.rcq[0]));
    PollArrived(st.cmds, SignalAt(st.journal), st.server, st.s);
  }

  lemma PollArrived(cmds: seq<Command>, signals: seq<nat>, server: Server, s: Node)
    requires Arrived(cmds, signals, server, s) && server.pc.SPollRecv? && s.rcq != []
    ensures Arrived(cmds, signals, server.(pc := PollPc(s.rcq[0])), PopReceived(s))
  {
  }

  lemma ReturnSetup(cfg: Config, st: State, n: Notification)
    requires Setup(cfg, st) && st.server.pc.SDecode?
    ensures Setup(cfg, Return(st, n)) && ServerOnly(st, Return(st, n))
  {
  }

  lemma ReturnInbox(st: State, cmd: Command)
    requires Inbox(st) && st.server.pc.SDecode? && cmd == st.cmds[SignalAt(st.journal)[|st.server.returned|]]
    ensures Inbox(Return(st, NoteOf(cmd)))
  {
    ReturnArrived(st.cmds, SignalAt(st.journal), st.server, st.s, Return(st, NoteOf(cmd)).server);
    ReturnRecorded(st.server, NoteOf(cmd));
  }

  lemma ReturnArrived(cmds: seq<Command>, signals: seq<nat>, server: Server, s: Node, next: Server)
    requires Arrived(cmds, signals, server, s) && server.pc.SDecode? && next.pc.SHandle?
    requires next.returned == server.returned + [NoteOf(cmds[signals[|server.returned|]])]
    ensures Arrived(cmds, signals, next, s)
  {
  }

  lemma ReturnRecorded(server: Server, n: Notification)
    requires Recorded(server) && server.pc.SDecode?
    ensures Recorded(server.(pc := SHandle, note := n, returned := server.returned + [n]))
  {
    var r := server.returned + [n];
    assert r[..|r| - 1] == server.returned;
  }

  /** Decoding an arrived message yields it. */
  lemma DecodesArrived(cmd: Command, st: State)
    requires st.server.pc.SDecode? && Readable(cmd, st.server.pc, st.s)
    ensures LoopStep(st) == Return(st, NoteOf(cmd))
  {
    NoteReads(cmd, st.s.buf);
  }

  lemma LoopDecodes(cfg: Config, st: State)
    requires Setup(cfg, st) && Inbox(st) && st.server.pc.SDecode?
    ensures Setup(cfg, LoopStep(st)) && Inbox(LoopStep(st)) && ServerOnly(st, LoopStep(st))
  {
    var cmd := st.cmds[SignalAt(st.journal)[|st.server.returned|]];
    DecodesArrived(cmd, st);
    ReturnSetup(cfg, st, NoteOf(cmd));
    ReturnInbox(st, cmd);
  }

  lemma LoopHandles(st: State)
    requires Inbox(st) && ServerEnabled(st) && st.server.pc.SHandle?
    ensures Inbox(LoopStep(st))
  {
  }

  lemma LoopLocks(st: State)
    requires Inbox(st) && ServerEnabled(st) && st.server.pc.SLock?
    ensures Inbox(LoopStep(st))
  {
  }

  lemma LoopAdds(st: State)
    requires Inbox(st) && ServerEnabled(st) && st.server.pc.SAdd?
    ensures Inbox(LoopStep(st))
  {
    AddsRecorded(st.server);
    AddingIs(st);
    assert st.server.returned[..|st.server.returned|] == st.server.returned;
  }

  function Added(server: Server): Server
    requires server.note.reqId.Some?
  {
    server.(pc := SEvict, recorded := server.recorded + [server.note.reqId.value])
  }

  lemma AddingIs(st: State)
    requires st.server.pc.SAdd? && st.server.note.reqId.Some?
    ensures LoopStep(st) == st.(server := Added(st.server))
  {
  }

  lemma AddsRecorded(server: Server)
    requires Recorded(server) && server.pc.SAdd?
    ensures server.note.reqId.Some? && Recorded(Added(server))
  {
  }

  lemma LoopEvicts(st: State)
    requires Inbox(st) && ServerEnabled(st) && st.server.pc.SEvict?
    ensures Inbox(LoopStep(st))
  {
  }

  lemma LoopHangsUp(st: State)
    requires Inbox(st) && ServerEnabled(st) && st.server.pc.SHangup?
    ensures Inbox(LoopStep(st))
  {
  }

  lemma LoopKeeps(cfg: Config, st: State)
    requires Core(cfg, st) && ServerEnabled(st) && !Accepting(st.server.pc)
    ensures Core(cfg, LoopStep(st))
  {
    match st.server.pc
    case SPostRecv => LoopPostsSetup(cfg, st); NothingReceived(st); LoopPosts(st);
    case SPollRecv => PollingIsPop(st); LoopPollsSetup(cfg, st); LoopPolls(st);
    case SHandle => LoopHandlesSetup(cfg, st); LoopHandles(st);
    case SLock => LoopLocksSetup(cfg, st); LoopLocks(st);
    case SAdd => LoopAddsSetup(cfg, st); LoopAdds(st);
    case SEvict => LoopEvictsSetup(cfg, st); LoopEvicts(st);
    case SHangup(_) => LoopHangsUpSetup(cfg, st); LoopHangsUp(st);
    case SDecode(_) => LoopDecodes(cfg, st);
  }

  // ----- The worker

  /** A worker step touches neither the server nor the memories. */
  predicate ClientOnly(st: State, t: State) {
    t.s == st.s && t.server == st.server && t.cmds == st.cmds && t.journal == st.journal && t.pollFailed == st.pollFailed
    && t.c.mem == st.c.mem
  }

  lemma CompletedIdsNext(cmds: seq<Command>, k: nat)
    requires k < |cmds|
    ensures CompletedIds(cmds[..k + 1]) == CompletedIds(cmds[..k]) + if cmds[k].Complete? then [cmds[k].reqId] else []
  {
    assert cmds[..k + 1][..k] == cmds[..k];
  }

  lemma LandedNext(outs: seq<Outcome>, o: Outcome)
    ensures LandedAt(outs + [o]) == LandedAt(outs) + if Landed(o) then [|outs|] else []
  {
    assert (outs + [o])[..|outs|] == outs;
  }

  lemma StickyNext(outs: seq<Outcome>, o: Outcome)
    requires Sticky(outs) && (NoFailure(outs) || !Landed(o))
    ensures Sticky(outs + [o])
  {
  }

  lemma {:induction false} RoundsOverNext(w: Window, h: seq<ReqId>, more: seq<ReqId>)
    requires |more| <= 1
    ensures Rounds(w, h + more) == if more == [] then Rounds(w, h) else Round(Rounds(w, h), more[0])
  {
    if more == [] {
      assert h + more == h;
    } else {
      assert h + more == h + [more[0]];
      RoundsAppend(w, h, more[0]);
    }
  }

  /** The window once the current command is finished. */
  lemma WindowNext(cap: nat, cmds: seq<Command>, k: nat)
    requires k < |cmds|
    ensures var before := Rounds(New(cap), CompletedIds(cmds[..k]));
            Rounds(New(cap), CompletedIds(cmds[..k + 1])) == if cmds[k].Complete? then Round(before, cmds[k].reqId) else before
  {
    CompletedIdsNext(cmds, k);
    RoundsOverNext(New(cap), CompletedIds(cmds[..k]), if cmds[k].Complete? then [cmds[k].reqId] else []);
  }

  // Finishing a command: from the skip, from the poll, from a refused post.

  predicate Finishing(pc: ClientPc) {
    pc.CNext? || pc.CPost? || pc.CPoll?
  }

  /** The send queue of the client once nothing is outstanding. */
  function Drained(c: Node): Node {
    c.(sq := [], scq := [])
  }

  /** Where the worker goes when a command ends. `Disconnect` stops the loop: before the hang-up if it
      went well, dead if not. */
  function EndPc(cmd: Command, o: Outcome): ClientPc {
    if !cmd.Disconnect? then CNext else if o.Ok? then CHangup else CDead
  }

  function Ended(client: Client, cmd: Command, o: Outcome): Client {
    client.(pc := EndPc(cmd, o), k := client.k + 1, outs := client.outs + [o], locked := false)
  }

  /** The state after the current command ended with `o`. */
  function Over(st: State, o: Outcome): State
    requires st.client.k < |st.cmds|
  {
    st.(c := Drained(st.c), client := Ended(st.client, st.cmds[st.client.k], o))
  }

  lemma OverSetup(cfg: Config, st: State, o: Outcome)
    requires Setup(cfg, st) && Finishing(st.client.pc) && st.client.k < |st.cmds|
    ensures Setup(cfg, Over(st, o))
  {
  }

  lemma EndedOutcomes(cmds: seq<Command>, client: Client, o: Outcome)
    requires Outcomes(cmds, client) && Finishing(client.pc) && client.k < |cmds|
    requires o.Skipped? <==> !Message(cmds[client.k]) && !Transfer(cmds[client.k])
    requires NoFailure(client.outs) || !Landed(o)
    ensures Outcomes(cmds, Ended(client, cmds[client.k], o))
  {
    StickyNext(client.outs, o);
    var outs := client.outs + [o];
    assert forall i :: 0 <= i < client.k ==> outs[i] == client.outs[i];
  }

  /** What the journal and the queue pair say about an outcome. */
  predicate Fits(st: State, o: Outcome)
    requires st.client.k < |st.cmds|
  {
    var cmd := st.cmds[st.client.k];
    (o.Skipped? <==> !Message(cmd) && !Transfer(cmd))
    && (NoFailure(st.client.outs) || (st.c.err && !Landed(o)))
    && (o.Failed? ==> st.c.err)
    && OwnAt(st.journal) == LandedAt(st.client.outs) + if Landed(o) then [st.client.k] else []
  }

  lemma OverWorker(cfg: Config, st: State, o: Outcome)
    requires st.client.k < |st.cmds| && Fits(st, o) && |st.client.outs| == st.client.k
    requires Outcomes(st.cmds, Ended(st.client, st.cmds[st.client.k], o))
    ensures Worker(cfg, Over(st, o))
  {
    LandedNext(st.client.outs, o);
  }

  lemma EndedWindow(cfg: Config, cmds: seq<Command>, client: Client, o: Outcome)
    requires ClientWindow(cfg, cmds, client) && Finishing(client.pc) && client.k < |cmds|
    requires client.pc.CNext? ==> !cmds[client.k].Complete?
    ensures ClientWindow(cfg, cmds, Ended(client, cmds[client.k], o))
  {
    WindowNext(cfg.cap, cmds, client.k);
  }

  lemma OverKeeps(cfg: Config, st: State, o: Outcome)
    requires Core(cfg, st) && Finishing(st.client.pc) && st.client.k < |st.cmds| && Fits(st, o)
    requires st.client.pc.CNext? ==> !st.cmds[st.client.k].Complete?
    ensures Core(cfg, Over(st, o))
  {
    OverSetup(cfg, st, o);
    EndedOutcomes(st.cmds, st.client, o);
    OverWorker(cfg, st, o);
    EndedWindow(cfg, st.cmds, st.client, o);
  }

  // Taking a command.

  /** The next command is a message: it is serialised, and the worker goes on or dies. */
  function Staged(st: State, pc: ClientPc): State
    requires st.client.k < |st.cmds|
  {
    SetClient(st.(c := st.c.(buf := Overlay(st.c.buf, EncodeNotification(NoteOf(st.cmds[st.client.k]))))), pc)
  }

  lemma StagedSetup(cfg: Config, st: State, pc: ClientPc)
    requires Setup(cfg, st) && st.client.k < |st.cmds| && st.client.pc.CNext? && (pc.CLock? || pc.CPost? || pc.CDead?)
    ensures Setup(cfg, Staged(st, pc))
  {
  }

  lemma StagedWorker(cfg: Config, st: State, pc: ClientPc)
    requires Worker(cfg, st) && st.client.k < |st.cmds| && st.client.pc.CNext? && Message(st.cmds[st.client.k])
    requires |st.c.buf| == CPU_BUFFER_BASE_SIZE
    requires pc == CDead || (pc == (if st.cmds[st.client.k].Complete? then CLock else CPost) && FitsBuffer(st.cmds[st.client.k]))
    ensures Worker(cfg, Staged(st, pc))
  {
    if FitsBuffer(st.cmds[st.client.k]) {
      StagesNote(st.cmds[st.client.k], st.c.buf);
    }
  }

  lemma StagedWindow(cfg: Config, st: State, pc: ClientPc)
    requires ClientWindow(cfg, st.cmds, st.client) && st.client.k < |st.cmds| && st.client.pc.CNext?
    requires pc == CDead || pc == (if st.cmds[st.client.k].Complete? then CLock else CPost)
    ensures ClientWindow(cfg, st.cmds, Staged(st, pc).client)
  {
  }

  function MessagePc(cmd: Command): ClientPc {
    if cmd.Disconnect? then CPost else if FitsBuffer(cmd) then CLock else CDead
  }

  lemma TakingIsStaging(cfg: Config, st: State)
    requires ClientEnabled(st) && st.client.pc.CNext? && Message(st.cmds[st.client.k]) && |st.c.buf| == CPU_BUFFER_BASE_SIZE
    ensures WorkerStep(cfg, st) == Staged(st, MessagePc(st.cmds[st.client.k]))
  {
  }

  lemma TakesMessage(cfg: Config, st: State)
    requires st.client.pc.CNext? && st.client.k < |st.cmds| && Core(cfg, st) && Message(st.cmds[st.client.k])
    ensures Core(cfg, WorkerStep(cfg, st))
  {
    var pc := MessagePc(st.cmds[st.client.k]);
    StagedSetup(cfg, st, pc);
    StagedWorker(cfg, st, pc);
    StagedWindow(cfg, st, pc);
    TakingIsStaging(cfg, st);
  }

  /** Steps of the worker that only move its program counter. */
  lemma MovesSetup(cfg: Config, st: State, pc: ClientPc)
    requires Setup(cfg, st) && ClientPhase(st.client.pc) == 9 && !st.client.pc.CPoll?
    requires !pc.CPoll? && ClientPhase(pc) >= 9
    ensures Setup(cfg, SetClient(st, pc))
  {
  }

  lemma MovesWorker(cfg: Config, st: State, pc: ClientPc)
    requires Worker(cfg, st) && st.client.pc.CNext? && st.client.k < |st.cmds| && Transfer(st.cmds[st.client.k])
    requires pc == CDead || (pc == CPost && Resolvable(cfg, st.cmds[st.client.k]))
    ensures Worker(cfg, SetClient(st, pc))
  {
    MovesOutcomes(st.cmds, st.client, pc);
  }

  lemma MovesOutcomes(cmds: seq<Command>, client: Client, pc: ClientPc)
    requires Outcomes(cmds, client) && client.pc.CNext? && (pc == CDead || pc == CPost)
    ensures Outcomes(cmds, client.(pc := pc))
  {
  }

  lemma MovesWindow(cfg: Config, st: State, pc: ClientPc)
    requires ClientWindow(cfg, st.cmds, st.client) && st.client.pc.CNext? && st.client.k < |st.cmds|
    requires !st.cmds[st.client.k].Complete? && (pc == CDead || pc == CPost)
    ensures ClientWindow(cfg, st.cmds, SetClient(st, pc).client)
  {
  }

  lemma KnowsRemote(cfg: Config, st: State)
    requires Setup(cfg, st) && ClientPhase(st.client.pc) == 9
    ensures st.client.remote == RemoteOf(cfg.serverBufs) && st.client.peer == cfg.serverCpu
  {
  }

  function TransferPc(cfg: Config, cmd: Command): ClientPc
    requires Moving(cmd)
  {
    if Resolvable(cfg, cmd) then CPost else CDead
  }

  lemma TakingIsMoving(cfg: Config, st: State)
    requires ClientEnabled(st) && st.client.pc.CNext? && Transfer(st.cmds[st.client.k])
    requires st.client.remote == RemoteOf(cfg.serverBufs)
    ensures WorkerStep(cfg, st) == SetClient(st, TransferPc(cfg, st.cmds[st.client.k]))
  {
  }

  lemma TakesTransfer(cfg: Config, st: State)
    requires st.client.pc.CNext? && st.client.k < |st.cmds| && Core(cfg, st) && Transfer(st.cmds[st.client.k])
    ensures Core(cfg, WorkerStep(cfg, st))
  {
    KnowsRemote(cfg, st);
    TakingIsMoving(cfg, st);
    MovesKeeps(cfg, st, TransferPc(cfg, st.cmds[st.client.k]));
  }

  lemma MovesKeeps(cfg: Config, st: State, pc: ClientPc)
    requires st.client.pc.CNext? && st.client.k < |st.cmds| && Transfer(st.cmds[st.client.k])
    requires pc == CDead || (pc == CPost && Resolvable(cfg, st.cmds[st.client.k]))
    requires Core(cfg, st)
    ensures Core(cfg, SetClient(st, pc))
  {
    MovesClient(cfg, st, pc);
    ClientKeeps(cfg, st, SetClient(st, pc));
  }

  lemma MovesClient(cfg: Config, st: State, pc: ClientPc)
    requires st.client.pc.CNext? && st.client.k < |st.cmds| && Transfer(st.cmds[st.client.k])
    requires pc == CDead || (pc == CPost && Resolvable(cfg, st.cmds[st.client.k]))
    requires Setup(cfg, st) && Worker(cfg, st) && ClientWindow(cfg, st.cmds, st.client)
    ensures var t := SetClient(st, pc);
            ClientOnly(st, t) && Setup(cfg, t) && Worker(cfg, t) && ClientWindow(cfg, t.cmds, t.client)
  {
    MovesSetup(cfg, st, pc);
    MovesWorker(cfg, st, pc);
    MovesWindow(cfg, st, pc);
  }

  /** A step of the client leaves the server's part of the invariant alone. */
  lemma ClientKeeps(cfg: Config, st: State, t: State)
    requires Core(cfg, st) && ClientOnly(st, t)
    requires Setup(cfg, t) && Worker(cfg, t) && ClientWindow(cfg, t.cmds, t.client)
    ensures Core(cfg, t)
  {
  }

  lemma SkippingIsOver(cfg: Config, st: State)
    requires ClientEnabled(st) && st.client.pc.CNext? && Moving(st.cmds[st.client.k]) && !Transfer(st.cmds[st.client.k])
    requires st.c.sq == [] && st.c.scq == []
    ensures WorkerStep(cfg, st) == Over(st, Skipped)
  {
  }

  lemma SkipFits(cfg: Config, st: State)
    requires Worker(cfg, st) && st.client.pc.CNext? && st.client.k < |st.cmds|
    requires Moving(st.cmds[st.client.k]) && !Transfer(st.cmds[st.client.k])
    ensures Fits(st, Skipped)
  {
  }

  lemma SkipsTransfer(cfg: Config, st: State)
    requires st.client.pc.CNext? && st.client.k < |st.cmds| && Core(cfg, st)
    requires Moving(st.cmds[st.client.k]) && !Transfer(st.cmds[st.client.k])
    ensures Core(cfg, WorkerStep(cfg, st))
  {
    SkipFits(cfg, st);
    OverKeeps(cfg, st, Skipped);
    SkippingIsOver(cfg, st);
  }

  // The steps of `Complete` and the hang-up.

  /** A step between taking a command and posting it. */
  lemma WindowSteps(cfg: Config, st: State)
    requires ClientWindow(cfg, st.cmds, st.client) && Worker(cfg, st) && ClientEnabled(st)
    requires st.client.pc.CLock? || st.client.pc.CAdd? || st.client.pc.CEvict?
    ensures ClientWindow(cfg, st.cmds, WorkerStep(cfg, st).client)
  {
  }

  lemma WindowStepsWorker(cfg: Config, st: State)
    requires Worker(cfg, st) && ClientEnabled(st)
    requires st.client.pc.CLock? || st.client.pc.CAdd? || st.client.pc.CEvict?
    ensures Worker(cfg, WorkerStep(cfg, st)) && ClientOnly(st, WorkerStep(cfg, st))
  {
    assert Current(cfg, st.cmds, st.client, st.c.buf);
    WindowOnlyStep(cfg, st);
    WindowOnlyWorker(cfg, st, WorkerStep(cfg, st));
  }

  /** From `st` to `t` the worker goes on towards its post, and only the window may change. */
  predicate WindowOnly(st: State, t: State) {
    t == st.(client := st.client.(pc := t.client.pc, win := t.client.win, locked := t.client.locked))
    && (t.client.pc.CAdd? || t.client.pc.CEvict? || t.client.pc.CPost?)
  }

  lemma WindowOnlyStep(cfg: Config, st: State)
    requires ClientEnabled(st) && (st.client.pc.CLock? || st.client.pc.CAdd? || st.client.pc.CEvict?)
    requires st.client.k < |st.cmds| && st.cmds[st.client.k].Complete?
    ensures WindowOnly(st, WorkerStep(cfg, st))
  {
  }

  lemma WindowOnlyWorker(cfg: Config, st: State, t: State)
    requires Worker(cfg, st) && WindowOnly(st, t) && (st.client.pc.CLock? || st.client.pc.CAdd? || st.client.pc.CEvict?)
    ensures Worker(cfg, t)
  {
  }

  lemma WindowStepsSetup(cfg: Config, st: State)
    requires Setup(cfg, st) && ClientEnabled(st)
    requires st.client.pc.CLock? || st.client.pc.CAdd? || st.client.pc.CEvict?
    ensures Setup(cfg, WorkerStep(cfg, st))
  {
  }

  lemma HangsUpSetup(cfg: Config, st: State)
    requires Setup(cfg, st) && st.client.pc.CHangup?
    ensures Setup(cfg, WorkerStep(cfg, st)) && ClientOnly(st, WorkerStep(cfg, st))
  {
  }

  lemma HangsUpWorker(cfg: Config, st: State)
    requires Worker(cfg, st) && ClientWindow(cfg, st.cmds, st.client) && st.client.pc.CHangup?
    ensures Worker(cfg, WorkerStep(cfg, st)) && ClientWindow(cfg, st.cmds, WorkerStep(cfg, st).client)
  {
    HangupIs(cfg, st);
    HungUpWorker(cfg, st);
  }

  function HungUp(st: State): State {
    st.(c := st.c.(err := true), client := st.client.(pc := CDone))
  }

  lemma HangupIs(cfg: Config, st: State)
    requires st.client.pc.CHangup?
    ensures WorkerStep(cfg, st) == HungUp(st)
  {
  }

  lemma HungUpWorker(cfg: Config, st: State)
    requires Worker(cfg, st) && ClientWindow(cfg, st.cmds, st.client) && st.client.pc.CHangup?
    ensures Worker(cfg, HungUp(st)) && ClientWindow(cfg, st.cmds, HungUp(st).client)
  {
  }

  // Posting and polling.

  lemma PostsSetup(cfg: Config, st: State, wr: WorkRequest)
    requires Setup(cfg, st) && st.client.pc.CPost?
    ensures Setup(cfg, SetClient(st, CPoll).(c := PostSend(st.c, wr, st.client.k, |st.journal|)))
  {
  }

  lemma PostsWorker(cfg: Config, st: State)
    requires Worker(cfg, st) && st.client.pc.CPost? && st.client.k < |st.cmds| && st.c.sq == [] && st.c.scq == []
    requires Moving(st.cmds[st.client.k]) ==> Resolvable(cfg, st.cmds[st.client.k])
    ensures var wr := RequestFor(cfg, cfg.serverCpu, RemoteOf(cfg.serverBufs), st.cmds[st.client.k]);
            Worker(cfg, SetClient(st, CPoll).(c := PostSend(st.c, wr, st.client.k, |st.journal|)))
  {
  }

  lemma PostingIsPost(cfg: Config, st: State)
    requires ClientEnabled(st) && st.client.pc.CPost?
    requires Moving(st.cmds[st.client.k]) ==> Resolvable(cfg, st.cmds[st.client.k])
    requires st.client.remote == RemoteOf(cfg.serverBufs) && st.client.peer == cfg.serverCpu
    ensures var wr := RequestFor(cfg, cfg.serverCpu, RemoteOf(cfg.serverBufs), st.cmds[st.client.k]);
            WorkerStep(cfg, st) == SetClient(st, CPoll).(c := PostSend(st.c, wr, st.client.k, |st.journal|))
  {
  }

  lemma PostsWindow(cfg: Config, cmds: seq<Command>, client: Client)
    requires ClientWindow(cfg, cmds, client) && client.pc.CPost?
    ensures ClientWindow(cfg, cmds, client.(pc := CPoll))
  {
  }

  lemma WorkerPosts(cfg: Config, st: State)
    requires Core(cfg, st) && ClientEnabled(st) && st.client.pc.CPost?
    ensures Core(cfg, WorkerStep(cfg, st))
  {
    PostsClient(cfg, st);
    ClientKeeps(cfg, st, WorkerStep(cfg, st));
  }

  lemma PostsClient(cfg: Config, st: State)
    requires Setup(cfg, st) && Worker(cfg, st) && ClientWindow(cfg, st.cmds, st.client)
    requires ClientEnabled(st) && st.client.pc.CPost?
    ensures var t := WorkerStep(cfg, st);
            ClientOnly(st, t) && Setup(cfg, t) && Worker(cfg, t) && ClientWindow(cfg, t.cmds, t.client)
  {
    KnowsRemote(cfg, st);
    KnowsCommand(cfg, st);
    PostingIsPost(cfg, st);
    PostsSetup(cfg, st, RequestFor(cfg, cfg.serverCpu, RemoteOf(cfg.serverBufs), st.cmds[st.client.k]));
    PostsWorker(cfg, st);
    PostsWindow(cfg, st.cmds, st.client);
  }

  /** A command that is about to be posted can be looked up, and nothing is outstanding. */
  lemma KnowsCommand(cfg: Config, st: State)
    requires Current(cfg, st.cmds, st.client, st.c.buf) && ClientQueues(st.c, st.client.pc) && st.client.pc.CPost?
    ensures st.client.k < |st.cmds| && st.c.sq == [] && st.c.scq == []
    ensures Moving(st.cmds[st.client.k]) ==> Resolvable(cfg, st.cmds[st.client.k])
  {
  }

  function PollOutcome(wc: WorkCompletion): Outcome {
    if wc.ok then Ok else Failed(wc.landed)
  }

  lemma PollingIsOver(cfg: Config, st: State)
    requires ClientEnabled(st) && st.client.pc.CPoll? && SendQueues(st.c, true)
    ensures WorkerStep(cfg, st) == Over(st, PollOutcome(st.c.scq[0]))
  {
  }

  lemma PollFits(cfg: Config, st: State)
    requires Worker(cfg, st) && st.client.pc.CPoll? && SendQueues(st.c, true) && st.c.scq != []
    ensures st.client.k < |st.cmds| && Fits(st, PollOutcome(st.c.scq[0]))
  {
  }

  lemma WorkerPolls(cfg: Config, st: State)
    requires Core(cfg, st) && ClientEnabled(st) && st.client.pc.CPoll?
    ensures Core(cfg, WorkerStep(cfg, st))
  {
    PollFits(cfg, st);
    OverKeeps(cfg, st, PollOutcome(st.c.scq[0]));
    PollingIsOver(cfg, st);
  }

  lemma TakesKeeps(cfg: Config, st: State)
    requires st.client.pc.CNext? && st.client.k < |st.cmds| && Core(cfg, st)
    ensures Core(cfg, WorkerStep(cfg, st))
  {
    var cmd := st.cmds[st.client.k];
    if Message(cmd) {
      TakesMessage(cfg, st);
    } else if Transfer(cmd) {
      TakesTransfer(cfg, st);
    } else {
      SkipsTransfer(cfg, st);
    }
  }

  lemma WindowKeeps(cfg: Config, st: State)
    requires Core(cfg, st) && ClientEnabled(st) && (st.client.pc.CLock? || st.client.pc.CAdd? || st.client.pc.CEvict?)
    ensures Core(cfg, WorkerStep(cfg, st))
  {
    WindowStepsSetup(cfg, st);
    WindowStepsWorker(cfg, st);
    WindowSteps(cfg, st);
  }

  lemma HangupKeeps(cfg: Config, st: State)
    requires Core(cfg, st) && st.client.pc.CHangup?
    ensures Core(cfg, WorkerStep(cfg, st))
  {
    HangsUpSetup(cfg, st);
    HangsUpWorker(cfg, st);
  }

  lemma WorkerKeeps(cfg: Config, st: State)
    requires Core(cfg, st) && ClientEnabled(st) && !Connecting(st.client.pc)
    ensures Core(cfg, WorkerStep(cfg, st))
  {
    if st.client.pc.CNext? {
      TakesKeeps(cfg, st);
    } else if st.client.pc.CPost? {
      WorkerPosts(cfg, st);
    } else if st.client.pc.CPoll? {
      WorkerPolls(cfg, st);
    } else if st.client.pc.CHangup? {
      HangupKeeps(cfg, st);
    } else {
      WindowKeeps(cfg, st);
    }
  }

  // ----- Refused calls

  lemma ClientRefusedSetup(cfg: Config, st: State)
    requires Core(cfg, st) && ClientRefusable(st) && !st.client.pc.CPost?
    ensures Core(cfg, ClientRefused(st))
  {
    RefusedSetup(cfg, st);
    RefusedWorker(cfg, st);
    ClientKeeps(cfg, st, SetClient(st, CDead));
  }

  lemma RefusedSetup(cfg: Config, st: State)
    requires Setup(cfg, st) && ClientRefusable(st) && !st.client.pc.CPost?
    ensures ClientRefused(st) == SetClient(st, CDead) && Setup(cfg, SetClient(st, CDead))
  {
  }

  lemma RefusedWorker(cfg: Config, st: State)
    requires Worker(cfg, st) && ClientWindow(cfg, st.cmds, st.client) && ClientRefusable(st) && !st.client.pc.CPost?
    ensures var t := SetClient(st, CDead); Worker(cfg, t) && ClientWindow(cfg, t.cmds, t.client) && ClientOnly(st, t)
  {
  }

  lemma RefusedFits(cfg: Config, st: State)
    requires Worker(cfg, st) && st.client.pc.CPost?
    ensures st.client.k < |st.cmds| && Fits(st, Refused)
  {
  }

  lemma PostRefused(cfg: Config, st: State)
    requires Core(cfg, st) && ClientRefusable(st) && st.client.pc.CPost?
    ensures Core(cfg, ClientRefused(st))
  {
    RefusedFits(cfg, st);
    OverKeeps(cfg, st, Refused);
    assert st.c == Drained(st.c);
    assert ClientRefused(st) == Over(st, Refused);
  }

  lemma ServerRefusedSetup(cfg: Config, st: State)
    requires Setup(cfg, st) && ServerRefusable(st)
    ensures Setup(cfg, ServerRefused(st))
  {
  }

  lemma ServerRefusedInbox(st: State)
    requires Inbox(st) && ServerRefusable(st)
    ensures Inbox(ServerRefused(st))
  {
  }

  lemma RefusedKeeps(cfg: Config, st: State)
    requires Core(cfg, st)
    ensures ClientRefusable(st) ==> Core(cfg, ClientRefused(st))
    ensures ServerRefusable(st) ==> Core(cfg, ServerRefused(st))
  {
    if ClientRefusable(st) {
      if st.client.pc.CPost? { PostRefused(cfg, st); } else { ClientRefusedSetup(cfg, st); }
    }
    if ServerRefusable(st) {
      ServerRefusedSetup(cfg, st);
      ServerRefusedInbox(st);
    }
  }
}
