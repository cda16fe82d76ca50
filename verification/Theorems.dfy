/** What every run of one connection guarantees. */
module Theorems {
  import opened Wrappers
  import opened Codec
  import opened MemBuffers
  import opened Registration
  import opened Commands
  import opened Journal
  import opened Protocol
  import opened Invariant
  import opened Preservation
  import opened FabricPreservation
  import opened Shadows

  // ----- Queues and opcodes

  /** Each side has at most one send and one receive outstanding, polled completions included, and a
      completion the worker can poll belongs to the command it is working on. */
  lemma QueueBounds(cfg: Config, st: State)
    requires Sound(cfg, st)
    ensures |st.c.sq| + |st.c.scq| <= 1 && |st.c.rq| + |st.c.rcq| <= 1
    ensures |st.s.sq| + |st.s.scq| <= 1 && |st.s.rq| + |st.s.rcq| <= 1
    ensures st.client.pc.CPoll? && st.c.scq != [] ==> st.c.scq[0].at == st.client.k
  {
    var u := ReachableInv(cfg, st);
    BoundsOfSetup(cfg, u);
    OwnCompletion(cfg, u);
  }

  lemma BoundsOfSetup(cfg: Config, st: State)
    requires Setup(cfg, st)
    ensures |st.c.sq| + |st.c.scq| <= 1 && |st.c.rq| + |st.c.rcq| <= 1
    ensures |st.s.sq| + |st.s.scq| <= 1 && |st.s.rq| + |st.s.rcq| <= 1
  {
  }

  lemma OwnCompletion(cfg: Config, st: State)
    requires Worker(cfg, st)
    ensures st.client.pc.CPoll? && st.c.scq != [] ==> st.c.scq[0].at == st.client.k
  {
  }

  /** The first receive of each side completes with a SEND and every later one with an immediate, so
      neither the opcode error of `connect` nor the default notification is ever reached. */
  lemma OpcodesExpected(cfg: Config, st: State)
    requires Sound(cfg, st)
    ensures st.client.pc.CPollHello? && st.c.rcq != [] && st.c.rcq[0].ok ==> st.c.rcq[0].op == OpRecv
    ensures st.server.pc.SPollHello? && st.s.rcq != [] && st.s.rcq[0].ok ==> st.s.rcq[0].op == OpRecv
    ensures st.client.pc.CPollTable? && st.c.rcq != [] && st.c.rcq[0].ok ==> st.c.rcq[0].op == OpRecvImm
    ensures st.server.pc.SPollRecv? && st.s.rcq != [] && st.s.rcq[0].ok ==> st.s.rcq[0].op == OpRecvImm
  {
    var u := ReachableInv(cfg, st);
    FirstOpcodes(cfg, u);
    LoopOpcodes(u.cmds, SignalAt(u.journal), u.server, u.s);
  }

  lemma FirstOpcodes(cfg: Config, st: State)
    requires Setup(cfg, st)
    ensures st.client.pc.CPollHello? && st.c.rcq != [] && st.c.rcq[0].ok ==> st.c.rcq[0].op == OpRecv
    ensures st.server.pc.SPollHello? && st.s.rcq != [] && st.s.rcq[0].ok ==> st.s.rcq[0].op == OpRecv
    ensures st.client.pc.CPollTable? && st.c.rcq != [] && st.c.rcq[0].ok ==> st.c.rcq[0].op == OpRecvImm
  {
  }

  lemma LoopOpcodes(cmds: seq<Command>, signals: seq<nat>, server: Server, s: Node)
    requires Arrived(cmds, signals, server, s)
    ensures server.pc.SPollRecv? && s.rcq != [] && s.rcq[0].ok ==> s.rcq[0].op == OpRecvImm
  {
  }

  /** The sizes both programs read from an immediate stay within the buffer and what they slice decodes. */
  lemma SlicesDecode(cfg: Config, st: State)
    requires Sound(cfg, st)
    ensures st.client.pc.CDecode? ==>
              st.client.pc.size == 8 + 12 * |cfg.serverBufs| <= |st.c.buf|
              && DecodeConnections(st.c.buf[..st.client.pc.size]) == Success(TableOf(cfg.serverBufs))
    ensures st.server.pc.SDecode? ==>
              var n := |st.server.returned|;
              st.server.pc.size <= |st.s.buf|
              && n < |SignalAt(st.journal)| && SignalAt(st.journal)[n] < |st.cmds|
              && st.server.pc.size == (match st.cmds[SignalAt(st.journal)[n]] case Complete(id) => 13 + |id| case _ => 5)
              && DecodeNotification(st.s.buf[..st.server.pc.size]) == Success(NoteOf(st.cmds[SignalAt(st.journal)[n]]))
  {
    if st.client.pc.CDecode? {
      ClientSlice(cfg, st);
    }
    if st.server.pc.SDecode? {
      ServerSlice(cfg, st);
    }
  }

  lemma ClientSlice(cfg: Config, st: State)
    requires Sound(cfg, st) && st.client.pc.CDecode?
    ensures st.client.pc.size == 8 + 12 * |cfg.serverBufs| <= |st.c.buf|
    ensures DecodeConnections(st.c.buf[..st.client.pc.size]) == Success(TableOf(cfg.serverBufs))
  {
    var u := ReachableInv(cfg, st);
    TableSlice(cfg, u);
  }

  lemma ServerSlice(cfg: Config, st: State)
    requires Sound(cfg, st) && st.server.pc.SDecode?
    ensures var n := |st.server.returned|;
            st.server.pc.size <= |st.s.buf|
            && n < |SignalAt(st.journal)| && SignalAt(st.journal)[n] < |st.cmds|
            && st.server.pc.size == (match st.cmds[SignalAt(st.journal)[n]] case Complete(id) => 13 + |id| case _ => 5)
            && DecodeNotification(st.s.buf[..st.server.pc.size]) == Success(NoteOf(st.cmds[SignalAt(st.journal)[n]]))
  {
    var u := ReachableInv(cfg, st);
    NoteSlice(u.cmds, SignalAt(u.journal), u.server, u.s);
  }

  lemma TableSlice(cfg: Config, st: State)
    requires Setup(cfg, st) && st.client.pc.CDecode?
    ensures st.client.pc.size == 8 + 12 * |cfg.serverBufs| <= |st.c.buf|
    ensures DecodeConnections(st.c.buf[..st.client.pc.size]) == Success(TableOf(cfg.serverBufs))
  {
    TableReads(cfg, st.c.buf);
  }

  lemma NoteSlice(cmds: seq<Command>, signals: seq<nat>, server: Server, s: Node)
    requires Arrived(cmds, signals, server, s) && server.pc.SDecode?
    ensures server.pc.size <= |s.buf|
    ensures |server.returned| < |signals| && signals[|server.returned|] < |cmds|
    ensures server.pc.size == match cmds[signals[|server.returned|]] case Complete(id) => 13 + |id| case _ => 5
    ensures DecodeNotification(s.buf[..server.pc.size]) == Success(NoteOf(cmds[signals[|server.returned|]]))
  {
    NoteReads(cmds[signals[|server.returned|]], s.buf);
  }

  /** What has been serialised stays in the buffer until its write has completed: the table from staging
      to its arrival, a message from staging to the end of its command. */
  lemma StagedStays(cfg: Config, st: State)
    requires Sound(cfg, st)
    ensures st.server.pc.SPostTable? || (st.server.pc.SPollTable? && st.s.sq != []) ==>
              TableSize(cfg) <= |st.s.buf| && DecodeConnections(st.s.buf[..TableSize(cfg)]) == Success(TableOf(cfg.serverBufs))
    ensures Working(st.client.pc) ==> st.client.k < |st.cmds|
    ensures Working(st.client.pc) && Message(st.cmds[st.client.k]) ==>
              var n := NoteOf(st.cmds[st.client.k]);
              NotificationSize(n) <= |st.c.buf| && DecodeNotification(st.c.buf[..NotificationSize(n)]) == Success(n)
  {
    var u := ReachableInv(cfg, st);
    TableStays(cfg, u);
    if Working(st.client.pc) {
      CurrentStays(cfg, st);
    }
  }

  lemma TableStays(cfg: Config, st: State)
    requires Setup(cfg, st)
    ensures st.server.pc.SPostTable? || (st.server.pc.SPollTable? && st.s.sq != []) ==>
              TableSize(cfg) <= |st.s.buf| && DecodeConnections(st.s.buf[..TableSize(cfg)]) == Success(TableOf(cfg.serverBufs))
  {
    if st.server.pc.SPostTable? || (st.server.pc.SPollTable? && st.s.sq != []) {
      TableReads(cfg, st.s.buf);
    }
  }

  lemma CurrentStays(cfg: Config, st: State)
    requires Sound(cfg, st) && Working(st.client.pc)
    ensures st.client.k < |st.cmds|
    ensures Message(st.cmds[st.client.k]) ==>
              var n := NoteOf(st.cmds[st.client.k]);
              NotificationSize(n) <= |st.c.buf| && DecodeNotification(st.c.buf[..NotificationSize(n)]) == Success(n)
  {
    SoundClient(cfg, st);
    MessageStays(cfg, st);
  }

  lemma MessageStays(cfg: Config, st: State)
    requires Worker(cfg, st)
    ensures Working(st.client.pc) ==> st.client.k < |st.cmds|
    ensures Working(st.client.pc) && Message(st.cmds[st.client.k]) ==>
              var n := NoteOf(st.cmds[st.client.k]);
              NotificationSize(n) <= |st.c.buf| && DecodeNotification(st.c.buf[..NotificationSize(n)]) == Success(n)
  {
    if Working(st.client.pc) && Message(st.cmds[st.client.k]) {
      NoteReads(st.cmds[st.client.k], st.c.buf);
    }
  }

  // ----- Handshake

  /** `connect` has returned Ok. */
  predicate Connected(st: State) {
    ClientPhase(st.client.pc) == 9
  }

  /** `accept` has returned Ok. */
  predicate Accepted(st: State) {
    ServerPhase(st.server.pc) == 9
  }

  /** The client knows the server's CPU buffer, and its map of remote buffers is the server's own. */
  predicate ClientAgrees(cfg: Config, client: Client) {
    client.peer == cfg.serverCpu
    && client.remote.Keys == LocalMap(cfg.serverBufs).Keys
    && forall k :: k in client.remote ==> client.remote[k] == Connection(k, LocalMap(cfg.serverBufs)[k].rkey)
  }

  /** Each side holds the address and key of the other's CPU buffer, and the client's map of remote
      buffers is the server's own, base address by base address, repeats included. */
  lemma HandshakeAgreement(cfg: Config, st: State)
    requires Sound(cfg, st)
    ensures Connected(st) ==> ClientAgrees(cfg, st.client)
    ensures Accepted(st) ==> st.server.peer == cfg.clientCpu
  {
    var u := ReachableInv(cfg, st);
    AgreedThere(cfg, st, u);
  }

  lemma AgreedThere(cfg: Config, st: State, u: State)
    requires Shadow(st, u) && Setup(cfg, u)
    ensures Connected(st) ==> ClientAgrees(cfg, st.client)
    ensures Accepted(st) ==> st.server.peer == cfg.clientCpu
  {
    Agreed(cfg, u);
    if Connected(st) {
      MapsAgree(cfg, st.client);
    }
  }

  lemma MapsAgree(cfg: Config, client: Client)
    requires client.peer == cfg.serverCpu && client.remote == RemoteOf(cfg.serverBufs)
    ensures ClientAgrees(cfg, client)
  {
    RemoteAgreesWithLocal(cfg.serverBufs);
  }

  lemma Agreed(cfg: Config, st: State)
    requires Setup(cfg, st)
    ensures Connected(st) ==> st.client.peer == cfg.serverCpu && st.client.remote == RemoteOf(cfg.serverBufs) && st.met.table
    ensures Accepted(st) ==> st.server.peer == cfg.clientCpu
    ensures st.met.table ==> |cfg.serverBufs| <= 340
    ensures |st.s.buf| == CPU_BUFFER_BASE_SIZE
  {
  }

  /** The staging step of `accept` goes on exactly when the table fits. */
  lemma Staging(cfg: Config, st: State)
    requires st.server.pc.SStage? && |st.s.buf| == CPU_BUFFER_BASE_SIZE
    ensures ServerStep(cfg, st).server.pc == (if |cfg.serverBufs| <= 340 then SPostTable else SHangup(false))
  {
  }

  /** The table goes out exactly when the server has at most 340 buffers, and a client that connects has
      received all of it. */
  lemma TableWhole(cfg: Config, st: State)
    requires Sound(cfg, st)
    ensures st.server.pc.SStage? ==>
              ServerStep(cfg, st).server.pc == (if |cfg.serverBufs| <= 340 then SPostTable else SHangup(false))
    ensures st.met.table ==> |cfg.serverBufs| <= 340
    ensures Connected(st) ==> st.met.table && st.client.remote == RemoteOf(cfg.serverBufs)
  {
    var u := ReachableInv(cfg, st);
    WholeThere(cfg, st, u);
    if st.server.pc.SStage? {
      Staging(cfg, st);
    }
  }

  lemma WholeThere(cfg: Config, st: State, u: State)
    requires Shadow(st, u) && Setup(cfg, u)
    ensures st.met.table ==> |cfg.serverBufs| <= 340
    ensures Connected(st) ==> st.met.table && st.client.remote == RemoteOf(cfg.serverBufs)
    ensures |st.s.buf| == CPU_BUFFER_BASE_SIZE
  {
    Agreed(cfg, u);
  }

  /** The CPU buffers change only where the programs expect it: each side's by its own serialising, the
      server's by an arrival it waits for in its loop, the client's by the table it waits for, or when the
      program that waited has died. Hence
      neither changes from serialising to completion, nor from arrival to the end of decoding. */
  lemma NonInterference(cfg: Config, st: State, a: Action)
    requires Sound(cfg, st) && Enabled(cfg, st, a)
    ensures Effect(cfg, st, a).s.buf != st.s.buf ==>
              (a.ServerRuns? && st.server.pc.SStage?)
              || ((a.DeliverToServer? || a.LoseAckClient?) && (st.server.pc.SPollRecv? || st.server.pc.SDead?))
    ensures Effect(cfg, st, a).c.buf != st.c.buf ==>
              (a.ClientRuns? && st.client.pc.CNext?)
              || ((a.DeliverToClient? || a.LoseAckServer?) && (st.client.pc.CPollTable? || st.client.pc.CDead?))
  {
    var u := ReachableInv(cfg, st);
    if a.DeliverToServer? || a.LoseAckClient? {
      FabricBlind(cfg, u, st.client.pc, st.server.pc, a);
      ArrivalPoints(cfg, u, a.DeliverToServer?);
    } else if a.DeliverToClient? || a.LoseAckServer? {
      FabricBlind(cfg, u, st.client.pc, st.server.pc, a);
      TablePoints(cfg, u, a.DeliverToClient?);
    } else {
      QuietActions(cfg, st, a);
    }
  }

  /** Without a delivery, only the two serialising steps touch a buffer. */
  lemma QuietActions(cfg: Config, st: State, a: Action)
    requires Enabled(cfg, st, a)
    requires !a.DeliverToServer? && !a.LoseAckClient? && !a.DeliverToClient? && !a.LoseAckServer?
    ensures Effect(cfg, st, a).s.buf != st.s.buf ==> a.ServerRuns? && st.server.pc.SStage?
    ensures Effect(cfg, st, a).c.buf != st.c.buf ==> a.ClientRuns? && st.client.pc.CNext?
  {
    if a.ClientRuns? {
      if Connecting(st.client.pc) { ConnectsQuietly(cfg, st); } else { WorksQuietly(cfg, st); }
    } else if a.ServerRuns? {
      if Accepting(st.server.pc) { AcceptsQuietly(cfg, st); } else { LoopsQuietly(st); }
    }
  }

  lemma ConnectsQuietly(cfg: Config, st: State)
    requires ClientEnabled(st)
    ensures ConnectStep(cfg, st).s == st.s && ConnectStep(cfg, st).server == st.server && ConnectStep(cfg, st).c.buf == st.c.buf
  {
    if st.client.pc.CDecode? {
      ReadsQuietly(cfg, st);
    }
  }

  lemma ReadsQuietly(cfg: Config, st: State)
    requires st.client.pc.CDecode?
    ensures ConnectStep(cfg, st).s == st.s && ConnectStep(cfg, st).server == st.server && ConnectStep(cfg, st).c == st.c
  {
  }

  lemma WorksQuietly(cfg: Config, st: State)
    requires ClientEnabled(st)
    ensures WorkerStep(cfg, st).s == st.s && WorkerStep(cfg, st).server == st.server
    ensures WorkerStep(cfg, st).c.buf != st.c.buf ==> st.client.pc.CNext?
  {
    if st.client.pc.CNext? {
      TakesQuietly(cfg, st);
    }
  }

  lemma TakesQuietly(cfg: Config, st: State)
    requires st.client.k < |st.cmds|
    ensures TakeCommand(cfg, st).s == st.s && TakeCommand(cfg, st).server == st.server
  {
  }

  lemma AcceptsQuietly(cfg: Config, st: State)
    requires ServerEnabled(st)
    ensures ServerOnly(st, AcceptStep(cfg, st))
    ensures AcceptStep(cfg, st).s.buf != st.s.buf ==> st.server.pc.SStage?
  {
    if st.server.pc.SStage? || st.server.pc.SPostTable? {
      SendsQuietly(cfg, st);
    }
  }

  lemma SendsQuietly(cfg: Config, st: State)
    requires st.server.pc.SStage? || st.server.pc.SPostTable?
    ensures ServerOnly(st, AcceptStep(cfg, st))
    ensures AcceptStep(cfg, st).s.buf != st.s.buf ==> st.server.pc.SStage?
  {
  }

  lemma LoopsQuietly(st: State)
    requires ServerEnabled(st)
    ensures ServerOnly(st, LoopStep(st)) && LoopStep(st).s.buf == st.s.buf
  {
    if st.server.pc.SDecode? {
      DecodesQuietly(st);
    } else if st.server.pc.SPollRecv? {
      PollsQuietly(st);
    }
  }

  lemma PollsQuietly(st: State)
    requires st.server.pc.SPollRecv? && st.s.rcq != []
    ensures ServerOnly(st, LoopStep(st)) && LoopStep(st).s.buf == st.s.buf
  {
  }

  lemma DecodesQuietly(st: State)
    requires st.server.pc.SDecode?
    ensures ServerOnly(st, LoopStep(st)) && LoopStep(st).s.buf == st.s.buf
  {
  }

  lemma ArrivalPoints(cfg: Config, st: State, acked: bool)
    requires Setup(cfg, st) && Worker(cfg, st) && ToServerEnabled(cfg, st)
    ensures ToServer(cfg, st, acked).c.buf == st.c.buf
    ensures ToServer(cfg, st, acked).s.buf != st.s.buf ==> st.server.pc.SPollRecv?
  {
    if HelloDeliverable(st.c, st.s) {
      HelloToServer(cfg, st);
      WaitsForHello(st);
    } else if ImmDeliverable(st.c, st.s, cfg.serverCpu) {
      MessageToServer(cfg, st);
    }
  }

  lemma WaitsForHello(st: State)
    requires ServerQueues(st.s, st.server.pc, st.accepted) && st.server.pc.SPollHello? && st.s.rq != []
    ensures st.s.rq[0] == HelloReceive
  {
  }

  lemma TablePoints(cfg: Config, st: State, acked: bool)
    requires Setup(cfg, st) && ToClientEnabled(cfg, st)
    ensures ToClient(cfg, st, acked).s.buf == st.s.buf
    ensures ToClient(cfg, st, acked).c.buf != st.c.buf ==> st.client.pc.CPollTable?
  {
    if HelloDeliverable(st.s, st.c) {
      HelloToClient(cfg, st);
    } else {
      TableToClient(cfg, st);
    }
  }
}
