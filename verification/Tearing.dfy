/** When a message is torn. The worker logs the error of a failed poll and goes on with the request still on
    its queue and the payload still in its buffer; from then on each poll takes the completion before its
    own, so any later message may still be queued when the next one is serialised. A message is safe exactly
    as long as none is serialised before its request has left the queue. */
module Tearing {
  import opened Bytes
  import opened Wrappers
  import opened Codec
  import opened MemBuffers
  import opened Commands
  import opened Journal
  import opened Protocol
  import opened Invariant
  import opened Preservation
  import opened FabricPreservation
  import opened Shadows
  import opened Theorems
  import opened Delivery
  import opened Always

  // ----- What is watched: the message of command `i`, wherever it is

  /** Neither the buffer nor what was fetched from it for command `i` holds anything but the message of `cmd`. */
  predicate Intact(cmd: Command, c: Node, i: nat) {
    HoldsNote(cmd, c.buf)
    && forall y :: 0 <= y < |c.sq| && c.sq[y].at == i && c.sq[y].payload.Some? ==> HoldsNote(cmd, c.sq[y].payload.value)
  }

  /** Message number `m` has arrived and is, or will be, returned as the message of `cmd`. */
  predicate Safe(cmd: Command, m: nat, s: Node, server: Server, signals: seq<nat>) {
    (m < |server.returned| && server.returned[m] == NoteOf(cmd))
    || (|server.returned| == m && |signals| == m + 1 && Pending(server.pc, s) && Readable(cmd, server.pc, s))
    || (|server.returned| <= m && Out(server.pc))
  }

  predicate AllSafe(cmd: Command, i: nat, s: Node, server: Server, signals: seq<nat>) {
    forall m :: 0 <= m < |signals| && signals[m] == i ==> Safe(cmd, m, s, server, signals)
  }

  predicate Watched(cmd: Command, i: nat, c: Node, s: Node, server: Server, signals: seq<nat>) {
    if Waits(c.sq, i) then Intact(cmd, c, i) else AllSafe(cmd, i, s, server, signals)
  }

  ghost predicate Watch(cfg: Config, st: State, i: nat) {
    Line(cfg, st) && i < |st.cmds| && Message(st.cmds[i]) && FitsBuffer(st.cmds[i]) && InReach(i, st.client)
    && Watched(st.cmds[i], i, st.c, st.s, st.server, SignalAt(st.journal))
  }

  /** The worker serialises a message while the request of command `i` is anywhere on its queue. */
  predicate Overwrites(st: State, a: Action, i: nat) {
    a.ClientRuns? && st.client.pc.CNext? && st.client.k < |st.cmds| && Message(st.cmds[st.client.k]) && Waits(st.c.sq, i)
  }

  /** What is queued has not arrived. */
  lemma QueuedNotArrived(cfg: Config, st: State, i: nat)
    requires Line(cfg, st) && Waits(st.c.sq, i)
    ensures i !in OwnAt(st.journal) && i !in SignalAt(st.journal)
  {
    SignalsInOrder(st.journal);
  }

  // ----- The worker's steps

  /** What a step of the client leaves of the watched request. */
  predicate Keeps(st: State, t: State, i: nat) {
    t.s == st.s && t.server == st.server && t.journal == st.journal && st.cmds <= t.cmds
    && (Waits(t.c.sq, i) <==> Waits(st.c.sq, i))
    && (forall y :: 0 <= y < |t.c.sq| && t.c.sq[y].at == i ==> y < |st.c.sq| && t.c.sq[y] == st.c.sq[y])
  }

  lemma KeepsWatch(cfg: Config, st: State, t: State, i: nat)
    requires Watch(cfg, st, i) && Line(cfg, t) && Keeps(st, t, i) && InReach(i, t.client)
    requires Waits(st.c.sq, i) ==> t.c.buf == st.c.buf
    ensures Watch(cfg, t, i)
  {
    assert t.cmds[i] == st.cmds[i];
  }

  lemma SlidesKeep(st: State, t: State, i: nat)
    requires Slides(st, t)
    ensures Keeps(st, t, i)
  {
  }

  lemma PostKeeps(cfg: Config, st: State, i: nat)
    requires Line(cfg, st) && st.client.pc.CPost? && InReach(i, st.client)
    ensures ClientEnabled(st) && Keeps(st, WorkerStep(cfg, st), i) && WorkerStep(cfg, st).c.buf == st.c.buf
    ensures InReach(i, WorkerStep(cfg, st).client)
  {
    PostIs(cfg, st);
    var t := WorkerStep(cfg, st);
    forall y | 0 <= y < |t.c.sq| && t.c.sq[y].at == i
      ensures y < |st.c.sq|
    {
    }
    if Waits(st.c.sq, i) {
      var y :| 0 <= y < |st.c.sq| && st.c.sq[y].at == i;
      assert t.c.sq[y].at == i;
    }
  }

  lemma ClientWatch(cfg: Config, st: State, a: Action, i: nat)
    requires Watch(cfg, st, i) && Enabled(cfg, st, a) && (a.ClientRuns? || a.ClientIsRefused? || a.ClientPollFails?) && !Overwrites(st, a, i)
    ensures Watch(cfg, Effect(cfg, st, a), i)
  {
    var t := Effect(cfg, st, a);
    ClientLine(cfg, st, a);
    ClientKeepsSlot(cfg, st, a, i);
    KeepsWatch(cfg, st, t, i);
  }

  lemma ClientKeepsSlot(cfg: Config, st: State, a: Action, i: nat)
    requires Line(cfg, st) && InReach(i, st.client) && Enabled(cfg, st, a)
    requires (a.ClientRuns? || a.ClientIsRefused? || a.ClientPollFails?)
    ensures var t := Effect(cfg, st, a);
            Keeps(st, t, i) && InReach(i, t.client) && (!Overwrites(st, a, i) && Waits(st.c.sq, i) ==> t.c.buf == st.c.buf)
  {
    var t := Effect(cfg, st, a);
    if a.ClientIsRefused? {
      RefusalSlides(cfg, st);
      SlidesKeep(st, t, i);
    } else if a.ClientPollFails? {
      BadPollSlides(cfg, st);
      SlidesKeep(st, t, i);
    } else if st.client.pc.CPost? {
      PostKeeps(cfg, st, i);
    } else {
      WorkerSlides(cfg, st);
      SlidesKeep(st, t, i);
    }
  }

  lemma SubmitWatch(cfg: Config, st: State, cmd: Command, i: nat)
    requires Watch(cfg, st, i)
    ensures Watch(cfg, st.(cmds := st.cmds + [cmd]), i)
  {
    SubmitLine(cfg, st, cmd);
    KeepsWatch(cfg, st, st.(cmds := st.cmds + [cmd]), i);
  }

  // ----- The server's steps

  /** What has arrived stays safe. */
  lemma ServerKeepsWatch(cfg: Config, st: State, t: State, i: nat)
    requires Watch(cfg, st, i) && Line(cfg, t) && ServerMoves(st, t)
    requires AllSafe(st.cmds[i], i, st.s, st.server, SignalAt(st.journal)) ==> AllSafe(st.cmds[i], i, t.s, t.server, SignalAt(st.journal))
    ensures Watch(cfg, t, i)
  {
  }

  lemma LoopSafe(cmd: Command, i: nat, s: Node, server: Server, t: Node, next: Server, signals: seq<nat>)
    requires AllSafe(cmd, i, s, server, signals) && InStep(s, server, signals)
    requires !Pending(server.pc, s) && next.returned == server.returned && (Out(server.pc) ==> Out(next.pc))
    ensures AllSafe(cmd, i, t, next, signals)
  {
  }

  lemma ReceiveSafe(cmd: Command, i: nat, s: Node, server: Server, signals: seq<nat>)
    requires AllSafe(cmd, i, s, server, signals) && server.pc.SPollRecv? && s.rcq != []
    ensures AllSafe(cmd, i, PopReceived(s), server.(pc := PollPc(s.rcq[0])), signals)
  {
  }

  lemma DecodeSafe(cmd: Command, i: nat, s: Node, server: Server, signals: seq<nat>, n: Notification)
    requires AllSafe(cmd, i, s, server, signals) && InStep(s, server, signals) && server.pc.SDecode?
    requires Decodes(s, server.pc.size) && DecodeNotification(s.buf[..server.pc.size]) == Success(n)
    ensures AllSafe(cmd, i, s, server.(pc := SHandle, note := n, returned := server.returned + [n]), signals)
  {
    forall m | 0 <= m < |signals| && signals[m] == i
      ensures Safe(cmd, m, s, server.(pc := SHandle, note := n, returned := server.returned + [n]), signals)
    {
      if |server.returned| == m {
        NoteReads(cmd, s.buf);
      }
    }
  }

  lemma PanicSafe(cmd: Command, i: nat, s: Node, server: Server, signals: seq<nat>)
    requires AllSafe(cmd, i, s, server, signals) && InStep(s, server, signals) && server.pc.SDecode? && !Decodes(s, server.pc.size)
    ensures AllSafe(cmd, i, s, server.(pc := SDead), signals)
  {
    forall m | 0 <= m < |signals| && signals[m] == i
      ensures Safe(cmd, m, s, server.(pc := SDead), signals)
    {
      if |server.returned| == m && Readable(cmd, server.pc, s) {
        NoteReads(cmd, s.buf);
      }
    }
  }

  lemma OutStays(cfg: Config, st: State, signals: seq<nat>)
    requires InStep(st.s, st.server, signals) && ServerEnabled(st) && Out(st.server.pc)
    ensures Out(ServerStep(cfg, st).server.pc)
  {
  }

  lemma ServerRunsSafe(cfg: Config, st: State, i: nat)
    requires InStep(st.s, st.server, SignalAt(st.journal)) && i < |st.cmds| && ServerEnabled(st)
    requires AllSafe(st.cmds[i], i, st.s, st.server, SignalAt(st.journal))
    ensures AllSafe(st.cmds[i], i, ServerStep(cfg, st).s, ServerStep(cfg, st).server, SignalAt(st.journal))
  {
    var cmd, signals := st.cmds[i], SignalAt(st.journal);
    if st.server.pc.SDecode? {
      DecodeIs(cfg, st);
      if Decodes(st.s, st.server.pc.size) {
        DecodeSafe(cmd, i, st.s, st.server, signals, DecodeNotification(st.s.buf[..st.server.pc.size]).value);
      } else {
        PanicSafe(cmd, i, st.s, st.server, signals);
      }
    } else if st.server.pc.SPollRecv? {
      ReceiveIs(cfg, st, signals);
      ReceiveSafe(cmd, i, st.s, st.server, signals);
    } else {
      LoopInStep(cfg, st, signals);
      if Out(st.server.pc) {
        OutStays(cfg, st, signals);
      }
      LoopSafe(cmd, i, st.s, st.server, ServerStep(cfg, st).s, ServerStep(cfg, st).server, signals);
    }
  }

  lemma ServerTroubleSafe(st: State, i: nat)
    requires InStep(st.s, st.server, SignalAt(st.journal)) && i < |st.cmds|
    requires AllSafe(st.cmds[i], i, st.s, st.server, SignalAt(st.journal))
    ensures ServerRefusable(st) ==> AllSafe(st.cmds[i], i, st.s, ServerRefused(st).server, SignalAt(st.journal))
    ensures ServerPolling(st) ==> AllSafe(st.cmds[i], i, st.s, ServerBadPoll(st).server, SignalAt(st.journal))
  {
  }

  lemma ServerWatch(cfg: Config, st: State, a: Action, i: nat)
    requires Watch(cfg, st, i) && Enabled(cfg, st, a) && (a.ServerRuns? || a.ServerIsRefused? || a.ServerPollFails?)
    ensures Watch(cfg, Effect(cfg, st, a), i)
  {
    ServerLine(cfg, st, a);
    if AllSafe(st.cmds[i], i, st.s, st.server, SignalAt(st.journal)) {
      if a.ServerRuns? {
        ServerRunsSafe(cfg, st, i);
      } else {
        ServerTroubleSafe(st, i);
      }
    }
    ServerKeepsWatch(cfg, st, Effect(cfg, st, a), i);
  }

  // ----- The fabric's steps

  /** The request of command `i` can only be the oldest if the oldest is removed. */
  lemma PopKeeps(cfg: Config, st: State, i: nat)
    requires Slots(cfg, st.cmds, st.client, st.journal, st.c.sq) && st.c.sq != []
    ensures Waits(st.c.sq[1..], i) <==> Waits(st.c.sq, i) && st.c.sq[0].at != i
    ensures forall y :: 0 <= y < |st.c.sq| - 1 ==> st.c.sq[1..][y] == st.c.sq[y + 1]
  {
    if Waits(st.c.sq, i) && st.c.sq[0].at != i {
      var y :| 0 <= y < |st.c.sq| && st.c.sq[y].at == i;
      assert st.c.sq[1..][y - 1].at == i;
    }
    if Waits(st.c.sq[1..], i) {
      var y :| 0 <= y < |st.c.sq| - 1 && st.c.sq[1..][y].at == i;
      assert st.c.sq[y + 1].at == i;
    }
  }

  /** The oldest request leaves the queue, and it was not the watched one. */
  lemma PopIntact(cfg: Config, st: State, d: Node, i: nat)
    requires Slots(cfg, st.cmds, st.client, st.journal, st.c.sq) && st.c.sq != [] && d.sq == st.c.sq[1..] && d.buf == st.c.buf
    requires i < |st.cmds| && Intact(st.cmds[i], st.c, i)
    ensures Intact(st.cmds[i], d, i)
  {
    assert forall y :: 0 <= y < |d.sq| ==> d.sq[y] == st.c.sq[y + 1];
  }

  /** The watched message arrives, whole. */
  lemma WatchedArrives(cfg: Config, st: State, i: nat, acked: bool)
    requires Watch(cfg, st, i) && ToServerEnabled(cfg, st) && st.c.sq[0].at == i
    ensures Watch(cfg, ToServer(cfg, st, acked), i)
  {
    var cmd, slot, t, signals := st.cmds[i], st.c.sq[0], ToServer(cfg, st, acked), SignalAt(st.journal);
    QueuedNotArrived(cfg, st, i);
    HeadIsMessage(cfg, st, i);
    DeliveryLine(cfg, st, acked);
    MessageWord(cfg, cmd);
    ImmIs(cfg, st, acked);
    Extend(st.journal, Signal(i));
    PopKeeps(cfg, st, i);
    ArrivesSafe(cmd, i, st.s, st.server, signals, slot.payload.value, NotificationSize(NoteOf(cmd)));
  }

  lemma HeadIsMessage(cfg: Config, st: State, i: nat)
    requires Slots(cfg, st.cmds, st.client, st.journal, st.c.sq) && st.c.sq != [] && st.c.sq[0].at == i && i < |st.cmds| && Message(st.cmds[i])
    ensures st.c.sq[0].wr == WrImm(cfg.serverCpu.basePtr, cfg.serverCpu.rkey, MetadataWord(NotificationSize(NoteOf(st.cmds[i]))))
    ensures FitsBuffer(st.cmds[i])
    ensures st.c.sq[0].payload.Some? ==> |st.c.sq[0].payload.value| == CPU_BUFFER_BASE_SIZE
  {
    assert SlotOk(cfg, st.cmds, st.client, st.journal, st.c.sq[0]);
  }

  lemma ArrivesSafe(cmd: Command, i: nat, s: Node, server: Server, signals: seq<nat>, payload: seq<u8>, word: u32)
    requires InStep(s, server, signals) && s.rq != [] && i !in signals && HoldsNote(cmd, payload) && word == NotificationSize(NoteOf(cmd))
    ensures AllSafe(cmd, i, Arriving(s, payload, word), server, signals + [i])
  {
    ArrivesInStep(s, server, signals, i, payload, word);
  }

  /** Another message arrives. */
  lemma OtherArrives(cfg: Config, st: State, i: nat, acked: bool)
    requires Watch(cfg, st, i) && ToServerEnabled(cfg, st) && st.c.sq[0].at != i && st.c.sq[0].wr.WrImm?
    ensures Watch(cfg, ToServer(cfg, st, acked), i)
  {
    var cmd, slot, t, signals := st.cmds[i], st.c.sq[0], ToServer(cfg, st, acked), SignalAt(st.journal);
    DeliveryLine(cfg, st, acked);
    ImmIs(cfg, st, acked);
    Extend(st.journal, Signal(slot.at));
    PopKeeps(cfg, st, i);
    if Waits(st.c.sq, i) {
      PopIntact(cfg, st, t.c, i);
    } else {
      OthersSafe(cmd, i, st.s, t.s, st.server, signals, slot.at);
    }
  }

  /** A server that has a receive posted has no earlier message in hand. */
  lemma OthersSafe(cmd: Command, i: nat, s: Node, t: Node, server: Server, signals: seq<nat>, at: nat)
    requires AllSafe(cmd, i, s, server, signals) && InStep(s, server, signals) && s.rq != [] && at != i
    ensures AllSafe(cmd, i, t, server, signals + [at])
  {
    forall m | 0 <= m < |signals + [at]| && (signals + [at])[m] == i
      ensures Safe(cmd, m, t, server, signals + [at])
    {
      assert signals[m] == i;
    }
  }

  lemma TransferWatch(cfg: Config, st: State, i: nat, acked: bool)
    requires Watch(cfg, st, i) && ToServerEnabled(cfg, st) && OneSided(cfg, st)
    ensures Watch(cfg, ToServer(cfg, st, acked), i)
  {
    var t := ToServer(cfg, st, acked);
    TransferLine(cfg, st, acked);
    assert SlotOk(cfg, st.cmds, st.client, st.journal, st.c.sq[0]);
    TransferIs(cfg, st, acked);
    NotTheMessage(cfg, st, i);
    PopKeeps(cfg, st, i);
    if Waits(st.c.sq, i) {
      PopIntact(cfg, st, t.c, i);
    } else {
      SameServerSafe(st.cmds[i], i, st.s, t.s, st.server, SignalAt(st.journal));
    }
  }

  lemma NotTheMessage(cfg: Config, st: State, i: nat)
    requires OneSided(cfg, st) && SlotOk(cfg, st.cmds, st.client, st.journal, st.c.sq[0]) && i < |st.cmds| && Message(st.cmds[i])
    ensures st.c.sq[0].at != i
  {
  }

  lemma SameServerSafe(cmd: Command, i: nat, s: Node, t: Node, server: Server, signals: seq<nat>)
    requires AllSafe(cmd, i, s, server, signals) && t == s.(mem := t.mem)
    ensures AllSafe(cmd, i, t, server, signals)
  {
  }

  lemma FetchWatch(cfg: Config, st: State, i: nat)
    requires Watch(cfg, st, i) && CanFetch(st.c)
    ensures Watch(cfg, st.(c := Fetch(st.c, |st.journal|)), i)
  {
    FetchLine(cfg, st);
    FetchWaits(st);
    var d := Fetch(st.c, |st.journal|);
    if Waits(d.sq, i) {
      var y :| 0 <= y < |d.sq| && d.sq[y].at == i;
      assert st.c.sq[y].at == i;
      FetchIntact(cfg, st, i);
    }
  }

  lemma FetchIntact(cfg: Config, st: State, i: nat)
    requires Slots(cfg, st.cmds, st.client, st.journal, st.c.sq) && CanFetch(st.c) && i < |st.cmds| && Message(st.cmds[i])
    requires Intact(st.cmds[i], st.c, i)
    ensures Intact(st.cmds[i], Fetch(st.c, |st.journal|), i)
  {
    var d := Fetch(st.c, |st.journal|);
    assert forall y :: 1 <= y < |d.sq| ==> d.sq[y] == st.c.sq[y];
    if st.c.sq[0].at == i {
      HeadIsMessage(cfg, st, i);
    }
  }

  lemma FlushClientWatch(cfg: Config, st: State, i: nat)
    requires Watch(cfg, st, i) && st.c.err
    ensures st.c.sq != [] ==> Watch(cfg, st.(c := FlushSend(st.c)), i)
    ensures st.c.rq != [] ==> Watch(cfg, st.(c := FlushRecv(st.c)), i)
  {
    FlushClientLine(cfg, st);
    if st.c.sq != [] {
      PopKeeps(cfg, st, i);
      if Waits(st.c.sq, i) {
        PopIntact(cfg, st, FlushSend(st.c), i);
        QueuedNotArrived(cfg, st, i);
      }
    }
  }

  lemma FlushServerWatch(cfg: Config, st: State, i: nat)
    requires Watch(cfg, st, i) && st.s.rq != []
    ensures Watch(cfg, st.(s := FlushRecv(st.s)), i)
  {
    FlushServerLine(cfg, st);
    if !Waits(st.c.sq, i) {
      FlushSafe(st.cmds[i], i, st.s, st.server, SignalAt(st.journal));
    }
  }

  lemma FlushSafe(cmd: Command, i: nat, s: Node, server: Server, signals: seq<nat>)
    requires AllSafe(cmd, i, s, server, signals) && InStep(s, server, signals) && s.rq != []
    ensures AllSafe(cmd, i, FlushRecv(s), server, signals)
  {
  }

  lemma FaultWatch(cfg: Config, st: State, i: nat)
    requires Watch(cfg, st, i)
    ensures Watch(cfg, st.(c := st.c.(err := true)), i) && Watch(cfg, st.(s := st.s.(err := true)), i)
  {
    FaultLine(cfg, st);
  }

  lemma WritesWatch(cfg: Config, st: State, a: Action, i: nat)
    requires Watch(cfg, st, i) && Enabled(cfg, st, a) && (a.Intrude? || a.WriteLocal?)
    ensures Watch(cfg, Effect(cfg, st, a), i)
  {
    var e := if a.Intrude? then Foreign(a.addr, a.data) else Local(a.addr, a.data);
    WritesLine(cfg, st, a);
    Extend(st.journal, e);
    assert SignalAt(st.journal) + [] == SignalAt(st.journal);
    if !Waits(st.c.sq, i) {
      SameServerSafe(st.cmds[i], i, st.s, Effect(cfg, st, a).s, st.server, SignalAt(st.journal));
    }
  }

  lemma DeliveryWatch(cfg: Config, st: State, i: nat, acked: bool)
    requires Watch(cfg, st, i) && ToServerEnabled(cfg, st)
    ensures Watch(cfg, ToServer(cfg, st, acked), i)
  {
    NoHello(cfg, st);
    if st.c.sq[0].at == i {
      WatchedArrives(cfg, st, i, acked);
    } else if st.c.sq[0].wr.WrImm? {
      OtherArrives(cfg, st, i, acked);
    } else {
      TransferWatch(cfg, st, i, acked);
    }
  }

  lemma FabricWatch(cfg: Config, st: State, a: Action, i: nat)
    requires Watch(cfg, st, i) && Enabled(cfg, st, a) && !ByProgram(a) && !a.Submit?
    ensures Watch(cfg, Effect(cfg, st, a), i)
  {
    if a.DeliverToServer? || a.LoseAckClient? {
      DeliveryWatch(cfg, st, i, a.DeliverToServer?);
    } else if a.FetchClient? {
      FetchWatch(cfg, st, i);
    } else if a.Intrude? || a.WriteLocal? {
      WritesWatch(cfg, st, a, i);
    } else if a.FaultClient? || a.FaultServer? {
      FaultWatch(cfg, st, i);
    } else if a.FlushServerRecv? {
      FlushServerWatch(cfg, st, i);
    } else {
      assert st.s.sq == [];
      FlushClientWatch(cfg, st, i);
    }
  }

  lemma WatchStep(cfg: Config, st: State, a: Action, i: nat)
    requires Watch(cfg, st, i) && Enabled(cfg, st, a) && !Overwrites(st, a, i)
    ensures Watch(cfg, Effect(cfg, st, a), i)
  {
    if a.ClientRuns? || a.ClientIsRefused? || a.ClientPollFails? {
      ClientWatch(cfg, st, a, i);
    } else if a.Submit? {
      SubmitWatch(cfg, st, a.cmd, i);
    } else if ByProgram(a) {
      ServerWatch(cfg, st, a, i);
    } else {
      FabricWatch(cfg, st, a, i);
    }
  }

  // ----- As long as nothing is serialised over it, the message is safe

  /** A run in which no message is serialised while the request of command `i` is on the queue. */
  ghost predicate Spares(cfg: Config, st: State, acts: seq<Action>, end: State, i: nat)
    decreases |acts|
  {
    if acts == [] then st == end
    else Enabled(cfg, st, acts[0]) && !Overwrites(st, acts[0], i) && Spares(cfg, Effect(cfg, st, acts[0]), acts[1..], end, i)
  }

  lemma {:induction false} WatchRun(cfg: Config, st: State, acts: seq<Action>, end: State, i: nat)
    requires Watch(cfg, st, i) && Spares(cfg, st, acts, end, i)
    ensures Watch(cfg, end, i) && st.cmds[i] == end.cmds[i]
    decreases |acts|
  {
    if acts != [] {
      WatchStep(cfg, st, acts[0], i);
      CommandsGrow(cfg, st, acts[0]);
      WatchRun(cfg, Effect(cfg, st, acts[0]), acts[1..], end, i);
    }
  }

  lemma CommandsGrow(cfg: Config, st: State, a: Action)
    requires Enabled(cfg, st, a)
    ensures st.cmds <= Effect(cfg, st, a).cmds
  {
    if a.ClientRuns? {
      ClientLeavesCommands(cfg, st);
    } else if a.ServerRuns? {
      ServerDeaf(cfg, st, st.client.pc);
    } else if !ByProgram(a) {
      assert st == Masked(st, st.client.pc, st.server.pc);
      FabricBlind(cfg, st, st.client.pc, st.server.pc, a);
    }
  }

  lemma ClientLeavesCommands(cfg: Config, st: State)
    requires ClientEnabled(st)
    ensures ClientStep(cfg, st).cmds == st.cmds
  {
    if st.client.pc.CNext? {
      TakeLeavesCommands(cfg, st);
    }
  }

  lemma TakeLeavesCommands(cfg: Config, st: State)
    requires st.client.k < |st.cmds|
    ensures TakeCommand(cfg, st).cmds == st.cmds
  {
  }

  /** The server is about to read what came with the write posted for command `i`. */
  predicate Reading(st: State, i: nat) {
    st.server.pc.SDecode? && |st.server.returned| < |SignalAt(st.journal)| && SignalAt(st.journal)[|st.server.returned|] == i
  }

  /** It is about to read anything but the message of command `i`. */
  predicate Misread(st: State, i: nat) {
    Reading(st, i) && i < |st.cmds|
    && !(st.server.pc.size <= |st.s.buf|
         && DecodeNotification(st.s.buf[..st.server.pc.size]) == Success(NoteOf(st.cmds[i])))
  }

  /** Whatever the server has returned out of that write is the message of command `i`. */
  predicate ReturnedRight(st: State, i: nat) {
    i < |st.cmds|
    && forall m :: 0 <= m < |st.server.returned| && m < |SignalAt(st.journal)| && SignalAt(st.journal)[m] == i ==>
                     st.server.returned[m] == NoteOf(st.cmds[i])
  }

  lemma WatchedIsRead(cfg: Config, st: State, i: nat)
    requires Watch(cfg, st, i)
    ensures !Misread(st, i) && ReturnedRight(st, i)
  {
    if Waits(st.c.sq, i) {
      QueuedNotArrived(cfg, st, i);
    }
    var r := |st.server.returned|;
    if Reading(st, i) {
      NoteReads(st.cmds[i], st.s.buf);
    }
  }

  /** A message posted by the worker in any reachable state, whatever has failed before: in every
      continuation, failures of every kind included, in which none is serialised while its request is on the
      queue, the server never misreads it, and if it returns it, returns exactly that message. */
  lemma FailedPollHarmless(cfg: Config, st: State, acts: seq<Action>, end: State)
    requires Reachable(cfg, st) && st.client.pc.CPost? && ClientEnabled(st) && Message(st.cmds[st.client.k])
    requires Spares(cfg, ClientStep(cfg, st), acts, end, st.client.k)
    ensures !Misread(end, st.client.k) && ReturnedRight(end, st.client.k)
    ensures st.client.k < |end.cmds| && end.cmds[st.client.k] == st.cmds[st.client.k]
  {
    ReachableLine(cfg, st);
    PostedIsWatched(cfg, st);
    WatchRun(cfg, ClientStep(cfg, st), acts, end, st.client.k);
    WatchedIsRead(cfg, end, st.client.k);
  }

  lemma PostedIsWatched(cfg: Config, st: State)
    requires Line(cfg, st) && st.client.pc.CPost? && ClientEnabled(st) && Message(st.cmds[st.client.k])
    ensures ClientStep(cfg, st).cmds == st.cmds && Watch(cfg, ClientStep(cfg, st), st.client.k)
  {
    PostIs(cfg, st);
    PostLine(cfg, st);
    PostedIsIntact(cfg, st);
  }

  lemma PostedIsIntact(cfg: Config, st: State)
    requires Equipped(cfg, st.cmds, st.client, st.c) && Slots(cfg, st.cmds, st.client, st.journal, st.c.sq)
    requires st.client.pc.CPost? && Message(st.cmds[st.client.k])
    ensures var t := Posting(cfg, st);
            Waits(t.c.sq, st.client.k) && Intact(st.cmds[st.client.k], t.c, st.client.k) && FitsBuffer(st.cmds[st.client.k])
            && InReach(st.client.k, t.client)
  {
    var t := Posting(cfg, st);
    assert t.c.sq[|st.c.sq|].at == st.client.k;
    forall y | 0 <= y < |st.c.sq|
      ensures t.c.sq[y] == st.c.sq[y] && st.c.sq[y].at < st.client.k
    {
      assert SlotOk(cfg, st.cmds, st.client, st.journal, st.c.sq[y]);
    }
  }

  // ----- Exactly when it can be torn

  /** A message of command `i` is on the queue. */
  predicate Letter(c: Node, i: nat) {
    exists y :: 0 <= y < |c.sq| && c.sq[y].at == i && c.sq[y].wr.WrImm?
  }

  ghost predicate SparesTo(cfg: Config, st: State, acts: seq<Action>, end: State, i: nat) {
    Spares(cfg, st, acts, end, i)
  }

  /** Some continuation in which nothing more is serialised over it brings the message to the server. */
  ghost predicate CanBeRead(cfg: Config, st: State, i: nat) {
    exists acts, end :: SparesTo(cfg, st, acts, end, i) && Reading(end, i)
  }

  /** Some such continuation misreads it. */
  ghost predicate CanBeMisread(cfg: Config, st: State, i: nat) {
    exists acts, end :: SparesTo(cfg, st, acts, end, i) && Misread(end, i)
  }

  lemma SparesPrefix(cfg: Config, st: State, a: Action, acts: seq<Action>, end: State, i: nat)
    requires Enabled(cfg, st, a) && !Overwrites(st, a, i) && Spares(cfg, Effect(cfg, st, a), acts, end, i)
    ensures Spares(cfg, st, [a] + acts, end, i)
  {
    assert ([a] + acts)[1..] == acts;
  }

  lemma {:induction false} SparesAppend(cfg: Config, st: State, acts: seq<Action>, mid: State, more: seq<Action>, end: State, i: nat)
    requires Spares(cfg, st, acts, mid, i) && Spares(cfg, mid, more, end, i)
    ensures Spares(cfg, st, acts + more, end, i)
    decreases |acts|
  {
    if acts == [] {
      assert acts + more == more;
    } else {
      SparesAppend(cfg, Effect(cfg, st, acts[0]), acts[1..], mid, more, end, i);
      assert (acts + more)[1..] == acts[1..] + more;
    }
  }

  // A message that is neither queued nor arrived never comes, and a server that is out stays out.

  /** The server will not read the message of command `i`. */
  ghost predicate NeverRead(cfg: Config, st: State, i: nat) {
    Line(cfg, st) && (Out(st.server.pc) || (InReach(i, st.client) && !Waits(st.c.sq, i) && i !in SignalAt(st.journal)))
  }

  lemma NeverReadStep(cfg: Config, st: State, a: Action, i: nat)
    requires NeverRead(cfg, st, i) && Enabled(cfg, st, a)
    ensures NeverRead(cfg, Effect(cfg, st, a), i)
  {
    LineStep(cfg, st, a);
    if Out(st.server.pc) {
      OutRemains(cfg, st, a);
    } else if a.ClientRuns? || a.ClientIsRefused? || a.ClientPollFails? {
      ClientKeepsSlot(cfg, st, a, i);
    } else if a.ServerRuns? || a.ServerIsRefused? || a.ServerPollFails? {
      ServerLine(cfg, st, a);
    } else {
      NeverQueued(cfg, st, a, i);
    }
  }

  lemma OutRemains(cfg: Config, st: State, a: Action)
    requires Line(cfg, st) && Out(st.server.pc) && Enabled(cfg, st, a)
    ensures Out(Effect(cfg, st, a).server.pc)
  {
    if a.ServerRuns? {
      OutStays(cfg, st, SignalAt(st.journal));
    } else if a.ClientRuns? {
      ClientBlind(cfg, st, st.server.pc);
    } else if !ByProgram(a) {
      assert st == Masked(st, st.client.pc, st.server.pc);
      FabricBlind(cfg, st, st.client.pc, st.server.pc, a);
    }
  }

  lemma NeverQueued(cfg: Config, st: State, a: Action, i: nat)
    requires Line(cfg, st) && InReach(i, st.client) && !Waits(st.c.sq, i) && i !in SignalAt(st.journal)
    requires Enabled(cfg, st, a) && !ByProgram(a)
    ensures var t := Effect(cfg, st, a); InReach(i, t.client) && !Waits(t.c.sq, i) && i !in SignalAt(t.journal)
  {
    if a.DeliverToServer? || a.LoseAckClient? {
      NeverDelivered(cfg, st, a.DeliverToServer?, i);
    } else if a.FetchClient? {
      FetchWaits(st);
      NotFetchedIn(st, i);
    } else if a.FlushClientSend? {
      PopKeeps(cfg, st, i);
    } else if a.Intrude? {
      Extend(st.journal, Foreign(a.addr, a.data));
    } else if a.WriteLocal? {
      Extend(st.journal, Local(a.addr, a.data));
    }
  }

  lemma NotFetchedIn(st: State, i: nat)
    requires CanFetch(st.c) && !Waits(st.c.sq, i)
    ensures !Waits(Fetch(st.c, |st.journal|).sq, i)
  {
    var d := Fetch(st.c, |st.journal|);
    assert forall y :: 0 <= y < |d.sq| ==> d.sq[y].at == st.c.sq[y].at;
  }

  lemma NeverDelivered(cfg: Config, st: State, acked: bool, i: nat)
    requires Line(cfg, st) && InReach(i, st.client) && !Waits(st.c.sq, i) && i !in SignalAt(st.journal) && ToServerEnabled(cfg, st)
    ensures var t := ToServer(cfg, st, acked); InReach(i, t.client) && !Waits(t.c.sq, i) && i !in SignalAt(t.journal)
  {
    NoHello(cfg, st);
    PopKeeps(cfg, st, i);
    assert st.c.sq[0].at != i;
    if st.c.sq[0].wr.WrImm? {
      ImmIs(cfg, st, acked);
      Extend(st.journal, Signal(st.c.sq[0].at));
    } else {
      TransferLine(cfg, st, acked);
      assert SlotOk(cfg, st.cmds, st.client, st.journal, st.c.sq[0]);
      TransferIs(cfg, st, acked);
    }
  }

  lemma {:induction false} NeverReadRun(cfg: Config, st: State, acts: seq<Action>, end: State, i: nat)
    requires NeverRead(cfg, st, i) && Spares(cfg, st, acts, end, i)
    ensures !Reading(end, i)
    decreases |acts|
  {
    if acts != [] {
      NeverReadStep(cfg, st, acts[0], i);
      NeverReadRun(cfg, Effect(cfg, st, acts[0]), acts[1..], end, i);
    }
  }

  // The run up to the delivery of the message.

  /** The message of command `i` is next to be delivered, and can be. */
  ghost predicate AboutToLand(cfg: Config, st: State, i: nat) {
    Line(cfg, st) && ToServerEnabled(cfg, st) && st.c.sq[0].at == i && st.server.pc.SPollRecv?
  }

  /** From `st` to `t` the message of command `i` stays queued, and nothing is serialised. */
  lemma StaysQueued(cfg: Config, st: State, a: Action, i: nat)
    requires Line(cfg, st) && Waits(st.c.sq, i) && Enabled(cfg, st, a) && !Overwrites(st, a, i) && Waits(Effect(cfg, st, a).c.sq, i)
    ensures Effect(cfg, st, a).c.buf == st.c.buf
  {
    if a.ClientRuns? || a.ClientIsRefused? || a.ClientPollFails? {
      ClientBufferStays(cfg, st, a, i);
    } else if a.ServerRuns? || a.ServerIsRefused? || a.ServerPollFails? {
      ServerLine(cfg, st, a);
    } else if a.DeliverToServer? || a.LoseAckClient? {
      DeliveryLeavesBuffer(cfg, st, a.DeliverToServer?);
    } else {
      assert st.s.sq == [];
    }
  }

  lemma ClientBufferStays(cfg: Config, st: State, a: Action, i: nat)
    requires Line(cfg, st) && Waits(st.c.sq, i) && Enabled(cfg, st, a) && !Overwrites(st, a, i)
    requires (a.ClientRuns? || a.ClientIsRefused? || a.ClientPollFails?)
    ensures Effect(cfg, st, a).c.buf == st.c.buf
  {
    if a.ClientIsRefused? {
      RefusalSlides(cfg, st);
    } else if a.ClientPollFails? {
      BadPollSlides(cfg, st);
    } else if st.client.pc.CPost? {
      PostIs(cfg, st);
    } else {
      WorkerSlides(cfg, st);
    }
  }

  lemma DeliveryLeavesBuffer(cfg: Config, st: State, acked: bool)
    requires ToServerEnabled(cfg, st)
    ensures ToServer(cfg, st, acked).c.buf == st.c.buf
  {
  }

  /** The step that takes the queued message off the queue delivers it, if the server is to read it. */
  lemma LeavesByLanding(cfg: Config, st: State, a: Action, acts: seq<Action>, end: State, i: nat)
    requires Line(cfg, st) && Waits(st.c.sq, i) && InReach(i, st.client) && Enabled(cfg, st, a) && !Waits(Effect(cfg, st, a).c.sq, i)
    requires Spares(cfg, Effect(cfg, st, a), acts, end, i) && Reading(end, i) && i < |st.cmds| && Message(st.cmds[i])
    ensures AboutToLand(cfg, st, i)
  {
    QueuedNotArrived(cfg, st, i);
    if Out(st.server.pc) {
      OutRemains(cfg, st, a);
      LineStep(cfg, st, a);
      NeverReadRun(cfg, Effect(cfg, st, a), acts, end, i);
    } else if a.DeliverToServer? || a.LoseAckClient? {
      DeliversHead(cfg, st, a.DeliverToServer?, i);
      HeadIsMessage(cfg, st, i);
    } else {
      OnlyFlushed(cfg, st, a, i);
      LineStep(cfg, st, a);
      NeverReadRun(cfg, Effect(cfg, st, a), acts, end, i);
    }
  }

  lemma DeliversHead(cfg: Config, st: State, acked: bool, i: nat)
    requires Line(cfg, st) && Waits(st.c.sq, i) && ToServerEnabled(cfg, st) && !Waits(ToServer(cfg, st, acked).c.sq, i) && !Out(st.server.pc)
    ensures st.c.sq[0].at == i && (st.c.sq[0].wr.WrImm? ==> st.server.pc.SPollRecv?)
  {
    NoHello(cfg, st);
    PopKeeps(cfg, st, i);
    assert SlotOk(cfg, st.cmds, st.client, st.journal, st.c.sq[0]);
    if st.c.sq[0].wr.WrImm? {
      ImmIs(cfg, st, acked);
    } else {
      TransferIs(cfg, st, acked);
    }
  }

  /** Apart from deliveries only a flush removes a request. */
  lemma OnlyFlushed(cfg: Config, st: State, a: Action, i: nat)
    requires Line(cfg, st) && Waits(st.c.sq, i) && InReach(i, st.client) && Enabled(cfg, st, a) && !Waits(Effect(cfg, st, a).c.sq, i)
    requires !a.DeliverToServer? && !a.LoseAckClient? && i !in SignalAt(st.journal)
    ensures a.FlushClientSend? && InReach(i, Effect(cfg, st, a).client) && i !in SignalAt(Effect(cfg, st, a).journal)
  {
    if a.ClientRuns? || a.ClientIsRefused? || a.ClientPollFails? {
      ClientKeepsSlot(cfg, st, a, i);
    } else if a.ServerRuns? || a.ServerIsRefused? || a.ServerPollFails? {
      ServerLine(cfg, st, a);
    } else if a.FetchClient? {
      FetchWaits(st);
    } else {
      assert st.s.sq == [];
    }
  }

  lemma {:induction false} FindLanding(cfg: Config, st: State, acts: seq<Action>, end: State, i: nat) returns (pre: seq<Action>, mid: State)
    requires Line(cfg, st) && Letter(st.c, i) && i < |st.cmds| && Message(st.cmds[i]) && Spares(cfg, st, acts, end, i) && Reading(end, i)
    ensures Spares(cfg, st, pre, mid, i) && AboutToLand(cfg, mid, i) && mid.c.buf == st.c.buf && st.cmds <= mid.cmds
    ensures HeadFirst(cfg, st, pre, i)
    decreases |acts|
  {
    QueuedNotArrived(cfg, st, i);
    LetterReach(cfg, st, i);
    var next := Effect(cfg, st, acts[0]);
    if Waits(next.c.sq, i) {
      LineStep(cfg, st, acts[0]);
      StaysQueued(cfg, st, acts[0], i);
      CommandsGrow(cfg, st, acts[0]);
      StillLetter(cfg, next, i);
      pre, mid := FindLanding(cfg, next, acts[1..], end, i);
      SparesPrefix(cfg, st, acts[0], pre, mid, i);
      HeadFirstPrefix(cfg, st, acts[0], pre, i);
      pre := [acts[0]] + pre;
    } else {
      LeavesByLanding(cfg, st, acts[0], acts[1..], end, i);
      pre, mid := [], st;
    }
  }

  /** The message of command `i` is queued in every state before the last. */
  ghost predicate HeadFirst(cfg: Config, st: State, acts: seq<Action>, i: nat)
    decreases |acts|
  {
    Waits(st.c.sq, i) && (acts != [] ==> Enabled(cfg, st, acts[0]) && HeadFirst(cfg, Effect(cfg, st, acts[0]), acts[1..], i))
  }

  lemma HeadFirstPrefix(cfg: Config, st: State, a: Action, acts: seq<Action>, i: nat)
    requires Waits(st.c.sq, i) && Enabled(cfg, st, a) && HeadFirst(cfg, Effect(cfg, st, a), acts, i)
    ensures HeadFirst(cfg, st, [a] + acts, i)
  {
    assert ([a] + acts)[1..] == acts;
  }

  lemma LetterReach(cfg: Config, st: State, i: nat)
    requires Line(cfg, st) && Waits(st.c.sq, i)
    ensures InReach(i, st.client) && i < |st.cmds|
  {
    var y :| 0 <= y < |st.c.sq| && st.c.sq[y].at == i;
    assert SlotOk(cfg, st.cmds, st.client, st.journal, st.c.sq[y]);
  }

  lemma StillLetter(cfg: Config, st: State, i: nat)
    requires Line(cfg, st) && Waits(st.c.sq, i) && i < |st.cmds| && Message(st.cmds[i])
    ensures Letter(st.c, i)
  {
    var y :| 0 <= y < |st.c.sq| && st.c.sq[y].at == i;
    assert SlotOk(cfg, st.cmds, st.client, st.journal, st.c.sq[y]);
  }

  /** Decoding the size of one message out of a buffer yields it exactly if the buffer starts with it. */
  lemma ReadIff(cmd: Command, buf: seq<u8>)
    requires FitsBuffer(cmd) && |buf| == CPU_BUFFER_BASE_SIZE
    ensures var size := NotificationSize(NoteOf(cmd));
            DecodeNotification(buf[..size]) == Success(NoteOf(cmd)) <==> HoldsNote(cmd, buf)
  {
    var n := NoteOf(cmd);
    var size := NotificationSize(n);
    NotificationLayout(n);
    DecodeNotificationExact(buf[..size], n);
    if EncodeNotification(n) <= buf[..size] {
      assert buf[..size] == EncodeNotification(n);
    }
  }

  // Landing it, with the payload as it is or as the buffer now is.

  /** Delivered and polled with the payload it has, the message is read out of that payload. */
  lemma Land(cfg: Config, st: State, i: nat) returns (acts: seq<Action>, end: State)
    requires AboutToLand(cfg, st, i) && i < |st.cmds| && Message(st.cmds[i])
    ensures Spares(cfg, st, acts, end, i) && Reading(end, i) && end.cmds == st.cmds
    ensures st.c.sq[0].payload.Some? && end.s.buf == st.c.sq[0].payload.value
    ensures end.server.pc == SDecode(NotificationSize(NoteOf(st.cmds[i])))
  {
    var t := ToServer(cfg, st, true);
    LandIs(cfg, st, i);
    end := ServerStep(cfg, t);
    acts := [DeliverToServer] + ([ServerRuns] + []);
    SparesPrefix(cfg, t, ServerRuns, [], end, i);
    SparesPrefix(cfg, st, DeliverToServer, [ServerRuns] + [], end, i);
  }

  lemma LandIs(cfg: Config, st: State, i: nat)
    requires AboutToLand(cfg, st, i) && i < |st.cmds| && Message(st.cmds[i])
    ensures st.c.sq[0].payload.Some? && ServerEnabled(ToServer(cfg, st, true))
    ensures var end := ServerStep(cfg, ToServer(cfg, st, true));
            Reading(end, i) && end.cmds == st.cmds && end.s.buf == st.c.sq[0].payload.value
            && end.server.pc == SDecode(NotificationSize(NoteOf(st.cmds[i])))
  {
    var t := ToServer(cfg, st, true);
    MessageLanded(cfg, st, i);
    ReceiveIs(cfg, t, SignalAt(t.journal));
    ReadingNext(t, i);
  }

  lemma MessageLanded(cfg: Config, st: State, i: nat)
    requires AboutToLand(cfg, st, i) && i < |st.cmds| && Message(st.cmds[i])
    ensures st.c.sq[0].payload.Some?
    ensures var t := ToServer(cfg, st, true);
            InStep(t.s, t.server, SignalAt(t.journal)) && SignalAt(t.journal) == SignalAt(st.journal) + [i]
            && t.server.pc.SPollRecv? && |t.server.returned| == |SignalAt(st.journal)| && Pending(t.server.pc, t.s)
            && t.s.rcq[0].imm == NotificationSize(NoteOf(st.cmds[i])) && t.s.buf == st.c.sq[0].payload.value && t.cmds == st.cmds
  {
    HeadIsMessage(cfg, st, i);
    MessageWord(cfg, st.cmds[i]);
    ImmIs(cfg, st, true);
    Extend(st.journal, Signal(i));
    LandedThere(st, ToServer(cfg, st, true), i, st.c.sq[0].payload.value, NotificationSize(NoteOf(st.cmds[i])));
  }

  lemma LandedThere(st: State, t: State, i: nat, payload: seq<u8>, word: u32)
    requires InStep(st.s, st.server, SignalAt(st.journal)) && st.server.pc.SPollRecv? && st.s.rq != [] && |payload| == CPU_BUFFER_BASE_SIZE
    requires t.s == Arriving(st.s, payload, word) && t.server == st.server && SignalAt(t.journal) == SignalAt(st.journal) + [i]
    ensures InStep(t.s, t.server, SignalAt(t.journal)) && |t.server.returned| == |SignalAt(st.journal)| && Pending(t.server.pc, t.s)
    ensures t.s.rcq[0].imm == word && t.s.buf == payload
  {
    ArrivesInStep(st.s, st.server, SignalAt(st.journal), i, payload, word);
  }

  lemma ReadingNext(t: State, i: nat)
    requires t.s.rcq != [] && t.s.rcq[0].ok && SignalAt(t.journal) != [] && |t.server.returned| == |SignalAt(t.journal)| - 1
    requires SignalAt(t.journal)[|SignalAt(t.journal)| - 1] == i
    ensures Reading(SetServer(t, PollPc(t.s.rcq[0])).(s := PopReceived(t.s)), i)
  {
  }

  /** Fetched once more. */
  lemma FetchAgain(cfg: Config, st: State, i: nat)
    requires AboutToLand(cfg, st, i) && i < |st.cmds| && Message(st.cmds[i])
    ensures CanFetch(st.c)
    ensures var t := st.(c := Fetch(st.c, |st.journal|));
            AboutToLand(cfg, t, i) && t.c.sq[0].payload == Some(st.c.buf) && t.cmds == st.cmds
  {
    HeadIsMessage(cfg, st, i);
    FetchLine(cfg, st);
  }

  /** With anything but the message in the buffer, what lands can be misread. */
  lemma LandTorn(cfg: Config, st: State, i: nat) returns (acts: seq<Action>, end: State)
    requires AboutToLand(cfg, st, i) && i < |st.cmds| && Message(st.cmds[i]) && !HoldsNote(st.cmds[i], st.c.buf)
    ensures Spares(cfg, st, acts, end, i) && Misread(end, i)
  {
    FetchAgain(cfg, st, i);
    HeadIsMessage(cfg, st, i);
    var rest;
    rest, end := Land(cfg, st.(c := Fetch(st.c, |st.journal|)), i);
    ReadIff(st.cmds[i], end.s.buf);
    SparesPrefix(cfg, st, FetchClient, rest, end, i);
    acts := [FetchClient] + rest;
  }

  // A payload fetched at the wrong moment: the server comes to wait for it by its own steps.

  /** The server's own steps, `n` of them at most, bring it to wait for the next message. */
  ghost predicate ComesRound(cfg: Config, st: State, n: nat)
    decreases n
  {
    (st.server.pc.SPollRecv? && st.s.rq != [] && st.s.rcq == [])
    || (n > 0 && ServerEnabled(st) && ComesRound(cfg, ServerStep(cfg, st), n - 1))
  }

  predicate SameServer(u: State, v: State) {
    v.server == u.server && v.s == u.s.(mem := v.s.mem)
  }

  lemma SameServerStep(cfg: Config, u: State, v: State)
    requires SameServer(u, v) && ServerPhase(u.server.pc) >= 8 && ServerEnabled(u)
    ensures ServerEnabled(v) && SameServer(ServerStep(cfg, u), ServerStep(cfg, v))
  {
    if u.server.pc.SDecode? {
      DecodeIs(cfg, u);
      DecodeIs(cfg, v);
    } else if u.server.pc.SPollTable? {
      SameTableStep(cfg, u, v);
    } else if u.server.pc.SPollRecv? {
      SameReceiveStep(u, v);
    } else {
      SameLoopStep(u, v);
    }
  }

  lemma SameTableStep(cfg: Config, u: State, v: State)
    requires SameServer(u, v) && u.server.pc.SPollTable? && u.s.scq != []
    ensures SameServer(AcceptStep(cfg, u), AcceptStep(cfg, v))
  {
  }

  lemma SameReceiveStep(u: State, v: State)
    requires SameServer(u, v) && u.server.pc.SPollRecv? && u.s.rcq != []
    ensures SameServer(LoopStep(u), LoopStep(v))
  {
    if u.s.rcq[0].ok && u.s.rcq[0].op != OpRecvImm {
      SameDefault(u, v);
    } else {
      SamePopped(u, v);
    }
  }

  lemma SameDefault(u: State, v: State)
    requires SameServer(u, v) && u.server.pc.SPollRecv? && u.s.rcq != [] && u.s.rcq[0].ok && u.s.rcq[0].op != OpRecvImm
    ensures SameServer(LoopStep(u), LoopStep(v))
  {
  }

  lemma SamePopped(u: State, v: State)
    requires SameServer(u, v) && u.server.pc.SPollRecv? && u.s.rcq != [] && !(u.s.rcq[0].ok && u.s.rcq[0].op != OpRecvImm)
    ensures SameServer(LoopStep(u), LoopStep(v))
  {
  }

  lemma SameLoopStep(u: State, v: State)
    requires SameServer(u, v) && ServerEnabled(u) && !Accepting(u.server.pc) && !u.server.pc.SDecode? && !u.server.pc.SPollRecv?
    ensures SameServer(LoopStep(u), LoopStep(v))
  {
    if u.server.pc.SHandle? {
      SameHandleStep(u, v);
    } else if u.server.pc.SAdd? {
      SameAddStep(u, v);
    } else if u.server.pc.SPostRecv? || u.server.pc.SHangup? {
      SameNodeStep(u, v);
    } else {
      SameLockStep(u, v);
    }
  }

  lemma SameHandleStep(u: State, v: State)
    requires SameServer(u, v) && u.server.pc.SHandle?
    ensures SameServer(LoopStep(u), LoopStep(v))
  {
  }

  lemma SameAddStep(u: State, v: State)
    requires SameServer(u, v) && u.server.pc.SAdd?
    ensures SameServer(LoopStep(u), LoopStep(v))
  {
  }

  lemma SameNodeStep(u: State, v: State)
    requires SameServer(u, v) && (u.server.pc.SPostRecv? || u.server.pc.SHangup?)
    ensures SameServer(LoopStep(u), LoopStep(v))
  {
  }

  lemma SameLockStep(u: State, v: State)
    requires SameServer(u, v) && (u.server.pc.SLock? || u.server.pc.SEvict?)
    ensures SameServer(LoopStep(u), LoopStep(v))
  {
  }

  lemma {:induction false} SameRound(cfg: Config, u: State, v: State, n: nat)
    requires SameServer(u, v) && InStep(u.s, u.server, SignalAt(u.journal)) && ComesRound(cfg, u, n)
    ensures ComesRound(cfg, v, n)
    decreases n
  {
    if !ComesRound(cfg, u, 0) {
      SameServerStep(cfg, u, v);
      ServerInStep(cfg, u, SignalAt(u.journal));
      SameRound(cfg, ServerStep(cfg, u), ServerStep(cfg, v), n - 1);
    }
  }

  lemma {:induction false} OutNeverRound(cfg: Config, st: State, n: nat)
    requires InStep(st.s, st.server, SignalAt(st.journal)) && Out(st.server.pc)
    ensures !ComesRound(cfg, st, n)
    decreases n
  {
    if n > 0 && ServerEnabled(st) {
      OutStays(cfg, st, SignalAt(st.journal));
      ServerInStep(cfg, st, SignalAt(st.journal));
      OutNeverRound(cfg, ServerStep(cfg, st), n - 1);
    }
  }

  /** Both queue pairs are up. */
  predicate Up(st: State) {
    st.accepted && !st.c.err && !st.s.err
  }

  /** Where both queue pairs are still up, no action but the server's own step changes the server, unless it
      puts it out. */
  lemma ServerApart(cfg: Config, st: State, a: Action, i: nat)
    requires Line(cfg, st) && Waits(st.c.sq, i) && st.c.sq[0].at == i && i < |st.cmds| && Message(st.cmds[i])
    requires Enabled(cfg, st, a) && Waits(Effect(cfg, st, a).c.sq, i) && Up(Effect(cfg, st, a))
    ensures Up(st) && (a.ServerRuns? || Out(Effect(cfg, st, a).server.pc) || SameServer(st, Effect(cfg, st, a)))
  {
    if a.ClientRuns? || a.ClientIsRefused? || a.ClientPollFails? {
      ClientApart(cfg, st, a);
    } else if a.ServerRuns? || a.ServerIsRefused? || a.ServerPollFails? {
      ServerLine(cfg, st, a);
      ErrorsStay(cfg, st, a);
    } else if a.DeliverToServer? || a.LoseAckClient? {
      HeadIsMessage(cfg, st, i);
      ImmIs(cfg, st, a.DeliverToServer?);
      PopKeeps(cfg, st, i);
    } else {
      assert st.s.sq == [];
      FabricApart(cfg, st, a);
    }
  }

  lemma ClientApart(cfg: Config, st: State, a: Action)
    requires Line(cfg, st) && Enabled(cfg, st, a) && (a.ClientRuns? || a.ClientIsRefused? || a.ClientPollFails?) && Up(Effect(cfg, st, a))
    ensures Up(st) && SameServer(st, Effect(cfg, st, a))
  {
    if a.ClientIsRefused? {
      RefusalSlides(cfg, st);
    } else if a.ClientPollFails? {
      BadPollSlides(cfg, st);
    } else if st.client.pc.CPost? {
      PostIs(cfg, st);
    } else {
      WorkerSlides(cfg, st);
    }
  }

  lemma ErrorsStay(cfg: Config, st: State, a: Action)
    requires Line(cfg, st) && Enabled(cfg, st, a) && (a.ServerRuns? || a.ServerIsRefused? || a.ServerPollFails?) && Up(Effect(cfg, st, a))
    ensures Up(st) && (!a.ServerRuns? ==> Out(Effect(cfg, st, a).server.pc))
  {
    if a.ServerRuns? {
      ServerKeepsErrors(cfg, st);
    }
  }

  lemma ServerKeepsErrors(cfg: Config, st: State)
    requires ServerEnabled(st) && ServerPhase(st.server.pc) >= 8
    ensures st.s.err ==> ServerStep(cfg, st).s.err
    ensures ServerStep(cfg, st).accepted == st.accepted && ServerStep(cfg, st).c == st.c
  {
  }

  lemma FabricApart(cfg: Config, st: State, a: Action)
    requires Enabled(cfg, st, a) && !ByProgram(a) && !a.DeliverToServer? && !a.LoseAckClient? && st.s.sq == [] && Up(Effect(cfg, st, a))
    ensures Up(st) && SameServer(st, Effect(cfg, st, a))
  {
  }

  /** Out of the run that leads to the landing, the server's own steps lead to its wait. */
  lemma {:induction false} RoundFromRun(cfg: Config, st: State, pre: seq<Action>, mid: State, i: nat) returns (n: nat)
    requires Line(cfg, st) && st.c.sq != [] && st.c.sq[0].at == i && i < |st.cmds| && Message(st.cmds[i])
    requires Spares(cfg, st, pre, mid, i) && HeadFirst(cfg, st, pre, i) && AboutToLand(cfg, mid, i)
    ensures ComesRound(cfg, st, n) && Up(st)
    decreases |pre|
  {
    if pre == [] {
      HeadIsMessage(cfg, st, i);
      n := 0;
    } else {
      var next := Effect(cfg, st, pre[0]);
      LineStep(cfg, st, pre[0]);
      HeadStays(cfg, st, pre[0], i);
      CommandsGrow(cfg, st, pre[0]);
      n := RoundFromRun(cfg, next, pre[1..], mid, i);
      ServerApart(cfg, st, pre[0], i);
      if pre[0].ServerRuns? {
        n := n + 1;
      } else if Out(next.server.pc) {
        OutNeverRound(cfg, next, n);
      } else {
        SameRound(cfg, next, st, n);
      }
    }
  }

  /** The oldest request stays the oldest while it is queued. */
  lemma HeadStays(cfg: Config, st: State, a: Action, i: nat)
    requires Line(cfg, st) && st.c.sq != [] && st.c.sq[0].at == i && Enabled(cfg, st, a) && Waits(Effect(cfg, st, a).c.sq, i)
    ensures Effect(cfg, st, a).c.sq != [] && Effect(cfg, st, a).c.sq[0].at == i
  {
    if a.ClientRuns? || a.ClientIsRefused? || a.ClientPollFails? {
      HeadKept(cfg, st, a);
    } else if a.ServerRuns? || a.ServerIsRefused? || a.ServerPollFails? {
      ServerLine(cfg, st, a);
    } else if a.DeliverToServer? || a.LoseAckClient? {
      HeadGone(cfg, st, a.DeliverToServer?, i);
    } else if a.FlushClientSend? {
      PopKeeps(cfg, st, i);
    } else {
      assert st.s.sq == [];
    }
  }

  lemma HeadKept(cfg: Config, st: State, a: Action)
    requires Line(cfg, st) && st.c.sq != [] && Enabled(cfg, st, a) && (a.ClientRuns? || a.ClientIsRefused? || a.ClientPollFails?)
    ensures Effect(cfg, st, a).c.sq != [] && Effect(cfg, st, a).c.sq[0] == st.c.sq[0]
  {
    if a.ClientIsRefused? {
      RefusalSlides(cfg, st);
    } else if a.ClientPollFails? {
      BadPollSlides(cfg, st);
    } else if st.client.pc.CPost? {
      PostIs(cfg, st);
    } else {
      WorkerSlides(cfg, st);
    }
  }

  lemma HeadGone(cfg: Config, st: State, acked: bool, i: nat)
    requires Line(cfg, st) && ToServerEnabled(cfg, st) && st.c.sq[0].at == i
    ensures !Waits(ToServer(cfg, st, acked).c.sq, i)
  {
    NoHello(cfg, st);
    PopKeeps(cfg, st, i);
    assert SlotOk(cfg, st.cmds, st.client, st.journal, st.c.sq[0]);
    if st.c.sq[0].wr.WrImm? {
      ImmIs(cfg, st, acked);
    } else {
      TransferIs(cfg, st, acked);
    }
  }

  /** By the server's own steps, and no fetch, the oldest message is read out of the payload it has. */
  lemma {:induction false} LandAsIs(cfg: Config, st: State, i: nat, n: nat) returns (acts: seq<Action>, end: State)
    requires Line(cfg, st) && st.c.sq != [] && st.c.sq[0].at == i && i < |st.cmds| && Message(st.cmds[i])
    requires st.c.sq[0].payload.Some? && Up(st) && ComesRound(cfg, st, n)
    ensures Spares(cfg, st, acts, end, i) && Reading(end, i) && end.cmds == st.cmds
    ensures end.s.buf == st.c.sq[0].payload.value && end.server.pc == SDecode(NotificationSize(NoteOf(st.cmds[i])))
    decreases n
  {
    if ComesRound(cfg, st, 0) {
      HeadIsMessage(cfg, st, i);
      acts, end := Land(cfg, st, i);
    } else {
      var t := ServerStep(cfg, st);
      ServerLine(cfg, st, ServerRuns);
      RoundStaysUp(cfg, st, n);
      acts, end := LandAsIs(cfg, t, i, n - 1);
      SparesPrefix(cfg, st, ServerRuns, acts, end, i);
      acts := [ServerRuns] + acts;
    }
  }

  /** A server that comes round does not hang up on the way. */
  lemma RoundStaysUp(cfg: Config, st: State, n: nat)
    requires Line(cfg, st) && Up(st) && ComesRound(cfg, st, n) && !ComesRound(cfg, st, 0)
    ensures Up(ServerStep(cfg, st))
  {
    if st.server.pc.SHangup? {
      NoRoundAfterHangup(cfg, st, n);
    } else {
      StaysUp(cfg, st);
    }
  }

  lemma StaysUp(cfg: Config, st: State)
    requires ServerEnabled(st) && ServerPhase(st.server.pc) >= 8 && !st.server.pc.SHangup? && Up(st)
    ensures Up(ServerStep(cfg, st))
  {
  }

  lemma NoRoundAfterHangup(cfg: Config, st: State, n: nat)
    requires st.server.pc.SHangup?
    ensures !ComesRound(cfg, st, n)
  {
    if n > 0 {
      assert ServerStep(cfg, st).server.pc.SClosed?;
      assert !ComesRound(cfg, ServerStep(cfg, st), n - 1);
    }
  }

  /** A message whose buffer or payload was overwritten is misread in some continuation, if it is read in any. */
  lemma Torn(cfg: Config, st: State, acts: seq<Action>, end: State, i: nat) returns (more: seq<Action>, wrong: State)
    requires Line(cfg, st) && Letter(st.c, i) && i < |st.cmds| && Message(st.cmds[i]) && !Intact(st.cmds[i], st.c, i)
    requires Spares(cfg, st, acts, end, i) && Reading(end, i)
    ensures Spares(cfg, st, more, wrong, i) && Misread(wrong, i)
  {
    var pre, mid := FindLanding(cfg, st, acts, end, i);
    if !HoldsNote(st.cmds[i], st.c.buf) {
      var rest;
      rest, wrong := LandTorn(cfg, mid, i);
      SparesAppend(cfg, st, pre, mid, rest, wrong, i);
      more := pre + rest;
    } else {
      BadPayloadIsHead(cfg, st, i);
      var n := RoundFromRun(cfg, st, pre, mid, i);
      more, wrong := LandAsIs(cfg, st, i, n);
      HeadIsMessage(cfg, st, i);
      ReadIff(st.cmds[i], wrong.s.buf);
    }
  }

  lemma BadPayloadIsHead(cfg: Config, st: State, i: nat)
    requires Slots(cfg, st.cmds, st.client, st.journal, st.c.sq) && i < |st.cmds| && Message(st.cmds[i])
    requires HoldsNote(st.cmds[i], st.c.buf) && !Intact(st.cmds[i], st.c, i)
    ensures st.c.sq != [] && st.c.sq[0].at == i && st.c.sq[0].payload.Some? && !HoldsNote(st.cmds[i], st.c.sq[0].payload.value)
  {
  }

  /** The exact condition, in every reachable state and for every queued message: of the continuations that
      serialise nothing more over it and bring it to the server, some misreads it if and only if the buffer,
      or the payload already fetched from it, holds anything but that message. */
  lemma TornIff(cfg: Config, st: State, i: nat)
    requires Reachable(cfg, st) && Letter(st.c, i) && CanBeRead(cfg, st, i)
    ensures i < |st.cmds| && Message(st.cmds[i])
    ensures CanBeMisread(cfg, st, i) <==> !Intact(st.cmds[i], st.c, i)
  {
    LetterIsMessage(cfg, st, i);
    if Intact(st.cmds[i], st.c, i) {
      forall acts, end | SparesTo(cfg, st, acts, end, i)
        ensures !Misread(end, i)
      {
        WatchRun(cfg, st, acts, end, i);
        WatchedIsRead(cfg, end, i);
      }
    } else {
      var acts, end :| SparesTo(cfg, st, acts, end, i) && Reading(end, i);
      var more, wrong := Torn(cfg, st, acts, end, i);
      assert SparesTo(cfg, st, more, wrong, i);
    }
  }

  lemma LetterIsMessage(cfg: Config, st: State, i: nat)
    requires Reachable(cfg, st) && Letter(st.c, i)
    ensures Line(cfg, st) && Waits(st.c.sq, i) && i < |st.cmds| && Message(st.cmds[i]) && FitsBuffer(st.cmds[i]) && InReach(i, st.client)
  {
    var y :| 0 <= y < |st.c.sq| && st.c.sq[y].at == i && st.c.sq[y].wr.WrImm?;
    assert HasMessage(st.c);
    ReachableLine(cfg, st);
    assert SlotOk(cfg, st.cmds, st.client, st.journal, st.c.sq[y]);
  }

  /** There are such continuations for the oldest request of a connection that is up, with a server that
      comes round. */
  lemma OldestCanBeRead(cfg: Config, st: State, i: nat, n: nat)
    requires Reachable(cfg, st) && Letter(st.c, i) && st.c.sq[0].at == i && Up(st) && ComesRound(cfg, st, n)
    ensures CanBeRead(cfg, st, i)
  {
    LetterIsMessage(cfg, st, i);
    HeadIsMessage(cfg, st, i);
    FetchLine(cfg, st);
    var t := st.(c := Fetch(st.c, |st.journal|));
    SameRound(cfg, st, t, n);
    var acts, end := LandAsIs(cfg, t, i, n);
    SparesPrefix(cfg, st, FetchClient, acts, end, i);
    assert SparesTo(cfg, st, [FetchClient] + acts, end, i);
  }

  // A server whose loop is alive when the worker waits for a message does come round.

  /** The worker polls for the message of a `Complete`. */
  predicate AwaitsMessage(st: State) {
    st.client.pc.CPoll? && st.client.k < |st.cmds| && st.cmds[st.client.k].Complete?
  }

  function RoundLeft(pc: ServerPc, s: Node): nat {
    if pc.SPollRecv? then (if s.rcq == [] then 0 else 7) else if pc.SDecode? then 6 else if pc.SHandle? then 5 else if pc.SLock? then 4
    else if pc.SAdd? then 3 else if pc.SEvict? then 2 else if pc.SPostRecv? then 1 else 0
  }

  lemma {:induction false} MoreRounds(cfg: Config, st: State, n: nat, more: nat)
    requires ComesRound(cfg, st, n) && n <= more
    ensures ComesRound(cfg, st, more)
    decreases n
  {
    if !ComesRound(cfg, st, 0) {
      MoreRounds(cfg, ServerStep(cfg, st), n - 1, more - 1);
    }
  }

  /** No shutdown message has been returned while the worker waits for a message of its own. */
  lemma NotTold(cfg: Config, st: State)
    requires Worker(cfg, st) && ClientQueues(st.c, st.client.pc) && Inbox(st) && AwaitsMessage(st)
    ensures forall m :: 0 <= m < |st.server.returned| ==> st.server.returned[m].done == 0
  {
    var signals := SignalAt(st.journal);
    ReturnedEach(st.cmds, signals, st.server, st.s);
    SaneNow(cfg, st);
    UnpolledIsNow(st.c, st.client);
    LandedAtOrdered(OutcomesNow(st));
    SignalsInOrder(st.journal);
    NoneBefore(st.cmds, st.client);
    forall m | 0 <= m < |st.server.returned|
      ensures st.server.returned[m].done == 0
    {
      assert signals[m] in signals;
    }
  }

  lemma NoneBefore(cmds: seq<Command>, client: Client)
    requires Outcomes(cmds, client) && client.pc.CPoll? && client.k < |cmds|
    ensures forall i :: 0 <= i < client.k ==> !cmds[i].Disconnect?
  {
  }

  /** The server's step takes it on. */
  predicate CloserRound(st: State, t: State) {
    ServerPhase(t.server.pc) == 9 && RoundLeft(t.server.pc, t.s) < RoundLeft(st.server.pc, st.s) && !t.s.err
  }

  lemma LoopOn(st: State)
    requires Inbox(st) && ServerPhase(st.server.pc) == 9 && !st.s.err && !(st.server.pc.SPollRecv? && st.s.rcq == [])
    requires ServerQueues(st.s, st.server.pc, st.accepted)
    requires forall m :: 0 <= m < |st.server.returned| ==> st.server.returned[m].done == 0
    ensures ServerEnabled(st) && !Accepting(st.server.pc) && CloserRound(st, LoopStep(st))
  {
    if st.server.pc.SDecode? {
      DecodesArrived(st.cmds[SignalAt(st.journal)[|st.server.returned|]], st);
    } else if st.server.pc.SPollRecv? {
      PollingIsPop(st);
    } else {
      HandlesOn(st);
    }
  }

  lemma HandlesOn(st: State)
    requires Recorded(st.server) && ServerQueues(st.s, st.server.pc, st.accepted) && ServerPhase(st.server.pc) == 9 && !st.s.err
    requires !st.server.pc.SPollRecv? && !st.server.pc.SDecode?
    requires forall m :: 0 <= m < |st.server.returned| ==> st.server.returned[m].done == 0
    ensures ServerEnabled(st) && CloserRound(st, LoopStep(st))
  {
    if st.server.pc.SHandle? {
      HandleOn(st);
    } else {
      AddsOn(st);
    }
  }

  lemma HandleOn(st: State)
    requires st.server.pc.SHandle? && st.server.note.done == 0 && !st.s.err
    ensures CloserRound(st, LoopStep(st))
  {
  }

  lemma AddsOn(st: State)
    requires Recorded(st.server) && ServerPhase(st.server.pc) == 9 && !st.s.err && st.s.rcq == []
    requires !st.server.pc.SPollRecv? && !st.server.pc.SDecode? && !st.server.pc.SHandle?
    requires forall m :: 0 <= m < |st.server.returned| ==> st.server.returned[m].done == 0
    ensures ServerEnabled(st) && CloserRound(st, LoopStep(st))
  {
  }

  lemma {:induction false} AliveComesRound(cfg: Config, st: State)
    requires Core(cfg, st) && AwaitsMessage(st) && ServerPhase(st.server.pc) == 9 && !st.s.err
    ensures ComesRound(cfg, st, RoundLeft(st.server.pc, st.s))
    decreases RoundLeft(st.server.pc, st.s)
  {
    if st.server.pc.SPollRecv? && st.s.rcq == [] {
      assert ServerQueues(st.s, st.server.pc, st.accepted);
    } else {
      NotTold(cfg, st);
      LoopOn(st);
      LoopsQuietly(st);
      LoopKeeps(cfg, st);
      var t := LoopStep(st);
      AliveComesRound(cfg, t);
      MoreRounds(cfg, t, RoundLeft(t.server.pc, t.s), RoundLeft(st.server.pc, st.s) - 1);
    }
  }

  /** What the server then makes of it: the later message, if it is not longer; and if it is, nothing that
      decodes, so that the server panics. */
  lemma WhatIsRead(cmd: Command, later: Command, buf: seq<u8>)
    requires cmd.Complete? && FitsBuffer(cmd) && HoldsNote(later, buf)
    ensures var size := NotificationSize(NoteOf(cmd));
            DecodeNotification(buf[..size]) ==
            if NotificationSize(NoteOf(later)) <= size then Success(NoteOf(later)) else Failure(UnexpectedEnd)
  {
    var n, size := NoteOf(later), NotificationSize(NoteOf(cmd));
    NotificationLayout(n);
    if NotificationSize(n) <= size {
      assert buf[..size][..NotificationSize(n)] == EncodeNotification(n);
      DecodeNotificationExact(buf[..size], n);
    } else {
      TooShort(n, buf, size);
    }
  }

  lemma TooShort(n: Notification, buf: seq<u8>, size: nat)
    requires n.reqId.Some? && 13 <= size < NotificationSize(n) <= |buf| && |n.reqId.value| < 0x1_0000_0000_0000_0000
    requires buf[..NotificationSize(n)] == EncodeNotification(n)
    ensures DecodeNotification(buf[..size]) == Failure(UnexpectedEnd)
  {
    Ranges();
    NotificationLayout(n);
    var e, s := EncodeNotification(n), buf[..size];
    FromLEInverse(|n.reqId.value|, 8);
    assert s[4] == buf[4] == buf[..NotificationSize(n)][4] == e[4];
    assert s[5..13] == buf[5..13] == buf[..NotificationSize(n)][5..13] == e[5..13];
  }
}
