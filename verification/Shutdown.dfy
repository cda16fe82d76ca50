/** The end of a connection: what the server has returned when it is told to stop, that it comes to that
    point, and that nothing happens afterwards. */
module Shutdown {
  import opened Bytes
  import opened Wrappers
  import opened Codec
  import opened Commands
  import opened Journal
  import opened Protocol
  import opened Invariant
  import opened Preservation
  import opened Shadows
  import opened Theorems
  import opened Delivery
  import opened Reports

  // ----- What the server has returned

  lemma {:induction false} IdsOfNotes(cmds: seq<Command>)
    ensures IdsOf(Notes(cmds)) == CompletedIds(cmds)
  {
    if cmds != [] {
      var n := |cmds| - 1;
      IdsOfNotes(cmds[..n]);
      var before := Notes(cmds[..n]);
      if Message(cmds[n]) {
        assert Notes(cmds)[..|before|] == before;
        assert cmds[n].Disconnect? ==> IdsOf(before) + [] == IdsOf(before);
      } else {
        assert before + [] == before;
      }
    }
  }

  /** The last landed command is a message and nothing failed before it: all messages up to it landed. */
  lemma LandedUpTo(cmds: seq<Command>, outs: seq<Outcome>)
    requires Sane(cmds, outs) && NoRefusal(outs) && outs != [] && Landed(outs[|outs| - 1])
    ensures LandedNotes(cmds, outs) == Notes(cmds[..|outs|])
  {
    var n := |outs| - 1;
    assert Sane(cmds, outs[..n]) && NoRefusal(outs[..n]) && NoFailure(outs[..n]);
    LandedNotesPrefix(cmds, outs[..n]);
    assert cmds[..|outs|][..n] == cmds[..n];
  }

  /** The server has been told to stop. */
  predicate Stopped(pc: ServerPc) {
    pc == SHangup(true) || pc == SClosed(true)
  }

  lemma StopMessage(cfg: Config, st: State) returns (p: nat)
    requires Core(cfg, st) && Stopped(st.server.pc)
    ensures p < |st.cmds| && st.cmds[p].Disconnect? && p + 1 == |OutcomesNow(st)| && Landed(OutcomesNow(st)[p])
    ensures forall i :: 0 <= i < p ==> !st.cmds[i].Disconnect?
    ensures |SignalAt(st.journal)| == |st.server.returned|
  {
    var signals := SignalAt(st.journal);
    ReturnedEach(st.cmds, signals, st.server, st.s);
    StopIsLast(st.server);
    var n := |st.server.returned| - 1;
    p := signals[n];
    SignalIsOwn(st.journal, n);
    var q :| 0 <= q < |st.journal| && st.journal[q] == Signal(p);
    OwnHas(st.journal, q);
    SaneNow(cfg, st);
    LandedAtOrdered(OutcomesNow(st));
    StopsThere(cfg, st, p);
    assert !Pending(st.server.pc, st.s);
  }

  lemma StopIsLast(server: Server)
    requires Recorded(server) && Stopped(server.pc)
    ensures server.returned != [] && server.returned[|server.returned| - 1].done > 0
    ensures server.recorded == IdsOf(server.returned)
  {
  }

  lemma StopsThere(cfg: Config, st: State, p: nat)
    requires Worker(cfg, st) && ClientQueues(st.c, st.client.pc)
    requires p < |OutcomesNow(st)| && p < |st.cmds| && st.cmds[p].Disconnect?
    ensures p + 1 == |OutcomesNow(st)|
    ensures forall i :: 0 <= i < p ==> !st.cmds[i].Disconnect?
  {
    UnpolledIsNow(st.c, st.client);
    assert Outcomes(st.cmds, st.client);
  }

  /** When the server stops on the shutdown message of a client whose posts were never refused, it has
      returned exactly the messages up to that of the first `Disconnect`, in order, and recorded exactly
      the ids completed before it; the only message with `done = 1` is the last. */
  lemma CleanShutdown(cfg: Config, st: State) returns (p: nat)
    requires Sound(cfg, st) && Stopped(st.server.pc) && NoRefusal(st.client.outs)
    ensures p < |st.cmds| && st.cmds[p].Disconnect? && forall i :: 0 <= i < p ==> !st.cmds[i].Disconnect?
    ensures st.server.returned == Notes(st.cmds[..p]) + [Notification(1, None)]
    ensures st.server.recorded == CompletedIds(st.cmds[..p])
  {
    var u := ReachableInv(cfg, st);
    p := CleanStop(cfg, u);
  }

  lemma CleanStop(cfg: Config, st: State) returns (p: nat)
    requires Core(cfg, st) && Stopped(st.server.pc) && NoRefusal(st.client.outs)
    ensures p < |st.cmds| && st.cmds[p].Disconnect? && forall i :: 0 <= i < p ==> !st.cmds[i].Disconnect?
    ensures st.server.returned == Notes(st.cmds[..p]) + [ShutdownNotification]
    ensures st.server.recorded == CompletedIds(st.cmds[..p])
  {
    p := StopMessage(cfg, st);
    ReturnedIsAllLanded(cfg, st);
    SaneAndUnrefused(cfg, st);
    StopIsLast(st.server);
    RecordedUpToStop(st.cmds, OutcomesNow(st), p, st.server.returned);
  }

  lemma SaneAndUnrefused(cfg: Config, st: State)
    requires Core(cfg, st) && NoRefusal(st.client.outs)
    ensures Sane(st.cmds, OutcomesNow(st)) && NoRefusal(OutcomesNow(st))
  {
    SaneNow(cfg, st);
  }

  lemma RecordedUpToStop(cmds: seq<Command>, outs: seq<Outcome>, p: nat, returned: seq<Notification>)
    requires Sane(cmds, outs) && NoRefusal(outs) && p + 1 == |outs| && Landed(outs[p]) && cmds[p].Disconnect?
    requires returned == LandedNotes(cmds, outs)
    ensures returned == Notes(cmds[..p]) + [ShutdownNotification] && IdsOf(returned) == CompletedIds(cmds[..p])
  {
    NotesUpToStop(cmds, outs, p);
    IdsOfStop(Notes(cmds[..p]));
    IdsOfNotes(cmds[..p]);
  }

  lemma NotesUpToStop(cmds: seq<Command>, outs: seq<Outcome>, p: nat)
    requires Sane(cmds, outs) && NoRefusal(outs) && p + 1 == |outs| && Landed(outs[p]) && cmds[p].Disconnect?
    ensures LandedNotes(cmds, outs) == Notes(cmds[..p]) + [ShutdownNotification]
  {
    LandedUpTo(cmds, outs);
    NotesOfStop(cmds, p);
  }

  /** The shutdown message asks for nothing to be recorded. */
  lemma IdsOfStop(ns: seq<Notification>)
    ensures IdsOf(ns + [ShutdownNotification]) == IdsOf(ns)
  {
    assert (ns + [ShutdownNotification])[..|ns|] == ns;
    assert IdsOf(ns) + [] == IdsOf(ns);
  }

  lemma ReturnedIsAllLanded(cfg: Config, st: State)
    requires Core(cfg, st) && |SignalAt(st.journal)| == |st.server.returned|
    ensures |OutcomesNow(st)| <= |st.cmds|
    ensures st.server.returned == LandedNotes(st.cmds, OutcomesNow(st))
  {
    SaneNow(cfg, st);
    SignalNotes(cfg, st.cmds, st.journal);
    LandedAtNotes(st.cmds, OutcomesNow(st));
    NotesAtEach(st.cmds, SignalAt(st.journal));
    ReturnedEach(st.cmds, SignalAt(st.journal), st.server, st.s);
  }

  lemma NotesOfStop(cmds: seq<Command>, p: nat)
    requires p < |cmds| && cmds[p].Disconnect?
    ensures Notes(cmds[..p + 1]) == Notes(cmds[..p]) + [ShutdownNotification]
    ensures CompletedIds(cmds[..p + 1]) == CompletedIds(cmds[..p])
  {
    assert cmds[..p + 1][..p] == cmds[..p];
    assert CompletedIds(cmds[..p]) + [] == CompletedIds(cmds[..p]);
  }

  lemma StoppedByCommand(cmds: seq<Command>, client: Client)
    requires Outcomes(cmds, client) && (client.pc.CHangup? || client.pc.CDone?)
    ensures 0 < client.k <= |cmds| && |client.outs| == client.k
    ensures cmds[client.k - 1].Disconnect? && client.outs[client.k - 1].Ok?
  {
  }

  /** Before the client disconnects, its shutdown message has landed at the server. */
  lemma ShutdownLandsFirst(cfg: Config, st: State)
    requires Sound(cfg, st) && (st.client.pc.CHangup? || st.client.pc.CDone?)
    ensures 0 < st.client.k <= |st.cmds| && st.cmds[st.client.k - 1].Disconnect?
    ensures st.client.k - 1 in SignalAt(st.journal)
  {
    SoundClient(cfg, st);
    LastIsTold(cfg, st);
  }

  lemma LastIsTold(cfg: Config, st: State)
    requires Worker(cfg, st) && ClientQueues(st.c, st.client.pc) && JournalOk(cfg, st.cmds, st.journal)
    requires st.client.pc.CHangup? || st.client.pc.CDone?
    ensures 0 < st.client.k <= |st.cmds| && st.cmds[st.client.k - 1].Disconnect?
    ensures st.client.k - 1 in SignalAt(st.journal)
  {
    StoppedByCommand(st.cmds, st.client);
    FinishedTells(cfg, st, st.client.k - 1);
  }

  // ----- The client has said everything, and the server comes to know it

  /** When the client's worker has ended, every message up to its `Disconnect` has landed, unless a post
      was refused; the server has returned all of them, or all but the last. */
  lemma ClientSaidAll(cfg: Config, st: State)
    requires Sound(cfg, st) && (st.client.pc.CHangup? || st.client.pc.CDone?) && NoRefusal(st.client.outs)
    ensures 0 < st.client.k <= |st.cmds| && |OutcomesNow(st)| == st.client.k && st.cmds[st.client.k - 1].Disconnect?
    ensures LandedNotes(st.cmds, OutcomesNow(st)) == Notes(st.cmds[..st.client.k])
    ensures Notes(st.cmds[..st.client.k]) == Notes(st.cmds[..st.client.k - 1]) + [ShutdownNotification]
    ensures st.server.returned == Notes(st.cmds[..st.client.k]) || st.server.returned == Notes(st.cmds[..st.client.k - 1])
  {
    var u := ReachableInv(cfg, st);
    SaidAll(cfg, u);
    ReturnedOrLast(cfg, u);
    LastMissing(u.server.returned, Notes(st.cmds[..st.client.k - 1]), ShutdownNotification);
  }

  lemma SaidAll(cfg: Config, st: State)
    requires Worker(cfg, st) && ClientQueues(st.c, st.client.pc) && (st.client.pc.CHangup? || st.client.pc.CDone?)
    requires NoRefusal(st.client.outs)
    ensures 0 < st.client.k <= |st.cmds| && |OutcomesNow(st)| == st.client.k && st.cmds[st.client.k - 1].Disconnect?
    ensures LandedNotes(st.cmds, OutcomesNow(st)) == Notes(st.cmds[..st.client.k])
    ensures Notes(st.cmds[..st.client.k]) == Notes(st.cmds[..st.client.k - 1]) + [ShutdownNotification]
  {
    StoppedByCommand(st.cmds, st.client);
    NothingUnpolled(st.c, st.client.pc);
    SaneNow(cfg, st);
    LandedUpTo(st.cmds, OutcomesNow(st));
    NotesOfStop(st.cmds, st.client.k - 1);
  }

  lemma NothingUnpolled(c: Node, pc: ClientPc)
    requires ClientQueues(c, pc) && !pc.CPoll? && !pc.CPollSent?
    ensures !Unpolled(c)
  {
  }

  lemma LastMissing(a: seq<Notification>, b: seq<Notification>, n: Notification)
    requires a <= b + [n] && |b| <= |a|
    ensures a == b || a == b + [n]
  {
  }

  /** At most the last landed message is yet to be returned. */
  lemma ReturnedOrLast(cfg: Config, st: State)
    requires Core(cfg, st)
    ensures |OutcomesNow(st)| <= |st.cmds|
    ensures st.server.returned <= LandedNotes(st.cmds, OutcomesNow(st))
    ensures |LandedNotes(st.cmds, OutcomesNow(st))| <= |st.server.returned| + 1
  {
    SaneNow(cfg, st);
    SignalNotes(cfg, st.cmds, st.journal);
    LandedAtNotes(st.cmds, OutcomesNow(st));
    NotesAtEach(st.cmds, SignalAt(st.journal));
    ReturnedEach(st.cmds, SignalAt(st.journal), st.server, st.s);
  }

  /** What the server does next leads to its stop: it has the shutdown message in hand. */
  predicate StopAhead(server: Server, s: Node) {
    match server.pc
    case SPollRecv =>
      s.rcq != [] && s.rcq[0].ok && s.rcq[0].op == OpRecvImm && ReadsStop(s.buf, s.rcq[0].imm)
    case SDecode(size) => ReadsStop(s.buf, size)
    case SHandle => server.note.done > 0
    case _ => Stopped(server.pc)
  }

  predicate ReadsStop(buf: seq<u8>, size: nat) {
    size <= |buf| && DecodeNotification(buf[..size]).Success? && DecodeNotification(buf[..size]).value.done > 0
  }

  /** The shutdown message has landed, nothing more is to come, and the server's loop is alive. */
  predicate Ending(st: State) {
    Gone(st.client.pc) && st.c.sq == [] && StopAhead(st.server, st.s)
  }

  /** How many steps the server is from stopping. */
  function StopLeft(pc: ServerPc): nat {
    if pc.SPollRecv? then 3 else if pc.SDecode? then 2 else if pc.SHandle? then 1 else 0
  }

  lemma EndingServerStep(cfg: Config, st: State)
    requires Ending(st) && !Stopped(st.server.pc)
    ensures ServerEnabled(st) && StopAhead(ServerStep(cfg, st).server, ServerStep(cfg, st).s)
    ensures StopLeft(ServerStep(cfg, st).server.pc) < StopLeft(st.server.pc)
  {
    if st.server.pc.SDecode? {
      DecodesStop(cfg, st);
    } else if st.server.pc.SPollRecv? {
      PollsStop(cfg, st);
    }
  }

  lemma DecodesStop(cfg: Config, st: State)
    requires st.server.pc.SDecode? && ReadsStop(st.s.buf, st.server.pc.size)
    ensures ServerStep(cfg, st).server.pc == SHandle && ServerStep(cfg, st).server.note.done > 0
  {
  }

  lemma PollsStop(cfg: Config, st: State)
    requires st.server.pc.SPollRecv? && st.s.rcq != [] && st.s.rcq[0].ok && st.s.rcq[0].op == OpRecvImm
    ensures ServerStep(cfg, st).server.pc == SDecode(st.s.rcq[0].imm) && ServerStep(cfg, st).s.buf == st.s.buf
  {
  }

  /** No action takes the server off its way, and its own steps take it on. */
  lemma EndingStep(cfg: Config, st: State, a: Action)
    requires Ending(st) && Enabled(cfg, st, a) && !a.ServerPollFails?
    ensures Ending(Effect(cfg, st, a))
    ensures StopLeft(Effect(cfg, st, a).server.pc) + (if a.ServerRuns? then 1 else 0) <= StopLeft(st.server.pc)
            || StopLeft(Effect(cfg, st, a).server.pc) == StopLeft(st.server.pc) == 0
  {
    QuietWhenGone(cfg, st, a);
    if a.ServerRuns? {
      if Stopped(st.server.pc) { HangsUpStopped(cfg, st); } else { EndingServerStep(cfg, st); }
    } else {
      ServerStays(cfg, st, a);
      InHand(cfg, st, a);
    }
  }

  lemma HangsUpStopped(cfg: Config, st: State)
    requires Stopped(st.server.pc) && ServerEnabled(st)
    ensures Stopped(ServerStep(cfg, st).server.pc)
  {
  }

  /** Only the server's own program moves its counter. */
  lemma ServerStays(cfg: Config, st: State, a: Action)
    requires Enabled(cfg, st, a) && !a.ServerRuns? && !a.ServerPollFails? && StopAhead(st.server, st.s)
    ensures Effect(cfg, st, a).server == st.server
  {
    if a.ClientRuns? {
      ClientBlind(cfg, st, st.server.pc);
    } else if !ByProgram(a) {
      assert st == Masked(st, st.client.pc, st.server.pc);
      FabricBlind(cfg, st, st.client.pc, st.server.pc, a);
    }
  }

  /** What the server has in hand stays as it is while nothing can be delivered to it. */
  lemma InHand(cfg: Config, st: State, a: Action)
    requires Enabled(cfg, st, a) && !a.ServerRuns? && !a.ServerPollFails? && st.c.sq == []
    ensures var t := Effect(cfg, st, a); t.s.buf == st.s.buf && (st.s.rcq != [] ==> t.s.rcq != [] && t.s.rcq[0] == st.s.rcq[0])
  {
    if a.ClientRuns? {
      if Connecting(st.client.pc) { ConnectsQuietly(cfg, st); } else { WorksQuietly(cfg, st); }
    } else if a.DeliverToClient? || a.LoseAckServer? {
      ReplyLeaves(cfg, st, a.DeliverToClient?);
    }
  }

  lemma ReplyLeaves(cfg: Config, st: State, acked: bool)
    requires ToClientEnabled(cfg, st)
    ensures ToClient(cfg, st, acked).s.buf == st.s.buf && ToClient(cfg, st, acked).s.rcq == st.s.rcq
  {
  }

  function ServerSteps(acts: seq<Action>): nat {
    if acts == [] then 0 else (if acts[0].ServerRuns? then 1 else 0) + ServerSteps(acts[1..])
  }

  predicate NoServerPollFails(acts: seq<Action>) {
    forall i :: 0 <= i < |acts| ==> !acts[i].ServerPollFails?
  }

  lemma {:induction false} EndingRun(cfg: Config, st: State, acts: seq<Action>, end: State)
    requires Ending(st) && Run(cfg, st, acts, end) && NoServerPollFails(acts)
    ensures Ending(end)
    ensures StopLeft(st.server.pc) <= ServerSteps(acts) ==> StopLeft(end.server.pc) == 0
    decreases |acts|
  {
    if acts != [] {
      EndingStep(cfg, st, acts[0]);
      EndingRun(cfg, Effect(cfg, st, acts[0]), acts[1..], end);
    }
  }

  /** The shutdown message reaches its end whatever else happens: once the client's worker has ended and
      the server's loop is alive, the server can always take a step until it stops, and every run with
      three of its steps in it, none of them a failed poll, has stopped it. */
  lemma ShutdownArrives(cfg: Config, st: State, acts: seq<Action>, end: State)
    requires Sound(cfg, st) && (st.client.pc.CHangup? || st.client.pc.CDone?) && ServerPhase(st.server.pc) == 9
    requires Run(cfg, st, acts, end) && NoServerPollFails(acts)
    ensures Stopped(end.server.pc) || ServerEnabled(end)
    ensures ServerSteps(acts) >= 3 ==> Stopped(end.server.pc)
  {
    AliveIsCore(cfg, st);
    EndsHere(cfg, st);
    EndingRun(cfg, st, acts, end);
    if !Stopped(end.server.pc) {
      EndingServerStep(cfg, end);
    }
  }

  lemma EndsHere(cfg: Config, st: State)
    requires Core(cfg, st) && (st.client.pc.CHangup? || st.client.pc.CDone?) && ServerPhase(st.server.pc) == 9
    ensures Ending(st)
  {
    StoppedByCommand(st.cmds, st.client);
    FinishedTells(cfg, st, st.client.k - 1);
    NothingUnpolled(st.c, st.client.pc);
    LastSignal(cfg, st);
    StopIsAhead(st.cmds, SignalAt(st.journal), st.server, st.s);
    assert ClientQueues(st.c, st.client.pc);
  }

  /** The last message is the shutdown message, and it is in the server's hands or has been. */
  lemma StopIsAhead(cmds: seq<Command>, signals: seq<nat>, server: Server, s: Node)
    requires Arrived(cmds, signals, server, s) && Recorded(server) && ServerPhase(server.pc) == 9
    requires signals != [] && cmds[Newest(signals)].Disconnect?
    ensures StopAhead(server, s)
  {
    if Pending(server.pc, s) {
      NoteReads(cmds[Newest(signals)], s.buf);
    } else {
      EndingReturned(cmds, signals, server, s);
    }
  }

  lemma EndingReturned(cmds: seq<Command>, signals: seq<nat>, server: Server, s: Node)
    requires Arrived(cmds, signals, server, s) && signals != [] && cmds[Newest(signals)].Disconnect? && !Pending(server.pc, s)
    ensures server.returned != [] && server.returned[|server.returned| - 1].done > 0
  {
  }

  function Newest(s: seq<nat>): nat
    requires s != []
  {
    s[|s| - 1]
  }

  lemma LastSignal(cfg: Config, st: State)
    requires Worker(cfg, st) && ClientQueues(st.c, st.client.pc) && |OutcomesNow(st)| == st.client.k > 0
    requires st.client.k - 1 in SignalAt(st.journal)
    ensures SignalAt(st.journal) != [] && Newest(SignalAt(st.journal)) == st.client.k - 1
  {
    SaneNow(cfg, st);
    LandedAtOrdered(OutcomesNow(st));
    SignalsInOrder(st.journal);
    var signals := SignalAt(st.journal);
    var n :| 0 <= n < |signals| && signals[n] == st.client.k - 1;
    assert Newest(signals) in signals;
  }

  // ----- Afterwards

  /** The client program has sent its shutdown message or has died. */
  predicate Gone(pc: ClientPc) {
    pc.CHangup? || pc.CDone? || pc.CDead?
  }

  /** What a dead program may have left on its queue: the message whose poll failed. */
  predicate Lingers(c: Node) {
    |c.sq| <= 1 && (c.sq != [] ==> c.sq[0].wr.WrHello? || c.sq[0].wr.WrImm?)
  }

  /** From `st` to `t` the client has done nothing, and of what it had done before only a message left on
      its queue may have taken effect. */
  predicate Undone(st: State, t: State) {
    t.client.k == st.client.k && t.client.outs == st.client.outs && st.cmds <= t.cmds
    && (t.c.sq != [] ==> st.c.sq != [] && t.c.sq[0].at == st.c.sq[0].at)
    && ((OwnAt(t.journal) == OwnAt(st.journal) && SignalAt(t.journal) == SignalAt(st.journal))
        || (st.c.sq != [] && t.c.sq == []
            && OwnAt(t.journal) == OwnAt(st.journal) + [st.c.sq[0].at] && SignalAt(t.journal) == SignalAt(st.journal) + [st.c.sq[0].at]))
  }

  lemma QuietWhenGone(cfg: Config, st: State, a: Action)
    requires Gone(st.client.pc) && Lingers(st.c) && Enabled(cfg, st, a)
    ensures var t := Effect(cfg, st, a); Gone(t.client.pc) && Lingers(t.c) && Undone(st, t)
    ensures !a.Intrude? ==> Effect(cfg, st, a).s.mem == st.s.mem
    ensures !a.WriteLocal? ==> Effect(cfg, st, a).c.mem == st.c.mem
  {
    if a.ServerRuns? {
      ServerWhenGone(cfg, st);
    } else if a.DeliverToClient? || a.LoseAckServer? {
      ReplyWhenGone(cfg, st, a.DeliverToClient?);
    } else if a.DeliverToServer? || a.LoseAckClient? {
      MessageWhenGone(cfg, st, a.DeliverToServer?);
    } else if a.Intrude? || a.WriteLocal? {
      OthersWhenGone(cfg, st, a);
    } else {
      RestWhenGone(cfg, st, a);
    }
  }

  lemma ServerWhenGone(cfg: Config, st: State)
    requires ServerEnabled(st)
    ensures var t := ServerStep(cfg, st);
            t.client == st.client && t.cmds == st.cmds && t.c.sq == st.c.sq && t.c.mem == st.c.mem && t.s.mem == st.s.mem
            && t.journal == st.journal
  {
    if Accepting(st.server.pc) { AcceptsQuietly(cfg, st); } else { LoopsQuietly(st); }
  }

  lemma OthersWhenGone(cfg: Config, st: State, a: Action)
    requires Gone(st.client.pc) && Lingers(st.c) && Enabled(cfg, st, a) && (a.Intrude? || a.WriteLocal?)
    ensures var t := Effect(cfg, st, a); Gone(t.client.pc) && Lingers(t.c) && Undone(st, t)
    ensures !a.Intrude? ==> Effect(cfg, st, a).s.mem == st.s.mem
    ensures !a.WriteLocal? ==> Effect(cfg, st, a).c.mem == st.c.mem
  {
    WriteWhenGone(st, if a.Intrude? then Foreign(a.addr, a.data) else Local(a.addr, a.data));
  }

  lemma RestWhenGone(cfg: Config, st: State, a: Action)
    requires Gone(st.client.pc) && Lingers(st.c) && Enabled(cfg, st, a)
    requires !a.ServerRuns? && !a.DeliverToClient? && !a.LoseAckServer? && !a.DeliverToServer? && !a.LoseAckClient?
    requires !a.Intrude? && !a.WriteLocal?
    ensures var t := Effect(cfg, st, a);
            Gone(t.client.pc) && Lingers(t.c) && Undone(st, t) && t.s.mem == st.s.mem && t.c.mem == st.c.mem
  {
    if a.ClientRuns? || a.ClientIsRefused? || a.ClientPollFails? {
      ClientWhenGone(cfg, st, a);
    } else if a.FetchClient? || a.FlushClientSend? || a.FlushClientRecv? {
      QueueWhenGone(cfg, st, a);
    }
  }

  lemma ClientWhenGone(cfg: Config, st: State, a: Action)
    requires Gone(st.client.pc) && Enabled(cfg, st, a) && (a.ClientRuns? || a.ClientIsRefused? || a.ClientPollFails?)
    ensures var t := Effect(cfg, st, a);
            Gone(t.client.pc) && t.client.k == st.client.k && t.client.outs == st.client.outs && t.cmds == st.cmds
            && t.c.sq == st.c.sq && t.c.mem == st.c.mem && t.s == st.s && t.journal == st.journal
  {
  }

  lemma QueueWhenGone(cfg: Config, st: State, a: Action)
    requires Gone(st.client.pc) && Lingers(st.c) && Enabled(cfg, st, a) && (a.FetchClient? || a.FlushClientSend? || a.FlushClientRecv?)
    ensures var t := Effect(cfg, st, a);
            Gone(t.client.pc) && Lingers(t.c) && Undone(st, t) && t.s.mem == st.s.mem && t.c.mem == st.c.mem
  {
  }

  lemma WriteWhenGone(st: State, e: Event)
    requires !Own(e)
    ensures OwnAt(st.journal + [e]) == OwnAt(st.journal) && SignalAt(st.journal + [e]) == SignalAt(st.journal)
  {
    Extend(st.journal, e);
  }

  lemma ReplyWhenGone(cfg: Config, st: State, acked: bool)
    requires ToClientEnabled(cfg, st)
    ensures var t := ToClient(cfg, st, acked);
            t.client == st.client && t.cmds == st.cmds && t.c.sq == st.c.sq && t.c.mem == st.c.mem && t.s.mem == st.s.mem
            && t.journal == st.journal
  {
  }

  lemma MessageWhenGone(cfg: Config, st: State, acked: bool)
    requires ToServerEnabled(cfg, st) && Lingers(st.c)
    ensures var t := ToServer(cfg, st, acked);
            t.client == st.client && t.cmds == st.cmds && t.c.sq == [] && t.c.mem == st.c.mem && t.s.mem == st.s.mem
            && Undone(st, t)
  {
    Extend(st.journal, Signal(st.c.sq[0].at));
    MessageJournal(cfg, st, acked);
  }

  lemma MessageJournal(cfg: Config, st: State, acked: bool)
    requires ToServerEnabled(cfg, st) && Lingers(st.c)
    ensures var t := ToServer(cfg, st, acked);
            t.client == st.client && t.cmds == st.cmds && t.c.sq == [] && t.c.mem == st.c.mem && t.s.mem == st.s.mem
            && t.journal == if st.c.sq[0].wr.WrImm? then st.journal + [Signal(st.c.sq[0].at)] else st.journal
  {
  }

  lemma UndoneTwice(st: State, t: State, v: State)
    requires Undone(st, t) && Undone(t, v)
    ensures Undone(st, v)
  {
  }

  lemma {:induction false} QuietRun(cfg: Config, st: State, acts: seq<Action>, end: State)
    requires Gone(st.client.pc) && Lingers(st.c) && Run(cfg, st, acts, end)
    ensures Gone(end.client.pc) && Undone(st, end)
    ensures (forall i :: 0 <= i < |acts| ==> !acts[i].Intrude?) ==> end.s.mem == st.s.mem
    ensures (forall i :: 0 <= i < |acts| ==> !acts[i].WriteLocal?) ==> end.c.mem == st.c.mem
    decreases |acts|
  {
    if acts != [] {
      var next := Effect(cfg, st, acts[0]);
      QuietWhenGone(cfg, st, acts[0]);
      QuietRun(cfg, next, acts[1..], end);
      UndoneTwice(st, next, end);
    }
  }

  lemma GoneLingers(cfg: Config, st: State, u: State)
    requires Shadow(st, u) && Core(cfg, u) && Gone(st.client.pc)
    ensures Lingers(st.c) && (!st.client.pc.CDead? ==> st.c.sq == [])
  {
    SendsOnly(cfg, u);
  }

  /** What is on the client's queue outside a transfer. */
  lemma SendsOnly(cfg: Config, st: State)
    requires Setup(cfg, st) && Posted(cfg, st.cmds, st.client, st.c, st.journal)
    ensures st.client.pc.CPoll? && st.client.k < |st.cmds| && Message(st.cmds[st.client.k]) ==> Lingers(st.c)
    ensures !st.client.pc.CPoll? ==> Lingers(st.c) && (!st.client.pc.CPollSent? ==> st.c.sq == [])
  {
  }

  /** Once the client has sent its shutdown message or died, nothing it was asked or is asked later has
      any further effect, in any run: no command is taken, and the memories change only by others. After a
      sent shutdown message no message goes out; a program that died at a failed poll can have left one. */
  lemma NothingAfterShutdown(cfg: Config, st: State, acts: seq<Action>, end: State)
    requires Sound(cfg, st) && Gone(st.client.pc) && Run(cfg, st, acts, end)
    ensures Gone(end.client.pc) && Undone(st, end) && (!st.client.pc.CDead? ==> st.c.sq == [])
    ensures (forall i :: 0 <= i < |acts| ==> !acts[i].Intrude?) ==> end.s.mem == st.s.mem
    ensures (forall i :: 0 <= i < |acts| ==> !acts[i].WriteLocal?) ==> end.c.mem == st.c.mem
  {
    var u := ReachableInv(cfg, st);
    GoneLingers(cfg, st, u);
    QuietRun(cfg, st, acts, end);
  }
}
