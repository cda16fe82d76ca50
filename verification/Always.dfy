/** What holds of every reachable state once the client is connected, whatever has failed. A worker that goes
    on after a failed poll takes its completions one too early from then on, so its outcomes no longer say
    what has happened; the order of its requests and the history of effects are not touched by that. */
module Always {
  import opened Bytes
  import opened Wrappers
  import opened Codec
  import opened ImmWord
  import opened MemBuffers
  import opened Registration
  import opened Completion
  import opened Commands
  import opened Journal
  import opened Protocol
  import opened Invariant
  import opened Preservation
  import opened FabricPreservation
  import opened Shadows
  import opened Delivery

  // ----- The client

  /** A command that may have been posted. */
  predicate InReach(at: nat, client: Client) {
    at < client.k || (at == client.k && (client.pc.CPoll? || client.pc.CDead?))
  }

  /** A request on the queue is its command's, with a payload as it was in memory at one moment since. */
  predicate SlotOk(cfg: Config, cmds: seq<Command>, client: Client, journal: seq<Event>, slot: Slot) {
    InReach(slot.at, client) && slot.at < |cmds| && slot.since <= |journal|
    && var cmd := cmds[slot.at];
    (if Message(cmd) then FitsBuffer(cmd) else Transfer(cmd) && Resolved(cfg, RemoteOf(cfg.serverBufs), cmd))
    && slot.wr == RequestFor(cfg, cfg.serverCpu, RemoteOf(cfg.serverBufs), cmd)
    && (slot.payload.Some? && Message(cmd) ==> |slot.payload.value| == CPU_BUFFER_BASE_SIZE)
    && (slot.payload.Some? && cmd.Send? ==> SeenAt(cfg, journal, cmd, slot.since, slot.seen, slot.payload.value))
  }

  /** The queue holds requests in the order of their commands, and only the oldest may have been fetched. */
  predicate Slots(cfg: Config, cmds: seq<Command>, client: Client, journal: seq<Event>, sq: seq<Slot>) {
    (forall y :: 0 <= y < |sq| ==> SlotOk(cfg, cmds, client, journal, sq[y]))
    && (forall y, z :: 0 <= y < z < |sq| ==> sq[y].at < sq[z].at)
    && (forall y :: 1 <= y < |sq| ==> sq[y].payload.None?)
  }

  /** Only empty transfers are skipped. */
  predicate Skips(cmds: seq<Command>, outs: seq<Outcome>) {
    |outs| <= |cmds| && forall i :: 0 <= i < |outs| ==> (outs[i].Skipped? <==> !Message(cmds[i]) && !Transfer(cmds[i]))
  }

  /** The worker knows its peer and has its current message in the buffer. */
  predicate Equipped(cfg: Config, cmds: seq<Command>, client: Client, c: Node) {
    ClientPhase(client.pc) >= 9 && |c.buf| == CPU_BUFFER_BASE_SIZE && |client.outs| == client.k
    && (ClientPhase(client.pc) == 9 ==> client.peer == cfg.serverCpu && client.remote == RemoteOf(cfg.serverBufs))
    && Current(cfg, cmds, client, c.buf)
    && Skips(cmds, client.outs)
  }

  // ----- What has landed

  /** What has taken effect did so in the order of the commands, before anything still queued. */
  predicate Ordered(client: Client, own: seq<nat>, sq: seq<Slot>) {
    Increasing(own)
    && (forall x :: x in own ==> InReach(x, client))
    && (forall x, y :: x in own && 0 <= y < |sq| ==> x < sq[y].at)
  }

  predicate Waits(sq: seq<Slot>, i: nat) {
    exists y :: 0 <= y < |sq| && sq[y].at == i
  }

  /** The command's post was accepted. */
  predicate Posts(client: Client, i: nat) {
    (i < |client.outs| && (client.outs[i].Ok? || client.outs[i].Failed?)) || (i == client.k && client.pc.CPoll?)
  }

  /** A posted request has taken effect or waits, unless the queue pair has failed. */
  ghost predicate NoneGone(client: Client, own: seq<nat>, c: Node) {
    forall i: nat :: Posts(client, i) ==> i in own || Waits(c.sq, i) || c.err
  }

  /** Whatever took effect came after every request posted before it. */
  predicate AllBefore(client: Client, journal: seq<Event>) {
    forall q, i :: 0 <= q < |journal| && Own(journal[q]) && 0 <= i < journal[q].at && Posts(client, i) ==> i in OwnAt(journal[..q])
  }

  // ----- The server

  /** The server takes no further notification. */
  predicate Out(pc: ServerPc) {
    pc.SDead? || ServerGone(pc)
  }

  /** The server has one receive posted or completed while it polls, and of `landed` messages it has
      returned all but one that it has in hand. */
  predicate Paced(s: Node, pc: ServerPc, returned: nat, landed: nat) {
    ServerPhase(pc) >= 8 && s.sq == [] && |s.buf| == CPU_BUFFER_BASE_SIZE
    && (if pc.SPollRecv? then |s.rq| + |s.rcq| == 1 && (s.rcq != [] && s.rcq[0].ok ==> s.rcq[0].op == OpRecvImm)
        else Out(pc) || (s.rq == [] && s.rcq == []))
    && (if Out(pc) then returned <= landed else landed == returned + if Pending(pc, s) then 1 else 0)
  }

  /** The server's receives and returned messages keep step with what has arrived, whatever arrives. */
  predicate InStep(s: Node, server: Server, signals: seq<nat>) {
    Paced(s, server.pc, |server.returned|, |signals|) && Recorded(server)
  }

  ghost predicate Line(cfg: Config, st: State) {
    Equipped(cfg, st.cmds, st.client, st.c)
    && Slots(cfg, st.cmds, st.client, st.journal, st.c.sq)
    && Ordered(st.client, OwnAt(st.journal), st.c.sq)
    && NoneGone(st.client, OwnAt(st.journal), st.c)
    && AllBefore(st.client, st.journal)
    && InStep(st.s, st.server, SignalAt(st.journal))
    && Memory(cfg, st.cmds, st.c.mem, st.s.mem, st.journal)
  }

  // ----- The worker's steps

  /** The client program moves without posting. */
  predicate Slides(st: State, t: State) {
    t == st.(c := t.c, client := t.client, pollFailed := t.pollFailed)
    && t.c.sq == st.c.sq && t.c.mem == st.c.mem && (st.c.err ==> t.c.err)
  }

  /** What could have been posted still could, and nothing more counts as posted. */
  ghost predicate Onward(client: Client, next: Client) {
    (forall at: nat :: InReach(at, client) ==> InReach(at, next))
    && (forall i: nat :: Posts(next, i) ==> Posts(client, i))
  }

  lemma SlidesLine(cfg: Config, st: State, t: State)
    requires Line(cfg, st) && Slides(st, t) && Onward(st.client, t.client) && Equipped(cfg, t.cmds, t.client, t.c)
    ensures Line(cfg, t)
  {
  }

  lemma MovesOnward(client: Client, next: Client)
    requires next.k == client.k && next.outs == client.outs && !client.pc.CPoll? && !next.pc.CPoll? && (client.pc.CDead? ==> next.pc.CDead?)
    ensures Onward(client, next)
  {
  }

  /** The end of a command, from its poll or without a post. */
  lemma EndsOnward(client: Client, next: Client, o: Outcome)
    requires |client.outs| == client.k && next.k == client.k + 1 && next.outs == client.outs + [o] && !next.pc.CPoll? && !client.pc.CDead?
    requires client.pc.CPoll? || o.Refused? || o.Skipped?
    ensures Onward(client, next)
  {
  }

  lemma DiesOnward(client: Client, next: Client)
    requires next == client.(pc := CDead)
    ensures Onward(client, next)
  {
  }

  // Taking a command.

  lemma TakeSlides(cfg: Config, st: State)
    requires Equipped(cfg, st.cmds, st.client, st.c) && st.client.pc.CNext? && st.client.k < |st.cmds|
    ensures var t := TakeCommand(cfg, st);
            Slides(st, t) && Onward(st.client, t.client) && Equipped(cfg, t.cmds, t.client, t.c)
            && (t.c.buf != st.c.buf ==> Message(st.cmds[st.client.k]))
  {
    var cmd := st.cmds[st.client.k];
    if Message(cmd) {
      MessageSlides(cfg, st);
    } else if Transfer(cmd) {
      TransferSlides(cfg, st);
    } else {
      SkipSlides(cfg, st);
    }
  }

  lemma MessageSlides(cfg: Config, st: State)
    requires Equipped(cfg, st.cmds, st.client, st.c) && st.client.pc.CNext? && st.client.k < |st.cmds| && Message(st.cmds[st.client.k])
    ensures var t := TakeCommand(cfg, st); Slides(st, t) && Onward(st.client, t.client) && Equipped(cfg, t.cmds, t.client, t.c)
  {
    var cmd := st.cmds[st.client.k];
    TakingIsStaging(cfg, st);
    var t := Staged(st, MessagePc(cmd));
    if FitsBuffer(cmd) {
      StagesNote(cmd, st.c.buf);
    }
    MovesOnward(st.client, t.client);
  }

  lemma TransferSlides(cfg: Config, st: State)
    requires Equipped(cfg, st.cmds, st.client, st.c) && st.client.pc.CNext? && st.client.k < |st.cmds| && Transfer(st.cmds[st.client.k])
    ensures var t := TakeCommand(cfg, st);
            Slides(st, t) && Onward(st.client, t.client) && Equipped(cfg, t.cmds, t.client, t.c) && t.c == st.c
  {
    TakingIsMoving(cfg, st);
    MovesOnward(st.client, TakeCommand(cfg, st).client);
  }

  lemma SkipSlides(cfg: Config, st: State)
    requires Equipped(cfg, st.cmds, st.client, st.c) && st.client.pc.CNext? && st.client.k < |st.cmds|
    requires Moving(st.cmds[st.client.k]) && !Transfer(st.cmds[st.client.k])
    ensures var t := TakeCommand(cfg, st);
            Slides(st, t) && Onward(st.client, t.client) && Equipped(cfg, t.cmds, t.client, t.c) && t.c == st.c
  {
    EndsOnward(st.client, TakeCommand(cfg, st).client, Skipped);
  }

  // The window, the poll and the hang-up.

  lemma LockSlides(cfg: Config, st: State)
    requires Equipped(cfg, st.cmds, st.client, st.c) && (st.client.pc.CLock? || st.client.pc.CAdd? || st.client.pc.CEvict?)
    ensures ClientEnabled(st)
    ensures var t := WorkerStep(cfg, st);
            Slides(st, t) && Onward(st.client, t.client) && Equipped(cfg, t.cmds, t.client, t.c) && t.c == st.c
  {
    WindowOnlyStep(cfg, st);
    MovesOnward(st.client, WorkerStep(cfg, st).client);
  }

  lemma HangupSlides(cfg: Config, st: State)
    requires Equipped(cfg, st.cmds, st.client, st.c) && st.client.pc.CHangup?
    ensures var t := WorkerStep(cfg, st);
            Slides(st, t) && Onward(st.client, t.client) && Equipped(cfg, t.cmds, t.client, t.c) && t.c.buf == st.c.buf
  {
    HangupIs(cfg, st);
    MovesOnward(st.client, HungUp(st).client);
  }

  /** The client once the command at hand has ended with `o`. */
  function Polled(st: State, o: Outcome, pc: ClientPc): Client {
    st.client.(pc := pc, k := st.client.k + 1, outs := st.client.outs + [o], locked := false)
  }

  lemma PollSlides(cfg: Config, st: State)
    requires Equipped(cfg, st.cmds, st.client, st.c) && st.client.pc.CPoll? && st.c.scq != []
    ensures ClientEnabled(st)
    ensures var t := WorkerStep(cfg, st);
            Slides(st, t) && Onward(st.client, t.client) && Equipped(cfg, t.cmds, t.client, t.c) && t.c.buf == st.c.buf
  {
    var o := PollOutcome(st.c.scq[0]);
    PolledIs(cfg, st);
    EndsOnward(st.client, WorkerStep(cfg, st).client, o);
  }

  lemma PolledIs(cfg: Config, st: State)
    requires st.client.pc.CPoll? && st.client.k < |st.cmds| && st.c.scq != []
    ensures var o := PollOutcome(st.c.scq[0]);
            WorkerStep(cfg, st) == st.(c := PopSent(st.c), client := Polled(st, o, EndPc(st.cmds[st.client.k], o)))
  {
  }

  lemma WorkerSlides(cfg: Config, st: State)
    requires Equipped(cfg, st.cmds, st.client, st.c) && ClientEnabled(st) && !st.client.pc.CPost?
    ensures var t := WorkerStep(cfg, st);
            Slides(st, t) && Onward(st.client, t.client) && Equipped(cfg, t.cmds, t.client, t.c)
            && (t.c.buf != st.c.buf ==> st.client.pc.CNext? && st.client.k < |st.cmds| && Message(st.cmds[st.client.k]))
  {
    if st.client.pc.CNext? {
      TakeSlides(cfg, st);
    } else if st.client.pc.CPoll? {
      PollSlides(cfg, st);
    } else if st.client.pc.CHangup? {
      HangupSlides(cfg, st);
    } else {
      LockSlides(cfg, st);
    }
  }

  // A refused call, a failed poll.

  /** The end of a command leaves the worker equipped. */
  lemma EndsEquipped(cfg: Config, cmds: seq<Command>, client: Client, c: Node, o: Outcome, pc: ClientPc)
    requires Equipped(cfg, cmds, client, c) && (client.pc.CPost? || client.pc.CPoll?) && !o.Skipped?
    requires pc.CNext? || pc.CDead? || pc.CHangup?
    ensures Equipped(cfg, cmds, client.(pc := pc, k := client.k + 1, outs := client.outs + [o], locked := false), c)
  {
  }

  /** A post refused to the worker. */
  lemma RefusedIs(st: State)
    requires st.client.pc.CPost? && st.client.k < |st.cmds|
    ensures ClientRefused(st) ==
            st.(client := Polled(st, Refused, if st.cmds[st.client.k].Disconnect? then CDead else CNext))
  {
  }

  lemma RefusedPostSlides(cfg: Config, st: State)
    requires Equipped(cfg, st.cmds, st.client, st.c) && st.client.pc.CPost?
    ensures ClientRefusable(st)
    ensures var t := ClientRefused(st); Slides(st, t) && Onward(st.client, t.client) && Equipped(cfg, t.cmds, t.client, t.c) && t.c == st.c
  {
    var pc := if st.cmds[st.client.k].Disconnect? then CDead else CNext;
    RefusedIs(st);
    EndsEquipped(cfg, st.cmds, st.client, st.c, Refused, pc);
    EndsOnward(st.client, Polled(st, Refused, pc), Refused);
  }

  lemma RefusalSlides(cfg: Config, st: State)
    requires Equipped(cfg, st.cmds, st.client, st.c) && ClientRefusable(st)
    ensures var t := ClientRefused(st);
            Slides(st, t) && Onward(st.client, t.client) && Equipped(cfg, t.cmds, t.client, t.c) && t.c == st.c
  {
    if st.client.pc.CPost? {
      RefusedPostSlides(cfg, st);
    } else {
      DiesOnward(st.client, ClientRefused(st).client);
    }
  }

  lemma BadPollIs(st: State)
    requires st.client.pc.CPoll? && st.client.k < |st.cmds| && !st.cmds[st.client.k].Disconnect?
    ensures ClientBadPoll(st) == st.(client := Polled(st, Failed(false), CNext), pollFailed := true)
  {
  }

  lemma BadPollSlides(cfg: Config, st: State)
    requires Equipped(cfg, st.cmds, st.client, st.c) && ClientPolling(st)
    ensures var t := ClientBadPoll(st);
            Slides(st, t) && Onward(st.client, t.client) && Equipped(cfg, t.cmds, t.client, t.c) && t.c == st.c
  {
    if st.cmds[st.client.k].Disconnect? {
      DiesOnward(st.client, ClientBadPoll(st).client);
    } else {
      BadPollIs(st);
      EndsEquipped(cfg, st.cmds, st.client, st.c, Failed(false), CNext);
      EndsOnward(st.client, Polled(st, Failed(false), CNext), Failed(false));
    }
  }

  // The post.

  /** The state in which the request of the current command is the newest on the queue. */
  function Posting(cfg: Config, st: State): State
    requires st.client.k < |st.cmds| && (Moving(st.cmds[st.client.k]) ==> Resolvable(cfg, st.cmds[st.client.k]))
  {
    SetClient(st, CPoll).(c := PostSend(st.c, RequestFor(cfg, cfg.serverCpu, RemoteOf(cfg.serverBufs), st.cmds[st.client.k]),
                                        st.client.k, |st.journal|))
  }

  lemma PostIs(cfg: Config, st: State)
    requires Equipped(cfg, st.cmds, st.client, st.c) && st.client.pc.CPost?
    ensures ClientEnabled(st) && (Moving(st.cmds[st.client.k]) ==> Resolvable(cfg, st.cmds[st.client.k]))
    ensures WorkerStep(cfg, st) == Posting(cfg, st)
  {
    PostingIsPost(cfg, st);
  }

  lemma PostSlots(cfg: Config, st: State)
    requires Equipped(cfg, st.cmds, st.client, st.c) && Slots(cfg, st.cmds, st.client, st.journal, st.c.sq) && st.client.pc.CPost?
    ensures var t := Posting(cfg, st); Slots(cfg, t.cmds, t.client, t.journal, t.c.sq) && Equipped(cfg, t.cmds, t.client, t.c)
  {
  }

  lemma PostOrder(cfg: Config, st: State)
    requires Equipped(cfg, st.cmds, st.client, st.c) && st.client.pc.CPost?
    requires Ordered(st.client, OwnAt(st.journal), st.c.sq) && NoneGone(st.client, OwnAt(st.journal), st.c) && AllBefore(st.client, st.journal)
    ensures var t := Posting(cfg, st);
            Ordered(t.client, OwnAt(t.journal), t.c.sq) && NoneGone(t.client, OwnAt(t.journal), t.c)
  {
    var t := Posting(cfg, st);
    assert t.c.sq[|st.c.sq|].at == st.client.k;
    forall i: nat | Posts(t.client, i)
      ensures i in OwnAt(t.journal) || Waits(t.c.sq, i) || t.c.err
    {
      if i != st.client.k {
        assert Posts(st.client, i);
        if Waits(st.c.sq, i) {
          var y :| 0 <= y < |st.c.sq| && st.c.sq[y].at == i;
          assert t.c.sq[y].at == i;
        }
      }
    }
  }

  lemma PostBefore(cfg: Config, st: State)
    requires Equipped(cfg, st.cmds, st.client, st.c) && st.client.pc.CPost?
    requires Ordered(st.client, OwnAt(st.journal), st.c.sq) && AllBefore(st.client, st.journal)
    ensures AllBefore(Posting(cfg, st).client, st.journal)
  {
    forall q, i | 0 <= q < |st.journal| && Own(st.journal[q]) && 0 <= i < st.journal[q].at && Posts(Posting(cfg, st).client, i)
      ensures i in OwnAt(st.journal[..q])
    {
      OwnHas(st.journal, q);
      assert InReach(st.journal[q].at, st.client);
      assert Posts(st.client, i);
    }
  }

  lemma PostLine(cfg: Config, st: State)
    requires Line(cfg, st) && st.client.pc.CPost?
    ensures Line(cfg, Posting(cfg, st))
  {
    PostSlots(cfg, st);
    PostOrder(cfg, st);
    PostBefore(cfg, st);
  }

  lemma SubmitLine(cfg: Config, st: State, cmd: Command)
    requires Line(cfg, st)
    ensures Line(cfg, st.(cmds := st.cmds + [cmd]))
  {
    JournalOkLater(cfg, st.cmds, cmd, st.journal);
    SubmitSlots(cfg, st.cmds, cmd, st.client, st.journal, st.c.sq);
  }

  lemma SubmitSlots(cfg: Config, cmds: seq<Command>, cmd: Command, client: Client, journal: seq<Event>, sq: seq<Slot>)
    requires Slots(cfg, cmds, client, journal, sq)
    ensures Slots(cfg, cmds + [cmd], client, journal, sq)
  {
    forall y | 0 <= y < |sq|
      ensures SlotOk(cfg, cmds + [cmd], client, journal, sq[y])
    {
      assert (cmds + [cmd])[sq[y].at] == cmds[sq[y].at];
    }
  }

  lemma ClientLine(cfg: Config, st: State, a: Action)
    requires Line(cfg, st) && Enabled(cfg, st, a) && (a.ClientRuns? || a.ClientIsRefused? || a.ClientPollFails?)
    ensures Line(cfg, Effect(cfg, st, a))
  {
    if a.ClientIsRefused? {
      RefusalSlides(cfg, st);
      SlidesLine(cfg, st, ClientRefused(st));
    } else if a.ClientPollFails? {
      BadPollSlides(cfg, st);
      SlidesLine(cfg, st, ClientBadPoll(st));
    } else if st.client.pc.CPost? {
      PostIs(cfg, st);
      PostLine(cfg, st);
    } else {
      WorkerSlides(cfg, st);
      SlidesLine(cfg, st, ClientStep(cfg, st));
    }
  }

  // ----- The server's steps

  /** The server moves, and nothing else. */
  predicate ServerMoves(st: State, t: State) {
    t == st.(s := t.s, server := t.server) && t.s.mem == st.s.mem
  }

  lemma ServerMovesLine(cfg: Config, st: State, t: State)
    requires Line(cfg, st) && ServerMoves(st, t) && InStep(t.s, t.server, SignalAt(t.journal))
    ensures Line(cfg, t)
  {
  }

  lemma TableStep(cfg: Config, st: State, signals: seq<nat>)
    requires InStep(st.s, st.server, signals) && ServerEnabled(st) && st.server.pc.SPollTable?
    ensures var t := AcceptStep(cfg, st); ServerMoves(st, t) && InStep(t.s, t.server, signals) && t.server.returned == st.server.returned
  {
    TableIs(cfg, st);
    TableInStep(st.s, st.server, signals);
  }

  function TablePc(s: Node): ServerPc
    requires s.scq != []
  {
    if s.scq[0].ok then SPostRecv else SHangup(false)
  }

  lemma TableIs(cfg: Config, st: State)
    requires ServerEnabled(st) && st.server.pc.SPollTable?
    ensures AcceptStep(cfg, st) == SetServer(st, TablePc(st.s)).(s := PopSent(st.s))
  {
  }

  lemma TableInStep(s: Node, server: Server, signals: seq<nat>)
    requires InStep(s, server, signals) && server.pc.SPollTable? && s.scq != []
    ensures InStep(PopSent(s), server.(pc := TablePc(s)), signals)
  {
    StillRecorded(server, TablePc(s));
  }

  lemma PostRecvStep(st: State, signals: seq<nat>)
    requires InStep(st.s, st.server, signals) && st.server.pc.SPostRecv?
    ensures var t := LoopStep(st); ServerMoves(st, t) && InStep(t.s, t.server, signals) && t.server.returned == st.server.returned
  {
    PostRecvIs(st);
    PostRecvInStep(st.s, st.server, signals);
  }

  lemma PostRecvIs(st: State)
    requires st.server.pc.SPostRecv?
    ensures ServerEnabled(st) && LoopStep(st) == SetServer(st, SPollRecv).(s := PostRecv(st.s, BufferReceive))
  {
  }

  lemma PostRecvInStep(s: Node, server: Server, signals: seq<nat>)
    requires InStep(s, server, signals) && server.pc.SPostRecv?
    ensures InStep(PostRecv(s, BufferReceive), server.(pc := SPollRecv), signals)
  {
    StillRecorded(server, SPollRecv);
  }

  lemma HangupStep(st: State, signals: seq<nat>)
    requires InStep(st.s, st.server, signals) && st.server.pc.SHangup?
    ensures var t := LoopStep(st); ServerMoves(st, t) && InStep(t.s, t.server, signals) && t.server.returned == st.server.returned
  {
    ServerHangsUp(st);
    ClosedInStep(st.s, st.server, signals);
  }

  lemma ServerHangsUp(st: State)
    requires st.server.pc.SHangup?
    ensures ServerEnabled(st) && LoopStep(st) == SetServer(st, SClosed(st.server.pc.clean)).(s := st.s.(err := true))
  {
  }

  lemma ClosedInStep(s: Node, server: Server, signals: seq<nat>)
    requires InStep(s, server, signals) && server.pc.SHangup?
    ensures InStep(s.(err := true), server.(pc := SClosed(server.pc.clean)), signals)
  {
    StillRecorded(server, SClosed(server.pc.clean));
  }

  lemma AddStep(st: State, signals: seq<nat>)
    requires InStep(st.s, st.server, signals) && st.server.pc.SAdd?
    ensures var t := LoopStep(st); ServerMoves(st, t) && InStep(t.s, t.server, signals) && t.server.returned == st.server.returned
  {
    AddsRecorded(st.server);
    AddingIs(st);
  }

  lemma HandleStep(st: State, signals: seq<nat>)
    requires InStep(st.s, st.server, signals) && (st.server.pc.SHandle? || st.server.pc.SLock? || st.server.pc.SEvict?)
    ensures var t := LoopStep(st); ServerMoves(st, t) && InStep(t.s, t.server, signals) && t.server.returned == st.server.returned
  {
    HandleIs(st);
    HandleRecorded(st.server);
    HandledInStep(st.s, st.server, HandlePc(st.server), signals);
  }

  /** What the loop does next with a notification in hand. */
  function HandlePc(server: Server): ServerPc {
    if server.pc.SHandle? then (if server.note.done > 0 then SHangup(true) else if server.note.reqId.Some? then SLock else SPostRecv)
    else if server.pc.SLock? then SAdd else SPostRecv
  }

  lemma HandleIs(st: State)
    requires st.server.pc.SHandle? || st.server.pc.SLock? || st.server.pc.SEvict?
    ensures ServerEnabled(st) && LoopStep(st) == SetServer(st, HandlePc(st.server))
  {
  }

  lemma HandledInStep(s: Node, server: Server, pc: ServerPc, signals: seq<nat>)
    requires InStep(s, server, signals) && (server.pc.SHandle? || server.pc.SLock? || server.pc.SEvict?)
    requires Recorded(server.(pc := pc)) && (pc.SHangup? || pc.SLock? || pc.SAdd? || pc.SPostRecv?)
    ensures InStep(s, server.(pc := pc), signals)
  {
  }

  lemma HandleRecorded(server: Server)
    requires Recorded(server) && (server.pc.SHandle? || server.pc.SLock? || server.pc.SEvict?)
    ensures Recorded(server.(pc := HandlePc(server)))
  {
    if server.pc.SHandle? {
      ChosenRecorded(server);
    }
  }

  lemma ChosenRecorded(server: Server)
    requires Recorded(server) && server.pc.SHandle?
    ensures Recorded(server.(pc := HandlePc(server)))
  {
    if server.note.done > 0 || server.note.reqId.None? {
      NothingToRecord(server.returned);
    }
  }

  /** A last notification that names no request, or stops the server, adds no id. */
  lemma NothingToRecord(ns: seq<Notification>)
    requires ns != [] && (ns[|ns| - 1].done > 0 || ns[|ns| - 1].reqId.None?)
    ensures IdsOf(ns) == IdsOf(ns[..|ns| - 1])
  {
    assert IdsOf(ns[..|ns| - 1]) + [] == IdsOf(ns[..|ns| - 1]);
  }

  /** Polling and decoding, with what comes of them spelled out. */
  lemma ReceiveIs(cfg: Config, st: State, signals: seq<nat>)
    requires InStep(st.s, st.server, signals) && st.server.pc.SPollRecv? && st.s.rcq != []
    ensures ServerStep(cfg, st) == SetServer(st, PollPc(st.s.rcq[0])).(s := PopReceived(st.s))
  {
  }

  lemma ReceiveInStep(s: Node, server: Server, signals: seq<nat>)
    requires InStep(s, server, signals) && server.pc.SPollRecv? && s.rcq != []
    ensures InStep(PopReceived(s), server.(pc := PollPc(s.rcq[0])), signals)
  {
    StillRecorded(server, PollPc(s.rcq[0]));
  }

  /** What the server makes of the first `size` bytes of its buffer. */
  predicate Decodes(s: Node, size: nat) {
    size <= |s.buf| && DecodeNotification(s.buf[..size]).Success?
  }

  lemma DecodeIs(cfg: Config, st: State)
    requires st.server.pc.SDecode?
    ensures ServerStep(cfg, st) == if Decodes(st.s, st.server.pc.size)
                                   then Return(st, DecodeNotification(st.s.buf[..st.server.pc.size]).value) else SetServer(st, SDead)
  {
  }

  lemma ReturnInStep(s: Node, server: Server, signals: seq<nat>, n: Notification)
    requires InStep(s, server, signals) && server.pc.SDecode?
    ensures InStep(s, server.(pc := SHandle, note := n, returned := server.returned + [n]), signals)
  {
    var next := server.(pc := SHandle, note := n, returned := server.returned + [n]);
    PacedReturn(s, server.pc, |server.returned|, |signals|);
    ReturnRecorded(server, n);
    assert Paced(s, next.pc, |next.returned|, |signals|);
  }

  lemma BadMessageInStep(s: Node, server: Server, signals: seq<nat>)
    requires InStep(s, server, signals) && server.pc.SDecode?
    ensures InStep(s, server.(pc := SDead), signals)
  {
    StillRecorded(server, SDead);
  }

  lemma PacedReturn(s: Node, pc: ServerPc, returned: nat, landed: nat)
    requires Paced(s, pc, returned, landed) && pc.SDecode?
    ensures Paced(s, SHandle, returned + 1, landed)
  {
  }

  lemma LoopInStep(cfg: Config, st: State, signals: seq<nat>)
    requires InStep(st.s, st.server, signals) && ServerEnabled(st) && !st.server.pc.SDecode? && !st.server.pc.SPollRecv?
    ensures var t := ServerStep(cfg, st);
            ServerMoves(st, t) && InStep(t.s, t.server, signals) && t.server.returned == st.server.returned
  {
    if st.server.pc.SPollTable? {
      TableStep(cfg, st, signals);
    } else if st.server.pc.SPostRecv? {
      PostRecvStep(st, signals);
    } else if st.server.pc.SHangup? {
      HangupStep(st, signals);
    } else if st.server.pc.SAdd? {
      AddStep(st, signals);
    } else {
      HandleStep(st, signals);
    }
  }

  lemma ServerInStep(cfg: Config, st: State, signals: seq<nat>)
    requires InStep(st.s, st.server, signals) && ServerEnabled(st)
    ensures var t := ServerStep(cfg, st); ServerMoves(st, t) && InStep(t.s, t.server, signals)
  {
    if st.server.pc.SDecode? {
      DecodeIs(cfg, st);
      if Decodes(st.s, st.server.pc.size) {
        ReturnInStep(st.s, st.server, signals, DecodeNotification(st.s.buf[..st.server.pc.size]).value);
      } else {
        BadMessageInStep(st.s, st.server, signals);
      }
    } else if st.server.pc.SPollRecv? {
      ReceiveIs(cfg, st, signals);
      ReceiveInStep(st.s, st.server, signals);
    } else {
      LoopInStep(cfg, st, signals);
    }
  }

  lemma ServerTroubleInStep(st: State, signals: seq<nat>)
    requires InStep(st.s, st.server, signals)
    ensures ServerRefusable(st) ==> var t := ServerRefused(st); ServerMoves(st, t) && InStep(t.s, t.server, signals)
    ensures ServerPolling(st) ==> var t := ServerBadPoll(st); ServerMoves(st, t) && InStep(t.s, t.server, signals)
  {
    if ServerRefusable(st) || ServerPolling(st) {
      TroubleInStep(st.s, st.server, signals);
    }
  }

  lemma TroubleInStep(s: Node, server: Server, signals: seq<nat>)
    requires InStep(s, server, signals) && (server.pc.SPostRecv? || server.pc.SPollRecv? || server.pc.SPollTable?)
    ensures InStep(s, server.(pc := SDead), signals) && InStep(s, server.(pc := SHangup(false)), signals)
  {
    StillRecorded(server, SDead);
    StillRecorded(server, SHangup(false));
  }

  lemma ServerLine(cfg: Config, st: State, a: Action)
    requires Line(cfg, st) && Enabled(cfg, st, a) && (a.ServerRuns? || a.ServerIsRefused? || a.ServerPollFails?)
    ensures Line(cfg, Effect(cfg, st, a)) && ServerMoves(st, Effect(cfg, st, a))
  {
    var signals := SignalAt(st.journal);
    if a.ServerRuns? {
      ServerInStep(cfg, st, signals);
    } else {
      ServerTroubleInStep(st, signals);
    }
    ServerMovesLine(cfg, st, Effect(cfg, st, a));
  }

  // ----- The fabric's steps

  /** The oldest request takes effect, and event `e` says how. */
  predicate Lands(st: State, t: State, e: Event) {
    st.c.sq != [] && !st.c.err && Own(e) && e.at == st.c.sq[0].at
    && t.c.sq == st.c.sq[1..] && t.c.buf == st.c.buf
    && t.client == st.client && t.cmds == st.cmds && t.journal == st.journal + [e]
  }

  lemma LandsSlots(cfg: Config, st: State, t: State, e: Event)
    requires Slots(cfg, st.cmds, st.client, st.journal, st.c.sq) && Lands(st, t, e)
    ensures Slots(cfg, t.cmds, t.client, t.journal, t.c.sq)
  {
    forall y | 0 <= y < |t.c.sq|
      ensures SlotOk(cfg, t.cmds, t.client, t.journal, t.c.sq[y])
    {
      assert SlotOk(cfg, st.cmds, st.client, st.journal, st.c.sq[y + 1]);
    }
  }

  lemma LandsOrdered(cfg: Config, st: State, t: State, e: Event)
    requires Slots(cfg, st.cmds, st.client, st.journal, st.c.sq) && Ordered(st.client, OwnAt(st.journal), st.c.sq) && Lands(st, t, e)
    ensures Ordered(t.client, OwnAt(t.journal), t.c.sq)
  {
    Extend(st.journal, e);
    var own := OwnAt(st.journal);
    forall x | x in own
      ensures x < e.at
    {
    }
    AppendsIncreasing(own, e.at);
    forall x, y | x in OwnAt(t.journal) && 0 <= y < |t.c.sq|
      ensures x < t.c.sq[y].at
    {
      assert t.c.sq[y] == st.c.sq[y + 1];
    }
    assert SlotOk(cfg, st.cmds, st.client, st.journal, st.c.sq[0]);
  }

  lemma LandsNoneGone(st: State, t: State, e: Event)
    requires NoneGone(st.client, OwnAt(st.journal), st.c) && Lands(st, t, e)
    ensures NoneGone(t.client, OwnAt(t.journal), t.c)
  {
    Extend(st.journal, e);
    forall i: nat | Posts(t.client, i)
      ensures i in OwnAt(t.journal) || Waits(t.c.sq, i)
    {
      assert Posts(st.client, i);
      if i !in OwnAt(st.journal) {
        var y :| 0 <= y < |st.c.sq| && st.c.sq[y].at == i;
        assert y > 0 ==> t.c.sq[y - 1].at == i;
      }
    }
  }

  lemma LandsBefore(cfg: Config, st: State, t: State, e: Event)
    requires Slots(cfg, st.cmds, st.client, st.journal, st.c.sq) && NoneGone(st.client, OwnAt(st.journal), st.c)
    requires AllBefore(st.client, st.journal) && Lands(st, t, e)
    ensures AllBefore(t.client, t.journal)
  {
    var n := |st.journal|;
    forall q, i | 0 <= q < |t.journal| && Own(t.journal[q]) && 0 <= i < t.journal[q].at && Posts(t.client, i)
      ensures i in OwnAt(t.journal[..q])
    {
      assert t.journal[..q] == st.journal[..q];
      if q == n {
        assert st.journal[..n] == st.journal;
        NotQueuedBelow(cfg, st, i);
      }
    }
  }

  /** Nothing waits that comes before the oldest request. */
  lemma NotQueuedBelow(cfg: Config, st: State, i: nat)
    requires Slots(cfg, st.cmds, st.client, st.journal, st.c.sq) && st.c.sq != [] && i < st.c.sq[0].at
    ensures !Waits(st.c.sq, i)
  {
  }

  /** The request on the way passes its access checks, so it performs its command's copy. */
  lemma HeadPermitted(cfg: Config, st: State)
    requires OneSided(cfg, st) && SlotOk(cfg, st.cmds, st.client, st.journal, st.c.sq[0])
    ensures var cmd, wr := st.cmds[st.c.sq[0].at], st.c.sq[0].wr;
            Transfer(cmd) && Allowed(cfg, cmd)
            && wr.laddr == LocalAddress(cmd) && wr.raddr == RemoteAddress(cmd) && wr.len == cmd.local.size
            && wr.WrWrite? == cmd.Send? && wr.WrRead? == cmd.Recv?
  {
    RemoteAgreesWithLocal(cfg.serverBufs);
  }

  /** What a transfer's event is. */
  function HeadEvent(st: State, cmd: Command): Event
    requires Moving(cmd) && st.c.sq != [] && (cmd.Send? ==> st.c.sq[0].payload.Some?)
  {
    var slot := st.c.sq[0];
    if cmd.Send? then Push(slot.at, RemoteAddress(cmd), slot.payload.value, slot.since, slot.seen)
    else Pull(slot.at, LocalAddress(cmd), Slice(st.s.mem, RemoteAddress(cmd), cmd.local.size))
  }

  lemma TransferIs(cfg: Config, st: State, acked: bool)
    requires ToServerEnabled(cfg, st) && OneSided(cfg, st) && SlotOk(cfg, st.cmds, st.client, st.journal, st.c.sq[0])
    ensures var cmd := st.cmds[st.c.sq[0].at]; Moving(cmd) && (cmd.Send? ==> st.c.sq[0].payload.Some?)
    ensures var e, t := HeadEvent(st, st.cmds[st.c.sq[0].at]), ToServer(cfg, st, acked);
            Lands(st, t, e) && !e.Signal? && t.server == st.server && t.s == st.s.(mem := t.s.mem)
            && t.s.mem == (if e.Push? then Splice(st.s.mem, e.addr, e.data) else st.s.mem)
            && t.c.mem == (if e.Pull? then Splice(st.c.mem, e.addr, e.data) else st.c.mem)
  {
    HeadPermitted(cfg, st);
  }

  lemma TransferMemories(cfg: Config, st: State, t: State, e: Event)
    requires Memory(cfg, st.cmds, st.c.mem, st.s.mem, st.journal) && OneSided(cfg, st)
    requires SlotOk(cfg, st.cmds, st.client, st.journal, st.c.sq[0]) && st.c.sq[0].at < |st.cmds|
    requires Moving(st.cmds[st.c.sq[0].at]) && (st.cmds[st.c.sq[0].at].Send? ==> st.c.sq[0].payload.Some?)
    requires e == HeadEvent(st, st.cmds[st.c.sq[0].at]) && t.cmds == st.cmds && t.journal == st.journal + [e]
    requires t.s.mem == if e.Push? then Splice(st.s.mem, e.addr, e.data) else st.s.mem
    requires t.c.mem == if e.Pull? then Splice(st.c.mem, e.addr, e.data) else st.c.mem
    ensures Memory(cfg, t.cmds, t.c.mem, t.s.mem, t.journal)
  {
    HeadPermitted(cfg, st);
    Extend(st.journal, e);
    ExtendOk(cfg, st.cmds, st.journal, e);
  }

  lemma LandsClient(cfg: Config, st: State, t: State, e: Event)
    requires Line(cfg, st) && Lands(st, t, e)
    ensures Equipped(cfg, t.cmds, t.client, t.c) && Slots(cfg, t.cmds, t.client, t.journal, t.c.sq)
    ensures Ordered(t.client, OwnAt(t.journal), t.c.sq) && NoneGone(t.client, OwnAt(t.journal), t.c) && AllBefore(t.client, t.journal)
  {
    LandsSlots(cfg, st, t, e);
    LandsOrdered(cfg, st, t, e);
    LandsNoneGone(st, t, e);
    LandsBefore(cfg, st, t, e);
  }

  lemma TransferLine(cfg: Config, st: State, acked: bool)
    requires Line(cfg, st) && ToServerEnabled(cfg, st) && OneSided(cfg, st)
    ensures Line(cfg, ToServer(cfg, st, acked)) && SignalAt(ToServer(cfg, st, acked).journal) == SignalAt(st.journal)
  {
    assert SlotOk(cfg, st.cmds, st.client, st.journal, st.c.sq[0]);
    TransferIs(cfg, st, acked);
    var e, t := HeadEvent(st, st.cmds[st.c.sq[0].at]), ToServer(cfg, st, acked);
    LandsClient(cfg, st, t, e);
    TransferMemories(cfg, st, t, e);
    NoSignal(st.journal, e);
  }

  lemma NoSignal(journal: seq<Event>, e: Event)
    requires !e.Signal?
    ensures SignalAt(journal + [e]) == SignalAt(journal)
  {
    Extend(journal, e);
    assert SignalAt(journal) + [] == SignalAt(journal);
  }

  /** What the arrival of a message changes. */
  lemma ImmIs(cfg: Config, st: State, acked: bool)
    requires ToServerEnabled(cfg, st) && st.c.sq[0].wr.WrImm?
    ensures var t, slot := ToServer(cfg, st, acked), st.c.sq[0];
            Lands(st, t, Signal(slot.at)) && t.server == st.server && t.c.mem == st.c.mem && t.s.mem == st.s.mem
            && st.s.rq != [] && slot.payload.Some? && |slot.payload.value| == |st.s.buf|
            && t.s == Arriving(st.s, slot.payload.value, Received(cfg.clientOrder, cfg.serverOrder, slot.wr.imm))
  {
  }

  /** The server's node with one more arrived message. */
  function Arriving(s: Node, payload: seq<u8>, word: u32): Node
    requires s.rq != []
  {
    s.(buf := payload, rq := s.rq[1..], rcq := s.rcq + [WorkCompletion(true, OpRecvImm, word, 0, true)])
  }

  lemma ArrivesInStep(s: Node, server: Server, signals: seq<nat>, at: nat, payload: seq<u8>, word: u32)
    requires InStep(s, server, signals) && s.rq != [] && |payload| == CPU_BUFFER_BASE_SIZE
    ensures var t := Arriving(s, payload, word);
            InStep(t, server, signals + [at])
            && (Out(server.pc)
                || (server.pc.SPollRecv? && |server.returned| == |signals| && !Pending(server.pc, s) && Pending(server.pc, t) && t.rcq[0].imm == word))
  {
  }

  /** A queued message is that of its command. */
  lemma HeadMessage(cfg: Config, st: State)
    requires st.c.sq != [] && SlotOk(cfg, st.cmds, st.client, st.journal, st.c.sq[0]) && st.c.sq[0].wr.WrImm?
    ensures Message(st.cmds[st.c.sq[0].at]) && FitsBuffer(st.cmds[st.c.sq[0].at])
  {
  }

  lemma MessageLine(cfg: Config, st: State, acked: bool)
    requires Line(cfg, st) && ToServerEnabled(cfg, st) && st.c.sq[0].wr.WrImm?
    ensures Line(cfg, ToServer(cfg, st, acked))
  {
    var t, slot := ToServer(cfg, st, acked), st.c.sq[0];
    var e := Signal(slot.at);
    HeadMessage(cfg, st);
    ImmIs(cfg, st, acked);
    LandsClient(cfg, st, t, e);
    MessageMemory(cfg, st.cmds, st.c.mem, st.s.mem, st.journal, slot.at);
    ArrivesInStep(st.s, st.server, SignalAt(st.journal), slot.at, slot.payload.value,
                  Received(cfg.clientOrder, cfg.serverOrder, slot.wr.imm));
  }

  /** A message changes no memory. */
  lemma MessageMemory(cfg: Config, cmds: seq<Command>, client: seq<u8>, server: seq<u8>, journal: seq<Event>, at: nat)
    requires Memory(cfg, cmds, client, server, journal) && at < |cmds| && Message(cmds[at]) && FitsBuffer(cmds[at])
    ensures Memory(cfg, cmds, client, server, journal + [Signal(at)])
    ensures SignalAt(journal + [Signal(at)]) == SignalAt(journal) + [at]
  {
    Extend(journal, Signal(at));
    ExtendOk(cfg, cmds, journal, Signal(at));
  }

  /** No hello is left on the queue of a connected client. */
  lemma NoHello(cfg: Config, st: State)
    requires Line(cfg, st) && st.c.sq != []
    ensures !st.c.sq[0].wr.WrHello?
  {
    assert SlotOk(cfg, st.cmds, st.client, st.journal, st.c.sq[0]);
  }

  lemma DeliveryLine(cfg: Config, st: State, acked: bool)
    requires Line(cfg, st) && ToServerEnabled(cfg, st)
    ensures Line(cfg, ToServer(cfg, st, acked))
  {
    NoHello(cfg, st);
    if st.c.sq[0].wr.WrImm? {
      MessageLine(cfg, st, acked);
    } else {
      TransferLine(cfg, st, acked);
    }
  }

  lemma FetchLine(cfg: Config, st: State)
    requires Line(cfg, st) && CanFetch(st.c)
    ensures Line(cfg, st.(c := Fetch(st.c, |st.journal|)))
  {
    FetchSlots(cfg, st);
    FetchWaits(st);
  }

  lemma FetchSlots(cfg: Config, st: State)
    requires Slots(cfg, st.cmds, st.client, st.journal, st.c.sq) && CanFetch(st.c) && |st.c.buf| == CPU_BUFFER_BASE_SIZE
    requires st.c.mem == ReplayClient(cfg.clientMem, st.journal)
    ensures Slots(cfg, st.cmds, st.client, st.journal, Fetch(st.c, |st.journal|).sq)
  {
    var d := Fetch(st.c, |st.journal|);
    assert SlotOk(cfg, st.cmds, st.client, st.journal, st.c.sq[0]);
    assert st.journal[..|st.journal|] == st.journal;
    RemoteAgreesWithLocal(cfg.serverBufs);
    forall y | 1 <= y < |d.sq|
      ensures d.sq[y] == st.c.sq[y]
    {
    }
  }

  lemma FetchWaits(st: State)
    requires CanFetch(st.c)
    ensures var d := Fetch(st.c, |st.journal|);
            |d.sq| == |st.c.sq| && (forall y :: 0 <= y < |d.sq| ==> d.sq[y].at == st.c.sq[y].at && d.sq[y].wr == st.c.sq[y].wr)
            && forall i :: Waits(st.c.sq, i) ==> Waits(d.sq, i)
  {
    var d := Fetch(st.c, |st.journal|);
    forall i | Waits(st.c.sq, i)
      ensures Waits(d.sq, i)
    {
      var y :| 0 <= y < |st.c.sq| && st.c.sq[y].at == i;
      assert d.sq[y].at == i;
    }
  }

  lemma FlushClientLine(cfg: Config, st: State)
    requires Line(cfg, st) && st.c.err
    ensures st.c.sq != [] ==> Line(cfg, st.(c := FlushSend(st.c)))
    ensures st.c.rq != [] ==> Line(cfg, st.(c := FlushRecv(st.c)))
  {
    if st.c.sq != [] {
      PopsSlots(cfg, st);
    }
  }

  lemma PopsSlots(cfg: Config, st: State)
    requires Slots(cfg, st.cmds, st.client, st.journal, st.c.sq) && Ordered(st.client, OwnAt(st.journal), st.c.sq) && st.c.sq != []
    ensures Slots(cfg, st.cmds, st.client, st.journal, st.c.sq[1..]) && Ordered(st.client, OwnAt(st.journal), st.c.sq[1..])
  {
    forall y | 0 <= y < |st.c.sq| - 1
      ensures SlotOk(cfg, st.cmds, st.client, st.journal, st.c.sq[1..][y])
    {
      assert st.c.sq[1..][y] == st.c.sq[y + 1];
    }
  }

  lemma FlushServerLine(cfg: Config, st: State)
    requires Line(cfg, st) && st.s.rq != []
    ensures Line(cfg, st.(s := FlushRecv(st.s)))
  {
  }

  lemma FaultLine(cfg: Config, st: State)
    requires Line(cfg, st)
    ensures Line(cfg, st.(c := st.c.(err := true))) && Line(cfg, st.(s := st.s.(err := true)))
  {
  }

  /** A write by somebody else. */
  lemma WriteSlots(cfg: Config, cmds: seq<Command>, client: Client, journal: seq<Event>, sq: seq<Slot>, e: Event)
    requires Slots(cfg, cmds, client, journal, sq) && !Own(e)
    ensures Slots(cfg, cmds, client, journal + [e], sq)
  {
    Extend(journal, e);
    assert OwnAt(journal + [e]) == OwnAt(journal);
    forall y | 0 <= y < |sq|
      ensures SlotOk(cfg, cmds, client, journal + [e], sq[y])
    {
      assert SlotOk(cfg, cmds, client, journal, sq[y]);
      assert sq[y].seen <= |journal| ==> (journal + [e])[..sq[y].seen] == journal[..sq[y].seen];
    }
  }

  lemma WriteBefore(client: Client, journal: seq<Event>, e: Event)
    requires AllBefore(client, journal) && !Own(e)
    ensures AllBefore(client, journal + [e])
  {
    forall q, i | 0 <= q < |journal + [e]| && Own((journal + [e])[q]) && 0 <= i < (journal + [e])[q].at && Posts(client, i)
      ensures i in OwnAt((journal + [e])[..q])
    {
      assert (journal + [e])[..q] == journal[..q];
    }
  }

  lemma WriteLine(cfg: Config, st: State, t: State, e: Event)
    requires Line(cfg, st) && !Own(e) && t == st.(c := st.c.(mem := t.c.mem), s := st.s.(mem := t.s.mem), journal := st.journal + [e])
    requires Memory(cfg, t.cmds, t.c.mem, t.s.mem, t.journal)
    ensures Line(cfg, t)
  {
    Extend(st.journal, e);
    assert OwnAt(t.journal) == OwnAt(st.journal) && SignalAt(t.journal) == SignalAt(st.journal);
    WriteSlots(cfg, st.cmds, st.client, st.journal, st.c.sq, e);
    WriteBefore(st.client, st.journal, e);
  }

  lemma WritesLine(cfg: Config, st: State, a: Action)
    requires Line(cfg, st) && Enabled(cfg, st, a) && (a.Intrude? || a.WriteLocal?)
    ensures Line(cfg, Effect(cfg, st, a))
  {
    var e := if a.Intrude? then Foreign(a.addr, a.data) else Local(a.addr, a.data);
    WriteMemory(cfg, st.cmds, st.c.mem, st.s.mem, st.journal, e);
    WriteLine(cfg, st, Effect(cfg, st, a), e);
  }

  lemma FabricLine(cfg: Config, st: State, a: Action)
    requires Line(cfg, st) && Enabled(cfg, st, a) && !ByProgram(a) && !a.Submit?
    ensures Line(cfg, Effect(cfg, st, a))
  {
    if a.DeliverToServer? || a.LoseAckClient? {
      DeliveryLine(cfg, st, a.DeliverToServer?);
    } else if a.FetchClient? {
      FetchLine(cfg, st);
    } else if a.Intrude? || a.WriteLocal? {
      WritesLine(cfg, st, a);
    } else if a.FaultClient? || a.FaultServer? {
      FaultLine(cfg, st);
    } else if a.FlushServerRecv? {
      FlushServerLine(cfg, st);
    } else {
      assert st.s.sq == [];
      FlushClientLine(cfg, st);
    }
  }

  lemma LineStep(cfg: Config, st: State, a: Action)
    requires Line(cfg, st) && Enabled(cfg, st, a)
    ensures Line(cfg, Effect(cfg, st, a))
  {
    if a.ClientRuns? || a.ClientIsRefused? || a.ClientPollFails? {
      ClientLine(cfg, st, a);
    } else if a.Submit? {
      SubmitLine(cfg, st, a.cmd);
    } else if ByProgram(a) {
      ServerLine(cfg, st, a);
    } else {
      FabricLine(cfg, st, a);
    }
  }

  lemma {:induction false} LineRun(cfg: Config, st: State, acts: seq<Action>, end: State)
    requires Line(cfg, st) && Run(cfg, st, acts, end)
    ensures Line(cfg, end)
    decreases |acts|
  {
    if acts != [] {
      LineStep(cfg, st, acts[0]);
      LineRun(cfg, Effect(cfg, st, acts[0]), acts[1..], end);
    }
  }

  // ----- Where it starts: a client that has just connected, and every sound state from then on

  lemma SoundSlots(cfg: Config, st: State)
    requires ClientQueues(st.c, st.client.pc) && ClientPhase(st.client.pc) >= 9
    requires Current(cfg, st.cmds, st.client, st.c.buf) && Posted(cfg, st.cmds, st.client, st.c, st.journal)
    ensures Slots(cfg, st.cmds, st.client, st.journal, st.c.sq)
    ensures st.c.sq != [] ==> |st.c.sq| == 1 && st.c.sq[0].at == st.client.k && st.c.scq == []
  {
  }

  lemma SoundOrder(cfg: Config, st: State)
    requires Worker(cfg, st) && ClientQueues(st.c, st.client.pc) && ClientPhase(st.client.pc) >= 9
    requires st.c.sq != [] ==> |st.c.sq| == 1 && st.c.sq[0].at == st.client.k && st.c.scq == []
    ensures Ordered(st.client, OwnAt(st.journal), st.c.sq)
  {
    SaneNow(cfg, st);
    UnpolledIsNow(st.c, st.client);
    LandedAtOrdered(OutcomesNow(st));
  }

  lemma SoundNoneGone(cfg: Config, st: State)
    requires Worker(cfg, st) && ClientQueues(st.c, st.client.pc)
    ensures NoneGone(st.client, OwnAt(st.journal), st.c)
  {
    SaneNow(cfg, st);
    LandedAtOrdered(OutcomesNow(st));
    forall i: nat | Posts(st.client, i)
      ensures i in OwnAt(st.journal) || Waits(st.c.sq, i) || st.c.err
    {
      LandedOrWaits(cfg, st, i);
    }
  }

  lemma LandedOrWaits(cfg: Config, st: State, i: nat)
    requires Worker(cfg, st) && ClientQueues(st.c, st.client.pc) && Posts(st.client, i)
    ensures (i < |OutcomesNow(st)| && Landed(OutcomesNow(st)[i])) || Waits(st.c.sq, i) || st.c.err
  {
    UnpolledIsNow(st.c, st.client);
    assert Current(cfg, st.cmds, st.client, st.c.buf) && Posted(cfg, st.cmds, st.client, st.c, st.journal);
    if i < |st.client.outs| {
      assert OutcomesNow(st)[i] == st.client.outs[i];
    } else if st.c.sq != [] {
      assert st.c.sq[0].at == i;
    }
  }

  lemma SoundBefore(cfg: Config, st: State)
    requires Worker(cfg, st) && ClientQueues(st.c, st.client.pc) && JournalOk(cfg, st.cmds, st.journal)
    ensures AllBefore(st.client, st.journal)
  {
    SaneNow(cfg, st);
    UnpolledIsNow(st.c, st.client);
    BeforeByOrder(st.client, st.journal, OutcomesNow(st));
  }

  lemma BeforeByOrder(client: Client, journal: seq<Event>, outs: seq<Outcome>)
    requires OwnAt(journal) == LandedAt(outs) && Sticky(outs) && client.outs <= outs && |client.outs| == client.k && |outs| <= client.k + 1
    ensures AllBefore(client, journal)
  {
    LandedAtOrdered(outs);
    forall q, i | 0 <= q < |journal| && Own(journal[q]) && 0 <= i < journal[q].at && Posts(client, i)
      ensures i in OwnAt(journal[..q])
    {
      OwnHas(journal, q);
      assert Landed(outs[journal[q].at]) && outs[i] == client.outs[i];
      OwnEvent(journal, i);
      var e :| 0 <= e < |journal| && Own(journal[e]) && journal[e].at == i;
      OwnInOrder(journal, e, q);
      assert journal[..q][e] == journal[e];
      OwnHas(journal[..q], e);
    }
  }

  /** The worker has started: the client is connected, or has been when it posted what is or was underway. */
  predicate Begun(st: State) {
    ClientPhase(st.client.pc) == 9 || HasMessage(st.c) || SignalAt(st.journal) != []
  }

  predicate HasMessage(c: Node) {
    exists y :: 0 <= y < |c.sq| && c.sq[y].wr.WrImm?
  }

  lemma SoundInStep(cfg: Config, st: State, pc: ServerPc)
    requires Setup(cfg, st) && Inbox(st) && ServerBehind(pc, st) && (ClientPhase(st.client.pc) == 9 || SignalAt(st.journal) != [])
    ensures InStep(st.s, st.server.(pc := pc), SignalAt(st.journal))
  {
    if ClientPhase(st.client.pc) == 9 {
      TableIsThere(cfg, st);
    } else {
      MessageIsThere(cfg, st);
    }
    CountsInStep(st.cmds, SignalAt(st.journal), st.server, st.s, pc);
  }

  /** A connected client has the table, so the server has sent it and polls for its completion, or later. */
  lemma TableIsThere(cfg: Config, st: State)
    requires Setup(cfg, st) && ClientPhase(st.client.pc) == 9
    ensures ServerPhase(st.server.pc) >= 8 && st.s.sq == [] && |st.s.buf| == CPU_BUFFER_BASE_SIZE && st.accepted
    ensures if st.server.pc.SPollRecv? then |st.s.rq| + |st.s.rcq| == 1
            else Out(st.server.pc) || (st.s.rq == [] && st.s.rcq == [])
  {
  }

  lemma MessageIsThere(cfg: Config, st: State)
    requires Setup(cfg, st) && Inbox(st) && SignalAt(st.journal) != []
    ensures ServerPhase(st.server.pc) >= 9 && st.s.sq == [] && |st.s.buf| == CPU_BUFFER_BASE_SIZE
    ensures if st.server.pc.SPollRecv? then |st.s.rq| + |st.s.rcq| == 1
            else Out(st.server.pc) || (st.s.rq == [] && st.s.rcq == [])
  {
    assert Arrived(st.cmds, SignalAt(st.journal), st.server, st.s);
  }

  lemma CountsInStep(cmds: seq<Command>, signals: seq<nat>, server: Server, s: Node, pc: ServerPc)
    requires Arrived(cmds, signals, server, s) && Recorded(server)
    requires ServerPhase(server.pc) >= 8 && s.sq == [] && |s.buf| == CPU_BUFFER_BASE_SIZE
    requires if server.pc.SPollRecv? then |s.rq| + |s.rcq| == 1 else Out(server.pc) || (s.rq == [] && s.rcq == [])
    requires pc == server.pc || (server.pc.SPollRecv? && pc.SDead?) || (server.pc.SPollTable? && (pc == SHangup(false) || pc == SClosed(false)))
    ensures InStep(s, server.(pc := pc), signals)
  {
    if pc != server.pc {
      StillRecorded(server, pc);
    }
  }

  lemma SoundEquipped(cfg: Config, st: State)
    requires Worker(cfg, st) && ClientQueues(st.c, st.client.pc) && ClientPhase(st.client.pc) >= 9
    requires ClientPhase(st.client.pc) == 9 ==> st.client.remote == RemoteOf(cfg.serverBufs) && st.client.peer == cfg.serverCpu
    ensures Equipped(cfg, st.cmds, st.client, st.c)
  {
    assert Outcomes(st.cmds, st.client);
  }

  lemma CoreLine(cfg: Config, st: State)
    requires Core(cfg, st) && ClientPhase(st.client.pc) >= 9 && (ClientPhase(st.client.pc) == 9 || SignalAt(st.journal) != [])
    ensures Line(cfg, st)
  {
    CoreClientLine(cfg, st);
    SoundInStep(cfg, st, st.server.pc);
  }

  lemma CoreClientLine(cfg: Config, st: State)
    requires Setup(cfg, st) && Worker(cfg, st) && JournalOk(cfg, st.cmds, st.journal) && ClientPhase(st.client.pc) >= 9
    ensures Equipped(cfg, st.cmds, st.client, st.c) && Slots(cfg, st.cmds, st.client, st.journal, st.c.sq)
    ensures Ordered(st.client, OwnAt(st.journal), st.c.sq) && NoneGone(st.client, OwnAt(st.journal), st.c)
    ensures AllBefore(st.client, st.journal)
  {
    if ClientPhase(st.client.pc) == 9 {
      KnowsRemote(cfg, st);
    }
    SoundSlots(cfg, st);
    SoundOrder(cfg, st);
    SoundNoneGone(cfg, st);
    SoundBefore(cfg, st);
    SoundEquipped(cfg, st);
  }

  lemma SoundLine(cfg: Config, st: State)
    requires Sound(cfg, st) && Begun(st)
    ensures Line(cfg, st)
  {
    var u := ReachableInv(cfg, st);
    BegunThere(cfg, st, u);
    CoreLine(cfg, u);
    ShadowLine(cfg, st, u);
  }

  lemma BegunThere(cfg: Config, st: State, u: State)
    requires Shadow(st, u) && Setup(cfg, u) && Worker(cfg, u) && Begun(st)
    ensures ClientPhase(u.client.pc) >= 9 && (ClientPhase(u.client.pc) == 9 || SignalAt(u.journal) != [])
  {
    MessagesAreTheWorkers(cfg, u);
    if SignalAt(st.journal) != [] {
      LandedMeansConnected(u.cmds, u.client, u.c, u.journal);
    } else {
      PhaseBehind(st, u);
    }
  }

  lemma PhaseBehind(st: State, u: State)
    requires Shadow(st, u) && (ClientPhase(st.client.pc) == 9 || (HasMessage(st.c) && u.client.pc.CPoll?))
    ensures ClientPhase(u.client.pc) == 9
  {
  }

  /** Only the worker posts messages. */
  lemma MessagesAreTheWorkers(cfg: Config, st: State)
    requires Setup(cfg, st)
    ensures HasMessage(st.c) ==> st.client.pc.CPoll?
  {
  }

  lemma LandedMeansConnected(cmds: seq<Command>, client: Client, c: Node, journal: seq<Event>)
    requires Outcomes(cmds, client) && Record(journal, client, c) && SignalAt(journal) != []
    ensures ClientPhase(client.pc) >= 9
  {
    SignalMeansOwn(journal);
    HasOutcomes(client, c);
  }

  lemma SignalMeansOwn(journal: seq<Event>)
    requires SignalAt(journal) != []
    ensures OwnAt(journal) != []
  {
    SignalIsOwn(journal, 0);
    var q :| 0 <= q < |journal| && journal[q] == Signal(SignalAt(journal)[0]);
    OwnHas(journal, q);
  }

  lemma HasOutcomes(client: Client, c: Node)
    requires LandedAt(client.outs) + (if LandedNow(client, c) then [client.k] else []) != []
    ensures client.outs != [] || client.pc.CPoll?
  {
  }

  lemma DiedLine(cfg: Config, u: State, t: State)
    requires Line(cfg, u) && t == u.(client := u.client.(pc := CDead))
    ensures Line(cfg, t)
  {
    DiesOnward(u.client, t.client);
    SlidesLine(cfg, u, t);
  }

  lemma ShadowLine(cfg: Config, st: State, u: State)
    requires Shadow(st, u) && Line(cfg, u) && Setup(cfg, u) && Inbox(u) && (ClientPhase(u.client.pc) == 9 || SignalAt(u.journal) != [])
    ensures Line(cfg, st)
  {
    var t := u.(client := u.client.(pc := st.client.pc));
    if st.client.pc != u.client.pc {
      DiedLine(cfg, u, t);
    }
    SoundInStep(cfg, u, st.server.pc);
    ServerMovesLine(cfg, t, st);
  }

  /** After the worker has gone on from a failed poll, and before. */
  lemma {:induction false} FlagLine(cfg: Config, st: State, acts: seq<Action>, end: State)
    requires Reachable(cfg, st) && !st.pollFailed && Run(cfg, st, acts, end) && end.pollFailed
    ensures Line(cfg, end)
    decreases |acts|
  {
    var next := Effect(cfg, st, acts[0]);
    ReachableExtends(cfg, st, acts[0]);
    if next.pollFailed {
      FlagRises(cfg, st, acts[0]);
      SoundLine(cfg, st);
      LineStep(cfg, st, acts[0]);
      LineRun(cfg, next, acts[1..], end);
    } else {
      FlagLine(cfg, next, acts[1..], end);
    }
  }

  lemma FlagRises(cfg: Config, st: State, a: Action)
    requires Enabled(cfg, st, a) && !st.pollFailed && Effect(cfg, st, a).pollFailed
    ensures ClientPhase(st.client.pc) == 9
  {
    if a.ClientRuns? {
      ClientLeavesFlag(cfg, st);
    } else if a.ServerRuns? {
      ServerLeavesFlag(cfg, st);
    } else if !ByProgram(a) {
      FabricLeavesFlag(cfg, st, a);
    }
  }

  lemma FabricLeavesFlag(cfg: Config, st: State, a: Action)
    requires Enabled(cfg, st, a) && !ByProgram(a)
    ensures Effect(cfg, st, a).pollFailed == st.pollFailed
  {
  }

  /** Once the worker has started, whatever has failed. */
  lemma ReachableLine(cfg: Config, st: State)
    requires Reachable(cfg, st) && (Begun(st) || st.pollFailed)
    ensures Line(cfg, st)
  {
    if st.pollFailed {
      var acts :| Run(cfg, Init(cfg), acts, st);
      assert Run(cfg, Init(cfg), [], Init(cfg));
      FlagLine(cfg, Init(cfg), acts, st);
    } else {
      SoundLine(cfg, st);
    }
  }

  // ----- What follows

  /** The memories at every moment, whoever writes and whatever has failed: the journal replayed over the
      first memories, each effect its command's copy. */
  lemma MemoriesReplayJournal(cfg: Config, st: State)
    requires Reachable(cfg, st)
    ensures JournalOk(cfg, st.cmds, st.journal)
    ensures st.c.mem == ReplayClient(cfg.clientMem, st.journal) && st.s.mem == ReplayServer(cfg.serverMem, st.journal)
    ensures forall q :: 0 <= q < |st.journal| ==> PlainEvent(cfg, st.cmds, st.journal[..q], st.journal[q])
  {
    if st.pollFailed {
      ReachableLine(cfg, st);
    } else {
      var u := ReachableInv(cfg, st);
    }
    ReachableConfig(cfg, st);
    EventsArePlain(cfg, st.cmds, st.journal);
  }

  lemma EventsArePlain(cfg: Config, cmds: seq<Command>, journal: seq<Event>)
    requires ValidConfig(cfg) && JournalOk(cfg, cmds, journal)
    ensures forall q :: 0 <= q < |journal| ==> PlainEvent(cfg, cmds, journal[..q], journal[q])
    ensures InBounds(journal, |cfg.clientMem|, |cfg.serverMem|)
  {
    forall q | 0 <= q < |journal|
      ensures PlainEvent(cfg, cmds, journal[..q], journal[q])
      ensures !journal[q].Signal? ==>
                journal[q].addr + |journal[q].data| <= if journal[q].Push? || journal[q].Foreign? then |cfg.serverMem| else |cfg.clientMem|
    {
      JournalOkAt(cfg, cmds, journal, q);
      EventIsPlain(cfg, cmds, journal[..q], journal[q]);
    }
  }

  /** Both memories, byte by byte: a byte is what the last effect or foreign write that covers it has put
      there, and its first value if there is none. */
  lemma MemoriesByByte(cfg: Config, st: State, b: nat)
    requires Reachable(cfg, st)
    ensures |st.s.mem| == |cfg.serverMem| && |st.c.mem| == |cfg.clientMem|
    ensures b < |st.s.mem| ==> forall e: nat :: LastOnServer(st.journal, e, b) ==> st.s.mem[b] == st.journal[e].data[b - st.journal[e].addr]
    ensures b < |st.s.mem| && (forall e: nat :: !LastOnServer(st.journal, e, b)) ==> st.s.mem[b] == cfg.serverMem[b]
    ensures b < |st.c.mem| ==> forall e: nat :: LastOnClient(st.journal, e, b) ==> st.c.mem[b] == st.journal[e].data[b - st.journal[e].addr]
    ensures b < |st.c.mem| && (forall e: nat :: !LastOnClient(st.journal, e, b)) ==> st.c.mem[b] == cfg.clientMem[b]
  {
    AreReplays(cfg, st);
    if b < |st.s.mem| {
      ServerByteIs(cfg.serverMem, st.journal, |cfg.clientMem|, b);
    }
    if b < |st.c.mem| {
      ClientByteIs(cfg.clientMem, st.journal, |cfg.serverMem|, b);
    }
  }

  lemma AreReplays(cfg: Config, st: State)
    requires Reachable(cfg, st)
    ensures st.c.mem == ReplayClient(cfg.clientMem, st.journal) && st.s.mem == ReplayServer(cfg.serverMem, st.journal)
    ensures InBounds(st.journal, |cfg.clientMem|, |cfg.serverMem|)
  {
    MemoriesReplayJournal(cfg, st);
    ReachableConfig(cfg, st);
    EventsArePlain(cfg, st.cmds, st.journal);
  }

  // ----- What is skipped

  /** Whatever has failed, exactly the `Send`s and `Recv`s of no bytes are skipped. */
  lemma SkippedIff(cfg: Config, st: State, i: nat)
    requires Reachable(cfg, st) && i < |st.client.outs|
    ensures i < |st.cmds|
    ensures st.client.outs[i].Skipped? <==> (st.cmds[i].Send? || st.cmds[i].Recv?) && st.cmds[i].local.size == 0
  {
    if st.pollFailed {
      ReachableLine(cfg, st);
      EquippedSkips(cfg, st);
    } else {
      var u := ReachableInv(cfg, st);
      WorkerSkips(cfg, u);
    }
  }

  lemma EquippedSkips(cfg: Config, st: State)
    requires Equipped(cfg, st.cmds, st.client, st.c)
    ensures OnlyEmptySkipped(st.cmds, st.client.outs)
  {
  }

  lemma WorkerSkips(cfg: Config, st: State)
    requires Worker(cfg, st)
    ensures OnlyEmptySkipped(st.cmds, st.client.outs)
  {
    assert Outcomes(st.cmds, st.client);
  }

  predicate OnlyEmptySkipped(cmds: seq<Command>, outs: seq<Outcome>) {
    |outs| <= |cmds|
    && forall i :: 0 <= i < |outs| ==> (outs[i].Skipped? <==> (cmds[i].Send? || cmds[i].Recv?) && cmds[i].local.size == 0)
  }

  /** Taking a command ends the worker exactly when it is unworkable. */
  lemma PanicsIff(cfg: Config, st: State)
    requires Reachable(cfg, st) && st.client.pc.CNext? && st.client.k < |st.cmds|
    ensures ClientStep(cfg, st).client.pc.CDead? <==> Unworkable(cfg, st.cmds[st.client.k])
  {
    ReachableLine(cfg, st);
    EquippedPanics(cfg, st);
  }

  lemma EquippedPanics(cfg: Config, st: State)
    requires Equipped(cfg, st.cmds, st.client, st.c) && st.client.pc.CNext? && st.client.k < |st.cmds|
    ensures ClientStep(cfg, st).client.pc.CDead? <==> Unworkable(cfg, st.cmds[st.client.k])
  {
    var cmd := st.cmds[st.client.k];
    if cmd.Send? || cmd.Recv? {
      ResolvableIff(cfg, cmd);
    }
  }

  /** A pushed block is still in the server's memory if nothing wrote over it since. */
  lemma {:induction false} StillThere(m: seq<u8>, j: seq<Event>, e: nat)
    requires e < |j| && j[e].Push? && j[e].addr + |j[e].data| <= |m|
    requires forall x :: e < x < |j| && (j[x].Push? || j[x].Foreign?) ==>
                           j[x].addr + |j[x].data| <= j[e].addr || j[e].addr + |j[e].data| <= j[x].addr
    ensures Slice(ReplayServer(m, j), j[e].addr, |j[e].data|) == j[e].data
  {
    var n := |j| - 1;
    var before := ReplayServer(m, j[..n]);
    if e == n {
      SpliceAt(before, j[e].addr, j[e].data);
    } else {
      StillThere(m, j[..n], e);
      if j[n].Push? || j[n].Foreign? {
        SpliceApart(before, j[n].addr, j[n].data, j[e].addr, |j[e].data|);
      }
    }
  }

  /** A pulled block is still in the client's memory if nothing wrote over it since. */
  lemma {:induction false} StillHere(m: seq<u8>, j: seq<Event>, e: nat)
    requires e < |j| && j[e].Pull? && j[e].addr + |j[e].data| <= |m|
    requires forall x :: e < x < |j| && (j[x].Pull? || j[x].Local?) ==>
                           j[x].addr + |j[x].data| <= j[e].addr || j[e].addr + |j[e].data| <= j[x].addr
    ensures Slice(ReplayClient(m, j), j[e].addr, |j[e].data|) == j[e].data
  {
    var n := |j| - 1;
    var before := ReplayClient(m, j[..n]);
    if e == n {
      SpliceAt(before, j[e].addr, j[e].data);
    } else {
      StillHere(m, j[..n], e);
      if j[n].Pull? || j[n].Local? {
        SpliceApart(before, j[n].addr, j[n].data, j[e].addr, |j[e].data|);
      }
    }
  }

  lemma SpliceApart(m: seq<u8>, a: nat, data: seq<u8>, b: nat, n: nat)
    requires a + |data| <= b || b + n <= a
    ensures Slice(Splice(m, a, data), b, n) == Slice(m, b, n)
  {
  }

  /** A sent block is in the server's memory from its event on until something overlaps it. */
  lemma SentBlockInPlace(cfg: Config, st: State, e: nat)
    requires Reachable(cfg, st) && e < |st.journal| && st.journal[e].Push?
    requires var w := st.journal[e];
             forall x :: e < x < |st.journal| && (st.journal[x].Push? || st.journal[x].Foreign?) ==>
                           st.journal[x].addr + |st.journal[x].data| <= w.addr || w.addr + |w.data| <= st.journal[x].addr
    ensures Slice(st.s.mem, st.journal[e].addr, |st.journal[e].data|) == st.journal[e].data
  {
    MemoriesReplayJournal(cfg, st);
    JournalOkAt(cfg, st.cmds, st.journal, e);
    ReachableConfig(cfg, st);
    AllowedInMemory(cfg, st.cmds[st.journal[e].at]);
    StillThere(cfg.serverMem, st.journal, e);
  }

  /** A received block is in the client's memory from its event on until something overlaps it. */
  lemma ReceivedBlockInPlace(cfg: Config, st: State, e: nat)
    requires Reachable(cfg, st) && e < |st.journal| && st.journal[e].Pull?
    requires var w := st.journal[e];
             forall x :: e < x < |st.journal| && (st.journal[x].Pull? || st.journal[x].Local?) ==>
                           st.journal[x].addr + |st.journal[x].data| <= w.addr || w.addr + |w.data| <= st.journal[x].addr
    ensures Slice(st.c.mem, st.journal[e].addr, |st.journal[e].data|) == st.journal[e].data
  {
    MemoriesReplayJournal(cfg, st);
    JournalOkAt(cfg, st.cmds, st.journal, e);
    ReachableConfig(cfg, st);
    AllowedInMemory(cfg, st.cmds[st.journal[e].at]);
    StillHere(cfg.clientMem, st.journal, e);
  }

  lemma ReachableConfig(cfg: Config, st: State)
    requires Reachable(cfg, st)
    ensures ValidConfig(cfg)
  {
  }

  /** Whenever a message has arrived, every transfer before it had taken effect by then, unless its own post
      was refused; whatever has failed, and whatever the worker has made of its completions. */
  ghost predicate AfterAllData(cfg: Config, st: State, p: nat, q: nat) {
    q < |st.journal| && st.journal[q] == Signal(p) && p < |st.cmds|
    && forall i :: 0 <= i < p && MovesBytes(st.cmds[i]) ==>
                     i < |st.client.outs| && (st.client.outs[i].Refused? || TookEffectBefore(cfg, st.cmds, st.journal, i, q))
  }

  lemma MessageAfterData(cfg: Config, st: State, q: nat)
    requires Reachable(cfg, st) && q < |st.journal| && st.journal[q].Signal?
    ensures AfterAllData(cfg, st, st.journal[q].at, q)
  {
    SignalThere(st.journal, q);
    ReachableLine(cfg, st);
    LineMeansData(cfg, st, q);
  }

  lemma {:induction false} SignalThere(j: seq<Event>, q: nat)
    requires q < |j| && j[q].Signal?
    ensures SignalAt(j) != []
  {
    if q < |j| - 1 {
      SignalThere(j[..|j| - 1], q);
    }
  }

  lemma LineMeansData(cfg: Config, st: State, q: nat)
    requires Line(cfg, st) && ValidConfig(cfg) && q < |st.journal| && st.journal[q].Signal?
    ensures AfterAllData(cfg, st, st.journal[q].at, q)
  {
    var p := st.journal[q].at;
    OwnHas(st.journal, q);
    JournalOkAt(cfg, st.cmds, st.journal, q);
    forall i | 0 <= i < p && MovesBytes(st.cmds[i])
      ensures i < |st.client.outs|
      ensures st.client.outs[i].Refused? || TookEffectBefore(cfg, st.cmds, st.journal, i, q)
    {
      assert InReach(p, st.client);
      if !st.client.outs[i].Refused? {
        assert Posts(st.client, i);
        EffectBefore(cfg, st.cmds, st.journal, i, q);
      }
    }
  }

  lemma EffectBefore(cfg: Config, cmds: seq<Command>, journal: seq<Event>, i: nat, q: nat)
    requires ValidConfig(cfg) && JournalOk(cfg, cmds, journal) && q < |journal| && i in OwnAt(journal[..q])
    ensures TookEffectBefore(cfg, cmds, journal, i, q)
  {
    OwnEvent(journal[..q], i);
    var e :| 0 <= e < q && Own(journal[..q][e]) && journal[..q][e].at == i;
    assert journal[e] == journal[..q][e];
    JournalOkAt(cfg, cmds, journal, e);
    EventIsPlain(cfg, cmds, journal[..e], journal[e]);
  }

  /** Behind every id the server has recorded there is a message that it has returned, before which all the
      transfers of its client had taken effect, unless their own posts were refused. Whatever has failed,
      only that the message is the one of its command depends on what `Tearing` is about. */
  lemma RecordedAfterData(cfg: Config, st: State, m: nat) returns (n: nat, p: nat, q: nat)
    requires Reachable(cfg, st) && m < |st.server.recorded|
    ensures n < |st.server.returned| && n < |SignalAt(st.journal)| && SignalAt(st.journal)[n] == p
    ensures st.server.returned[n].done == 0 && st.server.returned[n].reqId == Some(st.server.recorded[m])
    ensures AfterAllData(cfg, st, p, q)
    ensures !st.pollFailed ==> CompletedAfterData(cfg, st, st.server.recorded[m], p, q)
  {
    RecordedMeansLine(cfg, st);
    n, p, q := RecordedAt(cfg, st, m);
    if !st.pollFailed {
      SoundRecorded(cfg, st, n, p, q, st.server.recorded[m]);
    }
  }

  lemma RecordedAt(cfg: Config, st: State, m: nat) returns (n: nat, p: nat, q: nat)
    requires Line(cfg, st) && ValidConfig(cfg) && m < |st.server.recorded|
    ensures n < |st.server.returned| && n < |SignalAt(st.journal)| && SignalAt(st.journal)[n] == p
    ensures st.server.returned[n].done == 0 && st.server.returned[n].reqId == Some(st.server.recorded[m])
    ensures AfterAllData(cfg, st, p, q)
  {
    n := RecordedFrom(st.server, m);
    p := SignalAt(st.journal)[n];
    SignalIsOwn(st.journal, n);
    q :| 0 <= q < |st.journal| && st.journal[q] == Signal(p);
    LineMeansData(cfg, st, q);
  }

  lemma SoundRecorded(cfg: Config, st: State, n: nat, p: nat, q: nat, id: ReqId)
    requires Sound(cfg, st) && n < |st.server.returned| && n < |SignalAt(st.journal)| && SignalAt(st.journal)[n] == p
    requires st.server.returned[n].done == 0 && st.server.returned[n].reqId == Some(id) && q < |st.journal| && st.journal[q] == Signal(p)
    ensures CompletedAfterData(cfg, st, id, p, q)
  {
    var u := ReachableInv(cfg, st);
    ReturnedEach(u.cmds, SignalAt(u.journal), u.server, u.s);
    SaneNow(cfg, u);
    SignalAfterData(cfg, u, id, p, q);
  }

  lemma RecordedMeansLine(cfg: Config, st: State)
    requires Reachable(cfg, st) && st.server.recorded != []
    ensures Line(cfg, st)
  {
    if !st.pollFailed {
      var u := ReachableInv(cfg, st);
      var n := RecordedFrom(u.server, 0);
      ReturnedEach(u.cmds, SignalAt(u.journal), u.server, u.s);
    }
    ReachableLine(cfg, st);
  }
}
