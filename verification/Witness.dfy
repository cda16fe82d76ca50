/** Runs that show where the guarantees end: a refused post, and a poll call that itself fails. */
module Witness {
  import opened Bytes
  import opened Wrappers
  import opened Codec
  import opened ImmWord
  import opened MemBuffers
  import opened Registration
  import opened Completion
  import opened Commands
  import opened Journal
  import opened Protocol
  import opened Invariant
  import opened Preservation
  import opened FabricPreservation
  import opened Shadows
  import opened Theorems
  import opened Reports
  import opened Tearing
  import opened Progress

  // ----- A connection that has just been established

  /** Nothing but the handshake has happened. */
  predicate Fresh(cfg: Config, st: State) {
    st.cmds == [] && st.journal == [] && st.client.k == 0 && st.client.outs == [] && st.client.win == New(cfg.cap)
    && !st.client.locked && st.server.returned == [] && st.server.recorded == [] && !st.pollFailed
    && (Connected(st) ==> st.client.pc == CNext)
    && (Accepted(st) ==> st.server.pc == SPostRecv)
  }

  lemma FreshStep(cfg: Config, st: State, a: Action)
    requires Core(cfg, st) && Fresh(cfg, st) && Smooth(cfg, st) && HandshakeAction(st, a) && Enabled(cfg, st, a)
    ensures Fresh(cfg, Effect(cfg, st, a))
  {
    match a
    case ClientRuns => FreshConnect(cfg, st);
    case ServerRuns => FreshAccept(cfg, st);
    case DeliverToServer => SendsHello(cfg, st); FreshHello(cfg, st);
    case DeliverToClient => FreshReply(cfg, st);
    case FetchServer =>
  }

  lemma FreshConnect(cfg: Config, st: State)
    requires Setup(cfg, st) && Fresh(cfg, st) && ClientEnabled(st) && Connecting(st.client.pc)
    ensures Fresh(cfg, ConnectStep(cfg, st))
  {
    ConnectSetup(cfg, st);
    FreshClient(cfg, st, ConnectStep(cfg, st));
  }

  lemma FreshClient(cfg: Config, st: State, t: State)
    requires Fresh(cfg, st) && ClientSetupOnly(st, t)
    ensures Fresh(cfg, t)
  {
  }

  lemma FreshAccept(cfg: Config, st: State)
    requires Setup(cfg, st) && Fresh(cfg, st) && ServerEnabled(st) && (Accepting(st.server.pc) || st.server.pc == SHangup(false))
    ensures Fresh(cfg, ServerStep(cfg, st))
  {
    if Accepting(st.server.pc) {
      AcceptSetup(cfg, st);
      FreshServer(cfg, st, AcceptStep(cfg, st));
    }
  }

  lemma FreshServer(cfg: Config, st: State, t: State)
    requires Fresh(cfg, st) && ServerSetupOnly(st, t)
    ensures Fresh(cfg, t)
  {
  }

  lemma FreshHello(cfg: Config, st: State)
    requires Fresh(cfg, st) && ToServerEnabled(cfg, st) && HelloDeliverable(st.c, st.s)
    ensures Fresh(cfg, ToServer(cfg, st, true))
  {
  }

  lemma FreshReply(cfg: Config, st: State)
    requires Fresh(cfg, st) && ToClientEnabled(cfg, st)
    ensures Fresh(cfg, ToClient(cfg, st, true))
  {
  }

  lemma {:induction false} FreshRun(cfg: Config, st: State, acts: seq<Action>, end: State)
    requires OnCourse(cfg, st) && Fresh(cfg, st) && HandshakeRun(cfg, st, acts, end)
    ensures Fresh(cfg, end)
    decreases |acts|
  {
    if acts != [] {
      FreshStep(cfg, st, acts[0]);
      StepDescends(cfg, st, acts[0]);
      StepKeeps(cfg, st, acts[0]);
      FreshRun(cfg, Effect(cfg, st, acts[0]), acts[1..], end);
    }
  }

  /** An established connection with nothing submitted yet. */
  ghost predicate Ready(cfg: Config, st: State) {
    Reachable(cfg, st) && Core(cfg, st) && Fresh(cfg, st) && Established(st)
    && !st.c.err && !st.s.err && st.c.sq == [] && st.c.scq == [] && st.s.rq == [] && st.s.rcq == []
  }

  /** Every configuration whose table fits can be brought there. */
  lemma ReadyExists(cfg: Config) returns (st: State)
    requires ValidConfig(cfg) && TableFits(cfg)
    ensures Ready(cfg, st)
  {
    InitHealthy(cfg);
    var acts;
    acts, st := HandshakeCompletes(cfg, Init(cfg));
    HandshakeRunIsRun(cfg, Init(cfg), acts, st);
    FreshRun(cfg, Init(cfg), acts, st);
    EndsByTable(cfg, st);
    assert Setup(cfg, st);
  }

  // ----- One `Complete` up to its post

  /** The state when the message of `Complete(id)` is staged, the window updated and the guard held. */
  function Posting(st: State, id: ReqId): State {
    st.(cmds := st.cmds + [Complete(id)],
        c := st.c.(buf := Overlay(st.c.buf, EncodeNotification(NoteOf(Complete(id))))),
        client := st.client.(pc := CPost, win := Round(st.client.win, id), locked := true))
  }

  lemma WindowRounds(cfg: Config, st: State)
    requires st.client.pc == CLock && st.client.k < |st.cmds| && st.cmds[st.client.k].Complete?
    ensures var a := WorkerStep(cfg, st); var b := WorkerStep(cfg, a); ClientEnabled(b)
    ensures WorkerStep(cfg, WorkerStep(cfg, WorkerStep(cfg, st))) ==
            st.(client := st.client.(pc := CPost, win := Round(st.client.win, st.cmds[st.client.k].reqId), locked := true))
  {
    WindowAdds(cfg, st);
    WindowEvicts(cfg, WorkerStep(cfg, WorkerStep(cfg, st)));
  }

  lemma WindowAdds(cfg: Config, st: State)
    requires st.client.pc == CLock && st.client.k < |st.cmds| && st.cmds[st.client.k].Complete?
    ensures WorkerStep(cfg, WorkerStep(cfg, st)) ==
            st.(client := st.client.(pc := CEvict, win := Add(st.client.win, st.cmds[st.client.k].reqId), locked := true))
  {
  }

  lemma WindowEvicts(cfg: Config, st: State)
    requires st.client.pc == CEvict && st.client.k < |st.cmds|
    ensures WorkerStep(cfg, st) ==
            st.(client := st.client.(pc := CPost, win := if Full(st.client.win) then Evict(st.client.win) else st.client.win))
  {
  }

  lemma ReachPosting(cfg: Config, st: State, id: ReqId)
    requires Reachable(cfg, st) && st.client.pc == CNext && st.client.k == |st.cmds| && |st.c.buf| == CPU_BUFFER_BASE_SIZE
    requires FitsBuffer(Complete(id))
    ensures Reachable(cfg, Posting(st, id))
  {
    ReachStaged(cfg, st, id);
    var s := Staged(st.(cmds := st.cmds + [Complete(id)]), CLock);
    ReachRound(cfg, s);
  }

  lemma ReachStaged(cfg: Config, st: State, id: ReqId)
    requires Reachable(cfg, st) && st.client.pc == CNext && st.client.k == |st.cmds| && |st.c.buf| == CPU_BUFFER_BASE_SIZE
    requires FitsBuffer(Complete(id))
    ensures Reachable(cfg, Staged(st.(cmds := st.cmds + [Complete(id)]), CLock))
  {
    var s1 := st.(cmds := st.cmds + [Complete(id)]);
    ReachableExtends(cfg, st, Submit(Complete(id)));
    TakingIsStaging(cfg, s1);
    ReachableExtends(cfg, s1, ClientRuns);
  }

  lemma ReachRound(cfg: Config, s: State)
    requires Reachable(cfg, s) && s.client.pc == CLock && s.client.k < |s.cmds| && s.cmds[s.client.k].Complete?
    ensures Reachable(cfg, s.(client := s.client.(pc := CPost, win := Round(s.client.win, s.cmds[s.client.k].reqId), locked := true)))
  {
    WindowRounds(cfg, s);
    ReachableExtends(cfg, s, ClientRuns);
    ReachableExtends(cfg, WorkerStep(cfg, s), ClientRuns);
    ReachableExtends(cfg, WorkerStep(cfg, WorkerStep(cfg, s)), ClientRuns);
  }

  // ----- A refused post

  /** The state after the post of `Complete(id)` was refused: logged, and the worker goes on. */
  function AfterRefusal(st: State, id: ReqId): State {
    Finish(Posting(st, id), Refused)
  }

  lemma ReachRefusal(cfg: Config, st: State, id: ReqId)
    requires Reachable(cfg, st) && st.client.pc == CNext && st.client.k == |st.cmds| && |st.c.buf| == CPU_BUFFER_BASE_SIZE
    requires FitsBuffer(Complete(id))
    ensures Reachable(cfg, AfterRefusal(st, id))
  {
    ReachPosting(cfg, st, id);
    ReachableExtends(cfg, Posting(st, id), ClientIsRefused);
  }

  /** The client can report a request as complete although the server has been told nothing: its window
      is updated before the write and kept when the write fails. */
  lemma ClientReportsUndelivered(cfg: Config, id: ReqId) returns (st: State)
    requires ValidConfig(cfg) && TableFits(cfg) && cfg.cap >= 2 && FitsBuffer(Complete(id))
    ensures Sound(cfg, st) && ClientReports(st, id) && SignalAt(st.journal) == [] && st.server.recorded == []
  {
    var r := ReadyExists(cfg);
    ReachRefusal(cfg, r, id);
    st := AfterRefusal(r, id);
  }

  // ----- One message from the client's queue to the server's loop

  /** The client's oldest request is a message, ready to be delivered; the server is about to post. */
  predicate InFlight(cfg: Config, st: State, size: nat) {
    |st.c.sq| == 1 && st.c.sq[0].wr == WrImm(cfg.serverCpu.basePtr, cfg.serverCpu.rkey, MetadataWord(size))
    && size <= |st.c.buf| == |st.s.buf| == CPU_BUFFER_BASE_SIZE && !st.c.err && !st.s.err && st.accepted
    && st.server.pc == SPostRecv && st.s.rq == [] && st.s.rcq == []
  }

  /** The state once the payload, fetched as the buffer is now, has arrived. */
  function Landing(st: State, size: nat): State
    requires st.c.sq != []
  {
    var slot := st.c.sq[0];
    st.(c := Acknowledge(st.c.(sq := [slot.(payload := Some(st.c.buf), seen := |st.journal|)] + st.c.sq[1..]), OpWrite, true),
        s := st.s.(buf := st.c.buf),
        server := st.server.(pc := SDecode(size)),
        journal := st.journal + [Signal(slot.at)])
  }

  lemma ReachLanding(cfg: Config, st: State, size: nat)
    requires Reachable(cfg, st) && InFlight(cfg, st, size)
    ensures Reachable(cfg, Landing(st, size))
  {
    ReachFetched(cfg, st, size);
    var s2 := Fetched(st);
    ReachableExtends(cfg, s2, DeliverToServer);
    DeliveredIs(cfg, st, size);
    ReachableExtends(cfg, Delivered(st, size), ServerRuns);
    LandingPolled(cfg, st, size);
  }

  /** The server has posted its receive and the adapter has read the buffer. */
  function Fetched(st: State): State
    requires st.c.sq != []
  {
    SetServer(st, SPollRecv).(s := PostRecv(st.s, BufferReceive),
                              c := st.c.(sq := [st.c.sq[0].(payload := Some(st.c.buf), seen := |st.journal|)] + st.c.sq[1..]))
  }

  /** The message is in the server's buffer and its completion in the queue. */
  function Delivered(st: State, size: nat): State
    requires st.c.sq != [] && size < 0x1_0000_0000
  {
    Landing(st, size).(s := st.s.(buf := st.c.buf, rcq := [WorkCompletion(true, OpRecvImm, size, 0, true)]),
                       server := st.server.(pc := SPollRecv))
  }

  lemma ReachFetched(cfg: Config, st: State, size: nat)
    requires Reachable(cfg, st) && InFlight(cfg, st, size)
    ensures Reachable(cfg, Fetched(st)) && Enabled(cfg, Fetched(st), DeliverToServer)
  {
    ReachableExtends(cfg, st, ServerRuns);
    ReachableExtends(cfg, SetServer(st, SPollRecv).(s := PostRecv(st.s, BufferReceive)), FetchClient);
  }

  lemma DeliveredIs(cfg: Config, st: State, size: nat)
    requires InFlight(cfg, st, size) && Enabled(cfg, Fetched(st), DeliverToServer)
    ensures ToServer(cfg, Fetched(st), true) == Delivered(st, size)
  {
    SizeWordExact(cfg.clientOrder, cfg.serverOrder, 0, size);
  }

  lemma LandingPolled(cfg: Config, st: State, size: nat)
    requires st.c.sq != [] && st.s.rq == [] && st.s.rcq == [] && size < 0x1_0000_0000
    ensures ServerEnabled(Delivered(st, size)) && ServerStep(cfg, Delivered(st, size)) == Landing(st, size)
  {
  }

  lemma DecodeReturns(cfg: Config, st: State, cmd: Command)
    requires st.server.pc == SDecode(NotificationSize(NoteOf(cmd))) && HoldsNote(cmd, st.s.buf)
    ensures ServerEnabled(st) && ServerStep(cfg, st) == Return(st, NoteOf(cmd))
  {
    NoteReads(cmd, st.s.buf);
  }

  /** The request of a staged message on the client's queue. */
  function Sending(cfg: Config, st: State, id: ReqId): State {
    var wr := WrImm(cfg.serverCpu.basePtr, cfg.serverCpu.rkey, MetadataWord(NotificationSize(NoteOf(Complete(id)))));
    SetClient(Posting(st, id), CPoll).(c := PostSend(Posting(st, id).c, wr, st.client.k, |st.journal|))
  }

  lemma ReachSending(cfg: Config, st: State, id: ReqId)
    requires Reachable(cfg, st) && st.client.pc == CNext && st.client.k == |st.cmds| && |st.c.buf| == CPU_BUFFER_BASE_SIZE
    requires st.client.remote == RemoteOf(cfg.serverBufs) && st.client.peer == cfg.serverCpu && FitsBuffer(Complete(id))
    ensures Reachable(cfg, Sending(cfg, st, id))
  {
    ReachPosting(cfg, st, id);
    PostingIsPost(cfg, Posting(st, id));
    ReachableExtends(cfg, Posting(st, id), ClientRuns);
  }

  // ----- What a refused post does to the order of messages

  /** A refused message is skipped for good: what the server returns is then not the start of what the
      client passed to `write_metadata`. */
  lemma RefusedMessageIsLost(cfg: Config, a: ReqId, b: ReqId) returns (st: State)
    requires ValidConfig(cfg) && TableFits(cfg) && FitsBuffer(Complete(a)) && FitsBuffer(Complete(b)) && a != b
    ensures Sound(cfg, st) && st.cmds == [Complete(a), Complete(b)]
    ensures st.server.returned == [NoteOf(Complete(b))] && !(st.server.returned <= Notes(st.cmds))
  {
    var r := ReadyExists(cfg);
    KnowsRemote(cfg, r);
    ReachRefusal(cfg, r, a);
    var s := AfterRefusal(r, a);
    ReachSending(cfg, s, b);
    var t, size := Sending(cfg, s, b), NotificationSize(NoteOf(Complete(b)));
    assert InFlight(cfg, t, size);
    StagesNote(Complete(b), s.c.buf);
    st := ReachReturn(cfg, t, size, Complete(b));
    FirstNote([Complete(a)], Complete(b));
  }

  lemma FirstNote(cmds: seq<Command>, cmd: Command)
    requires |cmds| == 1 && cmds[0].Complete?
    ensures |Notes(cmds + [cmd])| > 0 && Notes(cmds + [cmd])[0] == NoteOf(cmds[0])
  {
    assert (cmds + [cmd])[..1] == cmds;
    assert Notes(cmds) == [NoteOf(cmds[0])];
  }

  // ----- What a failed completion tells the client

  /** The client's request is flushed. */
  function Flushed(s: State): State
    requires s.c.sq != []
  {
    s.(c := FlushSend(s.c.(err := true)))
  }

  lemma ReachFlushed(cfg: Config, s: State)
    requires Reachable(cfg, s) && s.c.sq != []
    ensures Reachable(cfg, Flushed(s))
  {
    ReachableExtends(cfg, s, FaultClient);
    ReachableExtends(cfg, s.(c := s.c.(err := true)), FlushClientSend);
  }

  /** The poll of a failed completion. */
  lemma PolledFailure(cfg: Config, s: State, landed: bool)
    requires s.client.pc == CPoll && s.client.k < |s.cmds| && s.cmds[s.client.k].Complete?
    requires |s.c.scq| == 1 && !s.c.scq[0].ok && s.c.scq[0].landed == landed
    ensures Enabled(cfg, s, ClientRuns) && Effect(cfg, s, ClientRuns) == Finish(s.(c := PopSent(s.c)), Failed(landed))
  {
  }

  lemma LostAck(cfg: Config, s: State, size: nat)
    requires InFlight(cfg, s, size) && Enabled(cfg, Fetched(s), DeliverToServer)
    ensures var t := ToServer(cfg, Fetched(s), false);
            t.client == s.client && t.cmds == s.cmds && t.journal == s.journal + [Signal(s.c.sq[0].at)] && t.pollFailed == s.pollFailed
            && |t.c.scq| == |s.c.scq| + 1 && t.c.scq[|s.c.scq|] == WorkCompletion(false, OpWrite, 0, s.c.sq[0].at, true)
  {
  }

  /** The client after the completion of its message has failed. */
  predicate SawFailure(cfg: Config, r: State, id: ReqId, st: State, landed: bool) {
    st.cmds == [Complete(id)] && st.client == Finish(Sending(cfg, r, id), Failed(landed)).client && !st.pollFailed
  }

  lemma Untold(cfg: Config, r: State, id: ReqId) returns (st: State)
    requires Ready(cfg, r) && FitsBuffer(Complete(id))
    ensures Reachable(cfg, st) && SawFailure(cfg, r, id, st, false) && st.journal == []
  {
    KnowsRemote(cfg, r);
    ReachSending(cfg, r, id);
    var s := Sending(cfg, r, id);
    ReachFlushed(cfg, s);
    PolledFailure(cfg, Flushed(s), false);
    ReachableExtends(cfg, Flushed(s), ClientRuns);
    st := Finish(Flushed(s).(c := PopSent(Flushed(s).c)), Failed(false));
  }

  lemma ToldUnseen(cfg: Config, r: State, id: ReqId) returns (st: State)
    requires Ready(cfg, r) && FitsBuffer(Complete(id))
    ensures Reachable(cfg, st) && SawFailure(cfg, r, id, st, true) && st.journal == [Signal(0)]
  {
    var t := AckLost(cfg, r, id);
    PolledFailure(cfg, t, true);
    ReachableExtends(cfg, t, ClientRuns);
    st := Finish(t.(c := PopSent(t.c)), Failed(true));
  }

  /** The message has landed and its acknowledgement has not come back. */
  lemma AckLost(cfg: Config, r: State, id: ReqId) returns (t: State)
    requires Ready(cfg, r) && FitsBuffer(Complete(id))
    ensures Reachable(cfg, t) && t.client == Sending(cfg, r, id).client && t.cmds == [Complete(id)] && t.journal == [Signal(0)]
    ensures |t.c.scq| == 1 && !t.c.scq[0].ok && t.c.scq[0].landed && !t.pollFailed
  {
    KnowsRemote(cfg, r);
    ReachSending(cfg, r, id);
    var s, size := Sending(cfg, r, id), NotificationSize(NoteOf(Complete(id)));
    SendingInFlight(cfg, r, id);
    ReachFetched(cfg, s, size);
    ReachableExtends(cfg, Fetched(s), LoseAckClient);
    LostAck(cfg, s, size);
    t := ToServer(cfg, Fetched(s), false);
  }

  lemma SendingInFlight(cfg: Config, r: State, id: ReqId)
    requires Ready(cfg, r) && FitsBuffer(Complete(id))
    ensures InFlight(cfg, Sending(cfg, r, id), NotificationSize(NoteOf(Complete(id))))
    ensures var s := Sending(cfg, r, id); s.c.sq[0].at == 0 && s.c.scq == [] && s.journal == [] && s.cmds == [Complete(id)]
  {
    assert Setup(cfg, r);
  }

  /** A failed completion tells the client nothing: of two runs that are the same to the client, one has
      told the server and the other has not. */
  lemma FailedEitherWay(cfg: Config, id: ReqId) returns (told: State, untold: State)
    requires ValidConfig(cfg) && TableFits(cfg) && FitsBuffer(Complete(id))
    ensures Sound(cfg, told) && Sound(cfg, untold) && told.cmds == untold.cmds == [Complete(id)]
    ensures told.client == untold.client.(outs := told.client.outs)
    ensures told.client.outs == [Failed(true)] && untold.client.outs == [Failed(false)]
    ensures SignalAt(told.journal) == [0] && SignalAt(untold.journal) == []
  {
    var r := ReadyExists(cfg);
    told := ToldUnseen(cfg, r, id);
    untold := Untold(cfg, r, id);
    Extend([], Signal(0));
  }

  // ----- What a failed poll does to a message

  /** The state after a poll failed with the message of `Complete(a)` still on the queue, and the message
      of `Complete(b)` was serialised over it. */
  function Overwritten(cfg: Config, r: State, a: ReqId, b: ReqId): State {
    var s := Finish(Sending(cfg, r, a), Failed(false)).(pollFailed := true);
    SetClient(s.(cmds := s.cmds + [Complete(b)],
                 c := s.c.(buf := Overlay(s.c.buf, EncodeNotification(NoteOf(Complete(b)))))), CLock)
  }

  lemma ReachOverwritten(cfg: Config, r: State, a: ReqId, b: ReqId)
    requires Ready(cfg, r) && FitsBuffer(Complete(a)) && FitsBuffer(Complete(b))
    ensures Reachable(cfg, Overwritten(cfg, r, a, b))
  {
    assert Setup(cfg, r);
    KnowsRemote(cfg, r);
    ReachSending(cfg, r, a);
    var s := Sending(cfg, r, a);
    ReachableExtends(cfg, s, ClientPollFails);
    var f := Finish(s, Failed(false)).(pollFailed := true);
    assert ClientBadPoll(s) == f;
    ReachableExtends(cfg, f, Submit(Complete(b)));
    var g := f.(cmds := f.cmds + [Complete(b)]);
    TakingIsStaging(cfg, g);
    ReachableExtends(cfg, g, ClientRuns);
    assert Staged(g, CLock) == Overwritten(cfg, r, a, b);
  }

  lemma OverwrittenInFlight(cfg: Config, r: State, a: ReqId, b: ReqId)
    requires Ready(cfg, r) && FitsBuffer(Complete(a)) && FitsBuffer(Complete(b))
    ensures var t := Overwritten(cfg, r, a, b);
            InFlight(cfg, t, NotificationSize(NoteOf(Complete(a))))
            && HoldsNote(Complete(b), t.c.buf) && t.c.sq[0].at == 0
            && t.pollFailed && t.cmds == [Complete(a), Complete(b)] && t.journal == []
            && t.client.pc == CLock && t.client.k == 1 && t.server.returned == []
  {
    assert Setup(cfg, r);
    StagesNote(Complete(b), Posting(r, a).c.buf);
  }

  /** Why the guarantees exclude a worker that goes on after a failed poll: the buffer still waiting to be
      sent is overwritten by the next message. Out of the write posted for `a`, before any write for `b` has
      been posted, the server returns a completion of `b`, or panics if that is longer than `a`. */
  lemma FailedPollTearsMessage(cfg: Config, a: ReqId, b: ReqId) returns (st: State)
    requires ValidConfig(cfg) && TableFits(cfg) && FitsBuffer(Complete(a)) && FitsBuffer(Complete(b)) && a != b
    ensures Reachable(cfg, st) && st.pollFailed && st.cmds == [Complete(a), Complete(b)]
    ensures SignalAt(st.journal) == [0] && st.client.pc == CLock && st.client.k == 1
    ensures if |b| <= |a| then st.server.returned == [NoteOf(Complete(b))] else st.server.pc == SDead && st.server.returned == []
  {
    var r := ReadyExists(cfg);
    ReachOverwritten(cfg, r, a, b);
    OverwrittenInFlight(cfg, r, a, b);
    var t, size := Overwritten(cfg, r, a, b), NotificationSize(NoteOf(Complete(a)));
    ReachLanding(cfg, t, size);
    var u := Landing(t, size);
    WhatIsRead(Complete(a), Complete(b), u.s.buf);
    ReachableExtends(cfg, u, ServerRuns);
    ReadsLanded(cfg, u, size);
    st := ServerStep(cfg, u);
    Extend([], Signal(0));
  }

  /** The step that decodes what has arrived. */
  lemma ReadsLanded(cfg: Config, u: State, size: nat)
    requires u.server.pc == SDecode(size) && size <= |u.s.buf|
    ensures ServerStep(cfg, u) == match DecodeNotification(u.s.buf[..size])
                                  case Success(n) => Return(u, n)
                                  case Failure(_) => SetServer(u, SDead)
  {
  }

  lemma ReachReturn(cfg: Config, t: State, size: nat, cmd: Command) returns (st: State)
    requires Reachable(cfg, t) && InFlight(cfg, t, size) && HoldsNote(cmd, t.c.buf) && size == NotificationSize(NoteOf(cmd))
    ensures Reachable(cfg, st) && st == Return(Landing(t, size), NoteOf(cmd))
  {
    ReachLanding(cfg, t, size);
    var u := Landing(t, size);
    DecodeReturns(cfg, u, cmd);
    ReachableExtends(cfg, u, ServerRuns);
    st := Return(u, NoteOf(cmd));
  }

  // ----- What a failed poll of a transfer does to the messages after it

  /** The poll of a posted `Recv` fails, and the read completes afterwards. */
  lemma LateCompletion(cfg: Config, r: State, cmd: Command) returns (st: State)
    requires Ready(cfg, r) && cmd.Recv? && Transfer(cmd) && Allowed(cfg, cmd)
    ensures Reachable(cfg, st) && st.cmds == [cmd] && st.client.pc == CNext && st.client.k == 1 && st.client.outs == [Failed(false)]
    ensures st.client.remote == RemoteOf(cfg.serverBufs) && st.client.peer == cfg.serverCpu
    ensures |st.c.buf| == CPU_BUFFER_BASE_SIZE && st.c.sq == [] && |st.c.scq| == 1 && st.c.scq[0].ok
    ensures st.s == r.s && st.server == r.server && st.accepted && !st.c.err && SignalAt(st.journal) == []
  {
    var p := PostedRecv(cfg, r, cmd);
    ReachableExtends(cfg, p, ClientPollFails);
    var f := Finish(p, Failed(false)).(pollFailed := true);
    assert ClientBadPoll(p) == f;
    RecvLands(cfg, f, cmd);
    ReachableExtends(cfg, f, DeliverToServer);
    st := ToServer(cfg, f, true);
  }

  lemma PostedRecv(cfg: Config, r: State, cmd: Command) returns (p: State)
    requires Ready(cfg, r) && cmd.Recv? && Transfer(cmd) && Allowed(cfg, cmd)
    ensures Reachable(cfg, p) && p.cmds == [cmd] && p.client.pc == CPoll && p.client.k == 0 && p.client.outs == []
    ensures p.client.remote == RemoteOf(cfg.serverBufs) && p.client.peer == cfg.serverCpu
    ensures p.c.sq == [Slot(RequestFor(cfg, cfg.serverCpu, RemoteOf(cfg.serverBufs), cmd), 0, Option.None, 0, 0)] && p.c.scq == []
    ensures |p.c.buf| == CPU_BUFFER_BASE_SIZE && p.s == r.s && p.server == r.server && p.accepted && !p.c.err && p.journal == []
  {
    var t := TakenRecv(cfg, r, cmd);
    PostingIsPost(cfg, t);
    ReachableExtends(cfg, t, ClientRuns);
    p := WorkerStep(cfg, t);
  }

  lemma TakenRecv(cfg: Config, r: State, cmd: Command) returns (t: State)
    requires Ready(cfg, r) && cmd.Recv? && Transfer(cmd) && Allowed(cfg, cmd)
    ensures Reachable(cfg, t) && t == r.(cmds := [cmd], client := r.client.(pc := CPost)) && t.client.k == 0 && t.client.outs == []
    ensures t.client.remote == RemoteOf(cfg.serverBufs) && t.client.peer == cfg.serverCpu && t.c.sq == [] && t.c.scq == []
    ensures |t.c.buf| == CPU_BUFFER_BASE_SIZE && t.accepted && !t.c.err && t.journal == []
  {
    KnowsRemote(cfg, r);
    ReadyIs(cfg, r);
    ReachableExtends(cfg, r, Submit(cmd));
    var s := r.(cmds := r.cmds + [cmd]);
    TakingIsMoving(cfg, s);
    ReachableExtends(cfg, s, ClientRuns);
    t := SetClient(s, CPost);
  }

  lemma ReadyIs(cfg: Config, r: State)
    requires Ready(cfg, r)
    ensures r.accepted && |r.c.buf| == CPU_BUFFER_BASE_SIZE && |r.s.buf| == CPU_BUFFER_BASE_SIZE && r.client.pc == CNext && r.server.pc == SPostRecv
  {
    assert Setup(cfg, r);
  }

  lemma RecvLands(cfg: Config, f: State, cmd: Command)
    requires cmd.Recv? && Transfer(cmd) && Allowed(cfg, cmd) && f.accepted && !f.c.err && !f.s.err
    requires f.c.sq == [Slot(RequestFor(cfg, cfg.serverCpu, RemoteOf(cfg.serverBufs), cmd), 0, Option.None, 0, 0)]
    requires f.c.scq == [] && f.journal == []
    ensures ToServerEnabled(cfg, f)
    ensures var t := ToServer(cfg, f, true);
            t.c.sq == [] && t.c.scq == [WorkCompletion(true, OpRead, 0, 0, true)] && t.c.buf == f.c.buf && !t.c.err
            && t.s == f.s && t.server == f.server && t.client == f.client && t.cmds == f.cmds && t.accepted && SignalAt(t.journal) == []
  {
    RemoteAgreesWithLocal(cfg.serverBufs);
    var t := ToServer(cfg, f, true);
    Extend([], t.journal[0]);
    assert t.journal == [] + [t.journal[0]];
  }

  /** The poll of the message of `Complete(a)` takes the late completion, and `Complete(b)` is serialised. */
  lemma TakenForOk(cfg: Config, s: State, a: ReqId, b: ReqId) returns (st: State)
    requires Reachable(cfg, s) && |s.cmds| == 1 && s.client.pc == CNext && s.client.k == 1 && |s.client.outs| == 1
    requires s.client.remote == RemoteOf(cfg.serverBufs) && s.client.peer == cfg.serverCpu
    requires |s.c.buf| == CPU_BUFFER_BASE_SIZE && s.c.sq == [] && |s.c.scq| == 1 && s.c.scq[0].ok
    requires FitsBuffer(Complete(a)) && FitsBuffer(Complete(b))
    ensures Reachable(cfg, st) && st.cmds == s.cmds + [Complete(a), Complete(b)] && st.client.outs == s.client.outs + [Ok]
    ensures st.c.sq == Sending(cfg, s, a).c.sq && HoldsNote(Complete(b), st.c.buf)
    ensures st.s == s.s && st.server == s.server && st.accepted == s.accepted && st.c.err == s.c.err && st.journal == s.journal
  {
    ReachSending(cfg, s, a);
    var p := Sending(cfg, s, a);
    var q := Finish(p.(c := PopSent(p.c)), Ok);
    LateIsTaken(cfg, p, a);
    ReachableExtends(cfg, p, ClientRuns);
    ReachStaged(cfg, q, b);
    st := Staged(q.(cmds := q.cmds + [Complete(b)]), CLock);
    StagesNote(Complete(b), q.c.buf);
  }

  lemma LateIsTaken(cfg: Config, p: State, a: ReqId)
    requires p.client.pc == CPoll && p.client.k < |p.cmds| && p.cmds[p.client.k] == Complete(a) && |p.c.scq| == 1 && p.c.scq[0].ok
    ensures Enabled(cfg, p, ClientRuns) && Effect(cfg, p, ClientRuns) == Finish(p.(c := PopSent(p.c)), Ok)
  {
  }

  /** No poll for a message has failed, the write of `a` has returned Ok, and yet the server is about to
      read anything but `a` out of it: the failed poll was that of a transfer before it. */
  lemma OkIsMisread(cfg: Config, cmd: Command, a: ReqId, b: ReqId) returns (st: State)
    requires ValidConfig(cfg) && TableFits(cfg) && cmd.Recv? && Transfer(cmd) && Allowed(cfg, cmd)
    requires FitsBuffer(Complete(a)) && FitsBuffer(Complete(b)) && a != b
    ensures Reachable(cfg, st) && st.cmds == [cmd, Complete(a), Complete(b)]
    ensures st.client.outs == [Failed(false), Ok] && Misread(st, 1)
  {
    var r := ReadyExists(cfg);
    ReadyIs(cfg, r);
    var s := LateCompletion(cfg, r, cmd);
    var t := TakenForOk(cfg, s, a, b);
    var size := NotificationSize(NoteOf(Complete(a)));
    assert InFlight(cfg, t, size);
    ReachLanding(cfg, t, size);
    st := Landing(t, size);
    Extend(t.journal, Signal(1));
    ReadIff(Complete(a), st.s.buf);
    if HoldsNote(Complete(a), st.s.buf) {
      OneNote(a, b, st.s.buf);
    }
  }

  lemma OneNote(a: ReqId, b: ReqId, buf: seq<u8>)
    requires HoldsNote(Complete(a), buf) && HoldsNote(Complete(b), buf)
    ensures a == b
  {
    NotificationsPrefixFree(NoteOf(Complete(a)), NoteOf(Complete(b)), buf);
  }
}
