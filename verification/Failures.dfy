/** What a failure ends and what it does not: a program that returns an error or panics does nothing more, one
    that has disconnected has its queue pair down, and the worker goes on after a command that fails. */
module Failures {
  import opened Bytes
  import opened Codec
  import opened Commands
  import opened Protocol
  import opened Shadows
  import opened Theorems
  import opened Reports

  // ----- Disconnected

  /** A program that has disconnected has failed its queue pair. */
  predicate DownAfterwards(st: State) {
    (st.client.pc.CDone? ==> st.c.err) && (st.server.pc.SClosed? ==> st.s.err)
  }

  lemma StaysDown(cfg: Config, st: State, a: Action)
    requires DownAfterwards(st) && Enabled(cfg, st, a)
    ensures DownAfterwards(Effect(cfg, st, a))
  {
    if a.ClientRuns? {
      ClientGoesDown(cfg, st);
    } else if a.ServerRuns? {
      ServerGoesDown(cfg, st);
    } else if a.DeliverToServer? || a.LoseAckClient? {
      DeliveryStaysDown(cfg, st, a.DeliverToServer?);
    } else if a.DeliverToClient? || a.LoseAckServer? {
      ReplyStaysDown(cfg, st, a.DeliverToClient?);
    } else {
      OthersStayDown(cfg, st, a);
    }
  }

  lemma ClientGoesDown(cfg: Config, st: State)
    requires DownAfterwards(st) && ClientEnabled(st)
    ensures DownAfterwards(ClientStep(cfg, st))
  {
    if Connecting(st.client.pc) { ConnectsQuietly(cfg, st); } else { WorksQuietly(cfg, st); }
    DisconnectsDown(cfg, st);
  }

  lemma DisconnectsDown(cfg: Config, st: State)
    requires ClientEnabled(st)
    ensures var t := ClientStep(cfg, st); t.client.pc.CDone? && !st.client.pc.CDone? ==> t.c.err
  {
    if Connecting(st.client.pc) {
      ConnectMoves(cfg, st);
    } else if st.client.pc.CNext? {
      TakingDoesNotEnd(cfg, st);
    }
  }

  lemma TakingDoesNotEnd(cfg: Config, st: State)
    requires ClientEnabled(st) && st.client.pc.CNext?
    ensures !TakeCommand(cfg, st).client.pc.CDone?
  {
  }

  lemma ServerGoesDown(cfg: Config, st: State)
    requires DownAfterwards(st) && ServerEnabled(st)
    ensures DownAfterwards(ServerStep(cfg, st))
  {
    if Accepting(st.server.pc) { AcceptsQuietly(cfg, st); } else { LoopsQuietly(st); }
    ClosesDown(cfg, st);
  }

  lemma ClosesDown(cfg: Config, st: State)
    requires ServerEnabled(st)
    ensures var t := ServerStep(cfg, st); t.server.pc.SClosed? && !st.server.pc.SClosed? ==> t.s.err
  {
    if Accepting(st.server.pc) {
      AcceptDoesNotClose(cfg, st);
    } else if st.server.pc.SPollRecv? || st.server.pc.SDecode? {
      ReceivingDoesNotClose(st);
    }
  }

  lemma AcceptDoesNotClose(cfg: Config, st: State)
    requires ServerEnabled(st) && Accepting(st.server.pc)
    ensures !AcceptStep(cfg, st).server.pc.SClosed?
  {
  }

  lemma ReceivingDoesNotClose(st: State)
    requires ServerEnabled(st) && (st.server.pc.SPollRecv? || st.server.pc.SDecode?)
    ensures !LoopStep(st).server.pc.SClosed?
  {
  }

  lemma DeliveryStaysDown(cfg: Config, st: State, acked: bool)
    requires DownAfterwards(st) && ToServerEnabled(cfg, st)
    ensures DownAfterwards(ToServer(cfg, st, acked))
  {
  }

  lemma ReplyStaysDown(cfg: Config, st: State, acked: bool)
    requires DownAfterwards(st) && ToClientEnabled(cfg, st)
    ensures DownAfterwards(ToClient(cfg, st, acked))
  {
  }

  lemma OthersStayDown(cfg: Config, st: State, a: Action)
    requires DownAfterwards(st) && Enabled(cfg, st, a) && !a.ClientRuns? && !a.ServerRuns?
    requires !a.DeliverToServer? && !a.LoseAckClient? && !a.DeliverToClient? && !a.LoseAckServer?
    ensures DownAfterwards(Effect(cfg, st, a))
  {
  }

  lemma {:induction false} RunStaysDown(cfg: Config, st: State, acts: seq<Action>, end: State)
    requires DownAfterwards(st) && Run(cfg, st, acts, end)
    ensures DownAfterwards(end)
    decreases |acts|
  {
    if acts != [] {
      StaysDown(cfg, st, acts[0]);
      RunStaysDown(cfg, Effect(cfg, st, acts[0]), acts[1..], end);
    }
  }

  /** Once either program has disconnected its queue pair is down, so nothing is delivered in either
      direction any more. */
  lemma DisconnectedIsDown(cfg: Config, st: State)
    requires Reachable(cfg, st)
    ensures st.client.pc.CDone? ==> st.c.err
    ensures st.server.pc.SClosed? ==> st.s.err
    ensures st.client.pc.CDone? || st.server.pc.SClosed? ==> !ToServerEnabled(cfg, st) && !ToClientEnabled(cfg, st)
  {
    var acts :| Run(cfg, Init(cfg), acts, st);
    RunStaysDown(cfg, Init(cfg), acts, st);
  }

  // ----- The notification loop

  /** The notification loop ends at its first failure: a refused receive, a failed poll call, a receive that
      completed with an error, or a slice that is too long or does not decode. */
  ghost predicate LoopFails(st: State, a: Action) {
    (a.ServerIsRefused? && st.server.pc.SPostRecv?)
    || (a.ServerPollFails? && st.server.pc.SPollRecv?)
    || (a.ServerRuns? && st.server.pc.SPollRecv? && st.s.rcq != [] && !st.s.rcq[0].ok)
    || (a.ServerRuns? && st.server.pc.SDecode?
        && forall n :: !(st.server.pc.size <= |st.s.buf| && EncodeNotification(n) <= st.s.buf[..st.server.pc.size]))
  }

  lemma FailureEndsLoop(cfg: Config, st: State, a: Action)
    requires LoopFails(st, a) && Enabled(cfg, st, a)
    ensures Effect(cfg, st, a).server == st.server.(pc := SDead)
  {
    if a.ServerRuns? && st.server.pc.SDecode? && st.server.pc.size <= |st.s.buf| {
      NothingEncoded(st.s.buf[..st.server.pc.size]);
    }
  }

  lemma NothingEncoded(s: seq<u8>)
    requires forall n :: !(EncodeNotification(n) <= s)
    ensures DecodeNotification(s).Failure?
  {
    if DecodeNotification(s).Success? {
      EncodingOfDecoded(s);
      assert false;
    }
  }

  lemma {:induction false} DeadStays(cfg: Config, st: State, acts: seq<Action>, end: State)
    requires st.server.pc.SDead? && Run(cfg, st, acts, end)
    ensures end.server == st.server
    decreases |acts|
  {
    if acts != [] {
      OthersLeaveServer(cfg, st, acts[0]);
      DeadStays(cfg, Effect(cfg, st, acts[0]), acts[1..], end);
    }
  }

  /** Nothing is returned or recorded for a failed notification, or ever after it. */
  lemma FailedLoopIsOver(cfg: Config, st: State, a: Action, acts: seq<Action>, end: State)
    requires LoopFails(st, a) && Enabled(cfg, st, a) && Run(cfg, Effect(cfg, st, a), acts, end)
    ensures end.server.pc.SDead? && end.server.returned == st.server.returned && end.server.recorded == st.server.recorded
  {
    FailureEndsLoop(cfg, st, a);
    DeadStays(cfg, Effect(cfg, st, a), acts, end);
  }

  // ----- `accept`

  /** A failure of `accept`: a refused call, a failed poll call, a completion with an error, or a table that is
      longer than the buffer. */
  predicate AcceptFails(cfg: Config, st: State, a: Action) {
    match st.server.pc
    case SPostHello => a.ServerIsRefused?
    case SAccept => a.ServerIsRefused?
    case SPollHello => a.ServerPollFails? || (a.ServerRuns? && st.s.rcq != [] && !st.s.rcq[0].ok)
    case SSendHello => a.ServerIsRefused?
    case SPollSent => a.ServerPollFails? || (a.ServerRuns? && st.s.scq != [] && !st.s.scq[0].ok)
    case SStage => a.ServerRuns? && 8 + 12 * |cfg.serverBufs| > |st.s.buf|
    case SPostTable => a.ServerIsRefused?
    case SPollTable => a.ServerPollFails? || (a.ServerRuns? && st.s.scq != [] && !st.s.scq[0].ok)
    case _ => false
  }

  /** The server has failed to accept and is about to disconnect, or has. */
  predicate GivenUp(st: State) {
    st.server.pc == SHangup(false) || (st.server.pc == SClosed(false) && st.s.err)
  }

  lemma FailureEndsAccept(cfg: Config, st: State, a: Action)
    requires AcceptFails(cfg, st, a) && Enabled(cfg, st, a)
    ensures Effect(cfg, st, a).server == st.server.(pc := SHangup(false))
  {
  }

  lemma GivenUpStays(cfg: Config, st: State, a: Action)
    requires GivenUp(st) && Enabled(cfg, st, a)
    ensures var t := Effect(cfg, st, a); GivenUp(t) && t.server == st.server.(pc := t.server.pc)
  {
    if a.ServerRuns? {
      ServerHangsUp(cfg, st);
    } else {
      OthersLeaveServer(cfg, st, a);
      if st.s.err { ErrorStays(cfg, st, a); }
    }
  }

  lemma ServerHangsUp(cfg: Config, st: State)
    requires st.server.pc == SHangup(false)
    ensures ServerEnabled(st)
    ensures var t := ServerStep(cfg, st); t.server == st.server.(pc := SClosed(false)) && t.s.err
  {
  }

  lemma OthersLeaveServer(cfg: Config, st: State, a: Action)
    requires (GivenUp(st) || st.server.pc.SDead?) && Enabled(cfg, st, a) && !a.ServerRuns?
    ensures Effect(cfg, st, a).server == st.server
  {
    if a.ClientRuns? {
      ClientBlind(cfg, st, st.server.pc);
    } else if a.ClientIsRefused? {
      RefusedBlind(cfg, st, st.server.pc);
    } else if !ByProgram(a) {
      assert st == Masked(st, st.client.pc, st.server.pc);
      FabricBlind(cfg, st, st.client.pc, st.server.pc, a);
    }
  }

  lemma ErrorStays(cfg: Config, st: State, a: Action)
    requires Enabled(cfg, st, a) && !a.ServerRuns? && st.s.err
    ensures Effect(cfg, st, a).s.err
  {
    if a.ClientRuns? {
      if Connecting(st.client.pc) { ConnectsQuietly(cfg, st); } else { WorksQuietly(cfg, st); }
    }
  }

  lemma {:induction false} GivenUpRun(cfg: Config, st: State, acts: seq<Action>, end: State)
    requires GivenUp(st) && Run(cfg, st, acts, end)
    ensures GivenUp(end) && end.server == st.server.(pc := end.server.pc)
    decreases |acts|
  {
    if acts != [] {
      GivenUpStays(cfg, st, acts[0]);
      GivenUpRun(cfg, Effect(cfg, st, acts[0]), acts[1..], end);
    }
  }

  /** A server that fails to accept disconnects as its next and last step, and returns and records nothing. */
  lemma FailedAcceptIsOver(cfg: Config, st: State, a: Action, acts: seq<Action>, end: State)
    requires AcceptFails(cfg, st, a) && Enabled(cfg, st, a) && Run(cfg, Effect(cfg, st, a), acts, end)
    ensures end.server.returned == st.server.returned && end.server.recorded == st.server.recorded
    ensures if ServerEnabled(end) then end.server.pc == SHangup(false) && ServerStep(cfg, end).s.err
            else end.server.pc == SClosed(false) && end.s.err
  {
    FailureEndsAccept(cfg, st, a);
    GivenUpRun(cfg, Effect(cfg, st, a), acts, end);
    if end.server.pc == SHangup(false) {
      ServerHangsUp(cfg, end);
    }
  }

  // ----- `connect` and `disconnect`

  /** A failure of `connect`: a refused call, a failed poll call, a completion with an error, another opcode
      than that of a write with an immediate, or bytes that do not start with a table. */
  ghost predicate ConnectFails(st: State, a: Action) {
    match st.client.pc
    case CPostHello => a.ClientIsRefused?
    case CRequest => a.ClientIsRefused?
    case CWaitAccept => a.ClientIsRefused?
    case CSendHello => a.ClientIsRefused?
    case CPollSent => a.ClientPollFails? || (a.ClientRuns? && st.c.scq != [] && !st.c.scq[0].ok)
    case CPollHello => a.ClientPollFails? || (a.ClientRuns? && st.c.rcq != [] && !st.c.rcq[0].ok)
    case CPostTable => a.ClientIsRefused?
    case CPollTable =>
      a.ClientPollFails? || (a.ClientRuns? && st.c.rcq != [] && (!st.c.rcq[0].ok || st.c.rcq[0].op != OpRecvImm))
    case CDecode(size) =>
      a.ClientRuns? && |st.c.buf| < 0x1_0000_0000_0000_0000
      && forall cs :: !(size <= |st.c.buf| && EncodeConnections(cs) <= st.c.buf[..size])
    case _ => false
  }

  /** A failure of `disconnect`: the shutdown message is refused, its poll call fails or it completes with an
      error, or the call that disconnects is refused. */
  predicate DisconnectFails(st: State, a: Action) {
    match st.client.pc
    case CPost => a.ClientIsRefused? && st.client.k < |st.cmds| && st.cmds[st.client.k].Disconnect?
    case CPoll =>
      st.client.k < |st.cmds| && st.cmds[st.client.k].Disconnect?
      && (a.ClientPollFails? || (a.ClientRuns? && st.c.scq != [] && !st.c.scq[0].ok))
    case CHangup => a.ClientIsRefused?
    case _ => false
  }

  lemma FailureEndsConnect(cfg: Config, st: State, a: Action)
    requires ConnectFails(st, a) && Enabled(cfg, st, a)
    ensures Effect(cfg, st, a).client == st.client.(pc := CDead)
  {
    if st.client.pc.CDecode? {
      NoTable(cfg, st);
    }
  }

  lemma NoTable(cfg: Config, st: State)
    requires ConnectFails(st, ClientRuns) && st.client.pc.CDecode?
    ensures ClientStep(cfg, st).client == st.client.(pc := CDead)
  {
    if st.client.pc.size <= |st.c.buf| {
      NoTableEncoded(st.c.buf[..st.client.pc.size]);
    }
  }

  lemma NoTableEncoded(s: seq<u8>)
    requires forall cs :: !(EncodeConnections(cs) <= s)
    ensures DecodeConnections(s).Failure?
  {
    if DecodeConnections(s).Success? {
      DecodedIsShort(s);
      DecodeConnectionsExact(s, DecodeConnections(s).value);
      assert false;
    }
  }

  lemma FailureEndsDisconnect(cfg: Config, st: State, a: Action)
    requires DisconnectFails(st, a) && Enabled(cfg, st, a)
    ensures Effect(cfg, st, a).client.pc.CDead?
  {
  }

  lemma DeadClientStep(cfg: Config, st: State, a: Action)
    requires st.client.pc.CDead? && Enabled(cfg, st, a)
    ensures Effect(cfg, st, a).client == st.client
  {
    if !a.Submit? {
      ServerLeavesClient(cfg, st, a);
    }
  }

  lemma {:induction false} DeadClientRun(cfg: Config, st: State, acts: seq<Action>, end: State)
    requires st.client.pc.CDead? && Run(cfg, st, acts, end)
    ensures end.client == st.client
    decreases |acts|
  {
    if acts != [] {
      DeadClientStep(cfg, st, acts[0]);
      DeadClientRun(cfg, Effect(cfg, st, acts[0]), acts[1..], end);
    }
  }

  /** A client whose `connect` or `disconnect` fails does nothing more, whatever is submitted; one that fails
      to connect has carried out no command. */
  lemma FailedClientIsOver(cfg: Config, st: State, a: Action, acts: seq<Action>, end: State)
    requires (ConnectFails(st, a) || DisconnectFails(st, a)) && Enabled(cfg, st, a) && Run(cfg, Effect(cfg, st, a), acts, end)
    ensures end.client.pc.CDead? && end.client == Effect(cfg, st, a).client
    ensures ConnectFails(st, a) ==> end.client == st.client.(pc := CDead)
  {
    if ConnectFails(st, a) { FailureEndsConnect(cfg, st, a); } else { FailureEndsDisconnect(cfg, st, a); }
    DeadClientRun(cfg, Effect(cfg, st, a), acts, end);
  }

  // ----- The worker

  /** The post of a command other than `Disconnect` is refused, its poll call fails, or it completes with an
      error. */
  predicate CommandFails(st: State, a: Action) {
    st.client.k < |st.cmds| && !st.cmds[st.client.k].Disconnect?
    && match st.client.pc
       case CPost => a.ClientIsRefused?
       case CPoll => a.ClientPollFails? || (a.ClientRuns? && st.c.scq != [] && !st.c.scq[0].ok)
       case _ => false
  }

  /** The worker goes on: its next command is the following one, the lock is free, nothing else has changed but
      that an error completion has been taken off its queue and a failed poll call is remembered. */
  lemma FailedCommandGoesOn(cfg: Config, st: State, a: Action)
    requires CommandFails(st, a)
    ensures Enabled(cfg, st, a)
    ensures var t := Effect(cfg, st, a);
            t.client.pc.CNext? && t.client.k == st.client.k + 1 && !t.client.locked && t.client.win == st.client.win
            && |t.client.outs| == |st.client.outs| + 1 && t.client.outs[..|st.client.outs|] == st.client.outs
            && (t.client.outs[|st.client.outs|].Refused? <==> a.ClientIsRefused?)
            && (t.client.outs[|st.client.outs|].Failed? <==> !a.ClientIsRefused?)
            && t.c.sq == st.c.sq && t.c.scq == (if a.ClientRuns? then st.c.scq[1..] else st.c.scq)
            && t.c.buf == st.c.buf && t.c.mem == st.c.mem && t.s == st.s && t.journal == st.journal
  {
  }

  /** Every one of these failures can happen. */
  lemma FailuresHappen(cfg: Config, st: State, a: Action)
    requires LoopFails(st, a) || AcceptFails(cfg, st, a) || ConnectFails(st, a) || DisconnectFails(st, a) || CommandFails(st, a)
    ensures Enabled(cfg, st, a)
  {
  }
}
