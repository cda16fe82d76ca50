/** Polls that fail for good. `connect`, `accept`, `disconnect` and the notification loop return the error
    of a failed poll call and their program takes no further part; what it had posted stays posted. To
    everybody else it is as if the program were never scheduled again: the same run, with the program still
    waiting at its poll, is the `shadow` of the real one, and the invariant holds of it. */
module Shadows {
  import opened Commands
  import opened Journal
  import opened Protocol
  import opened Invariant
  import opened FabricPreservation

  /** A failed poll here ends the client program. */
  predicate FatalPoll(st: State) {
    ClientPolling(st) && (st.client.pc.CPoll? ==> st.cmds[st.client.k].Disconnect?)
  }

  /** The client is where its shadow is, or its poll there has failed. */
  predicate ClientBehind(pc: ClientPc, u: State) {
    pc == u.client.pc || (pc.CDead? && FatalPoll(u))
  }

  predicate ServerBehind(pc: ServerPc, u: State) {
    pc == u.server.pc
    || (ServerPolling(u) && if u.server.pc.SPollRecv? then pc.SDead? else pc == SHangup(false) || pc == SClosed(false))
  }

  function Masked(u: State, cpc: ClientPc, spc: ServerPc): State {
    u.(client := u.client.(pc := cpc), server := u.server.(pc := spc))
  }

  /** `u` is `st` but for a program whose poll call failed, which waits at that poll in `u`. */
  predicate Shadow(st: State, u: State) {
    st == Masked(u, st.client.pc, st.server.pc) && ClientBehind(st.client.pc, u) && ServerBehind(st.server.pc, u)
  }

  // ----- What the fabric does depends on neither program counter

  predicate ByProgram(a: Action) {
    a.ClientRuns? || a.ClientIsRefused? || a.ClientPollFails? || a.ServerRuns? || a.ServerIsRefused? || a.ServerPollFails?
  }

  lemma ToServerBlind(cfg: Config, u: State, cpc: ClientPc, spc: ServerPc, acked: bool)
    requires ToServerEnabled(cfg, Masked(u, cpc, spc))
    ensures ToServerEnabled(cfg, u)
    ensures ToServer(cfg, Masked(u, cpc, spc), acked) == Masked(ToServer(cfg, u, acked), cpc, spc)
    ensures var v := ToServer(cfg, u, acked); v.client == u.client && v.server == u.server && v.cmds == u.cmds
  {
    if u.c.sq[0].wr.WrHello? || u.c.sq[0].wr.WrImm? {
      MessageBlindly(cfg, u, cpc, spc, acked);
    } else {
      TransferBlindly(cfg, u, cpc, spc, acked);
    }
  }

  lemma MessageBlindly(cfg: Config, u: State, cpc: ClientPc, spc: ServerPc, acked: bool)
    requires ToServerEnabled(cfg, u) && (u.c.sq[0].wr.WrHello? || u.c.sq[0].wr.WrImm?)
    ensures ToServerEnabled(cfg, Masked(u, cpc, spc))
    ensures ToServer(cfg, Masked(u, cpc, spc), acked) == Masked(ToServer(cfg, u, acked), cpc, spc)
    ensures var v := ToServer(cfg, u, acked); v.client == u.client && v.server == u.server && v.cmds == u.cmds
  {
  }

  lemma TransferBlindly(cfg: Config, u: State, cpc: ClientPc, spc: ServerPc, acked: bool)
    requires ToServerEnabled(cfg, u) && (u.c.sq[0].wr.WrWrite? || u.c.sq[0].wr.WrRead?)
    ensures ToServerEnabled(cfg, Masked(u, cpc, spc))
    ensures ToServer(cfg, Masked(u, cpc, spc), acked) == Masked(ToServer(cfg, u, acked), cpc, spc)
    ensures var v := ToServer(cfg, u, acked); v.client == u.client && v.server == u.server && v.cmds == u.cmds
  {
  }

  lemma ToClientBlind(cfg: Config, u: State, cpc: ClientPc, spc: ServerPc, acked: bool)
    requires ToClientEnabled(cfg, Masked(u, cpc, spc))
    ensures ToClientEnabled(cfg, u)
    ensures ToClient(cfg, Masked(u, cpc, spc), acked) == Masked(ToClient(cfg, u, acked), cpc, spc)
    ensures var v := ToClient(cfg, u, acked); v.client == u.client && v.server == u.server && v.cmds == u.cmds
  {
  }

  lemma FabricBlind(cfg: Config, u: State, cpc: ClientPc, spc: ServerPc, a: Action)
    requires Enabled(cfg, Masked(u, cpc, spc), a) && !ByProgram(a)
    ensures Enabled(cfg, u, a) && Effect(cfg, Masked(u, cpc, spc), a) == Masked(Effect(cfg, u, a), cpc, spc)
    ensures var v := Effect(cfg, u, a); v.client == u.client && v.server == u.server && u.cmds <= v.cmds
  {
    if a.DeliverToServer? || a.LoseAckClient? {
      ToServerBlind(cfg, u, cpc, spc, a.DeliverToServer?);
    } else if a.DeliverToClient? || a.LoseAckServer? {
      ToClientBlind(cfg, u, cpc, spc, a.DeliverToClient?);
    }
  }

  // ----- A program's step does not depend on the other's counter

  lemma ClientBlind(cfg: Config, u: State, spc: ServerPc)
    requires ClientEnabled(u)
    ensures var v := ClientStep(cfg, u);
            ClientStep(cfg, Masked(u, u.client.pc, spc)) == Masked(v, v.client.pc, spc) && v.server == u.server
  {
    if Connecting(u.client.pc) { ConnectBlind(cfg, u, spc); } else { WorkerBlind(cfg, u, spc); }
  }

  lemma ConnectBlind(cfg: Config, u: State, spc: ServerPc)
    requires ClientEnabled(u) && Connecting(u.client.pc)
    ensures var v := ConnectStep(cfg, u);
            ConnectStep(cfg, Masked(u, u.client.pc, spc)) == Masked(v, v.client.pc, spc) && v.server == u.server
  {
    if u.client.pc.CDecode? {
      ReadBlind(cfg, u, spc);
    } else if u.client.pc.CPollSent? {
      SentBlind(cfg, u, spc);
    } else if u.client.pc.CPollHello? {
      HelloBlind(cfg, u, spc);
    } else if u.client.pc.CPollTable? {
      TableBlind(cfg, u, spc);
    } else {
      PlainBlind(cfg, u, spc);
    }
  }

  lemma PlainBlind(cfg: Config, u: State, spc: ServerPc)
    requires u.client.pc.CPostHello? || u.client.pc.CRequest? || (u.client.pc.CWaitAccept? && u.accepted)
             || u.client.pc.CSendHello? || u.client.pc.CPostTable?
    ensures var v := ConnectStep(cfg, u);
            ConnectStep(cfg, Masked(u, u.client.pc, spc)) == Masked(v, v.client.pc, spc) && v.server == u.server
  {
  }

  lemma ReadBlind(cfg: Config, u: State, spc: ServerPc)
    requires u.client.pc.CDecode?
    ensures var v := ConnectStep(cfg, u);
            ConnectStep(cfg, Masked(u, u.client.pc, spc)) == Masked(v, v.client.pc, spc) && v.server == u.server
  {
  }

  lemma SentBlind(cfg: Config, u: State, spc: ServerPc)
    requires u.client.pc.CPollSent? && u.c.scq != []
    ensures var v := ConnectStep(cfg, u);
            ConnectStep(cfg, Masked(u, u.client.pc, spc)) == Masked(v, v.client.pc, spc) && v.server == u.server
  {
  }

  lemma HelloBlind(cfg: Config, u: State, spc: ServerPc)
    requires u.client.pc.CPollHello? && u.c.rcq != []
    ensures var v := ConnectStep(cfg, u);
            ConnectStep(cfg, Masked(u, u.client.pc, spc)) == Masked(v, v.client.pc, spc) && v.server == u.server
  {
  }

  lemma TableBlind(cfg: Config, u: State, spc: ServerPc)
    requires u.client.pc.CPollTable? && u.c.rcq != []
    ensures var v := ConnectStep(cfg, u);
            ConnectStep(cfg, Masked(u, u.client.pc, spc)) == Masked(v, v.client.pc, spc) && v.server == u.server
  {
  }

  lemma WorkerBlind(cfg: Config, u: State, spc: ServerPc)
    requires ClientEnabled(u) && !Connecting(u.client.pc)
    ensures var v := WorkerStep(cfg, u);
            WorkerStep(cfg, Masked(u, u.client.pc, spc)) == Masked(v, v.client.pc, spc) && v.server == u.server
  {
    if u.client.pc.CNext? {
      TakeBlind(cfg, u, spc);
    } else if u.client.pc.CPost? {
      PostBlind(cfg, u, spc);
    } else if u.client.pc.CPoll? {
      PollBlind(cfg, u, spc);
    } else if u.client.pc.CHangup? {
      HangupBlind(cfg, u, spc);
    } else {
      WindowBlind(cfg, u, spc);
    }
  }

  lemma HangupBlind(cfg: Config, u: State, spc: ServerPc)
    requires u.client.pc.CHangup?
    ensures var v := WorkerStep(cfg, u);
            WorkerStep(cfg, Masked(u, u.client.pc, spc)) == Masked(v, v.client.pc, spc) && v.server == u.server
  {
  }

  lemma WindowBlind(cfg: Config, u: State, spc: ServerPc)
    requires u.client.k < |u.cmds| && (u.client.pc.CLock? || u.client.pc.CAdd? || u.client.pc.CEvict?)
    ensures var v := WorkerStep(cfg, u);
            WorkerStep(cfg, Masked(u, u.client.pc, spc)) == Masked(v, v.client.pc, spc) && v.server == u.server
  {
  }

  lemma PostBlind(cfg: Config, u: State, spc: ServerPc)
    requires u.client.pc.CPost? && u.client.k < |u.cmds|
    ensures var v := WorkerStep(cfg, u);
            WorkerStep(cfg, Masked(u, u.client.pc, spc)) == Masked(v, v.client.pc, spc) && v.server == u.server
  {
  }

  lemma PollBlind(cfg: Config, u: State, spc: ServerPc)
    requires u.client.pc.CPoll? && u.client.k < |u.cmds| && u.c.scq != []
    ensures var v := WorkerStep(cfg, u);
            WorkerStep(cfg, Masked(u, u.client.pc, spc)) == Masked(v, v.client.pc, spc) && v.server == u.server
  {
    if u.cmds[u.client.k].Disconnect? {
      LastPollBlind(cfg, u, spc);
    } else {
      MidPollBlind(cfg, u, spc);
    }
  }

  lemma LastPollBlind(cfg: Config, u: State, spc: ServerPc)
    requires u.client.pc.CPoll? && u.client.k < |u.cmds| && u.c.scq != [] && u.cmds[u.client.k].Disconnect?
    ensures var v := WorkerStep(cfg, u);
            WorkerStep(cfg, Masked(u, u.client.pc, spc)) == Masked(v, v.client.pc, spc) && v.server == u.server
  {
  }

  lemma MidPollBlind(cfg: Config, u: State, spc: ServerPc)
    requires u.client.pc.CPoll? && u.client.k < |u.cmds| && u.c.scq != [] && !u.cmds[u.client.k].Disconnect?
    ensures var v := WorkerStep(cfg, u);
            WorkerStep(cfg, Masked(u, u.client.pc, spc)) == Masked(v, v.client.pc, spc) && v.server == u.server
  {
  }

  lemma TakeBlind(cfg: Config, u: State, spc: ServerPc)
    requires u.client.k < |u.cmds|
    ensures var v := TakeCommand(cfg, u);
            TakeCommand(cfg, Masked(u, u.client.pc, spc)) == Masked(v, v.client.pc, spc) && v.server == u.server
  {
    if Message(u.cmds[u.client.k]) {
      MessageBlind(cfg, u, spc);
    } else {
      TransferBlind(cfg, u, spc);
    }
  }

  lemma TransferBlind(cfg: Config, u: State, spc: ServerPc)
    requires u.client.k < |u.cmds| && Moving(u.cmds[u.client.k])
    ensures var v := TakeCommand(cfg, u);
            TakeCommand(cfg, Masked(u, u.client.pc, spc)) == Masked(v, v.client.pc, spc) && v.server == u.server
  {
    if !Transfer(u.cmds[u.client.k]) {
      SkipBlind(cfg, u, spc);
    }
  }

  lemma SkipBlind(cfg: Config, u: State, spc: ServerPc)
    requires u.client.k < |u.cmds| && Moving(u.cmds[u.client.k]) && !Transfer(u.cmds[u.client.k])
    ensures var v := TakeCommand(cfg, u);
            TakeCommand(cfg, Masked(u, u.client.pc, spc)) == Masked(v, v.client.pc, spc) && v.server == u.server
  {
  }

  lemma MessageBlind(cfg: Config, u: State, spc: ServerPc)
    requires u.client.k < |u.cmds| && Message(u.cmds[u.client.k])
    ensures var v := TakeCommand(cfg, u);
            TakeCommand(cfg, Masked(u, u.client.pc, spc)) == Masked(v, v.client.pc, spc) && v.server == u.server
  {
  }

  lemma ServerDeaf(cfg: Config, u: State, cpc: ClientPc)
    requires ServerEnabled(u)
    ensures var v := ServerStep(cfg, u);
            ServerStep(cfg, Masked(u, cpc, u.server.pc)) == Masked(v, cpc, v.server.pc) && v.client == u.client && v.cmds == u.cmds
  {
    if Accepting(u.server.pc) { AcceptDeaf(cfg, u, cpc); } else { LoopDeaf(u, cpc); }
  }

  lemma AcceptDeaf(cfg: Config, u: State, cpc: ClientPc)
    requires ServerEnabled(u) && Accepting(u.server.pc)
    ensures var v := AcceptStep(cfg, u);
            AcceptStep(cfg, Masked(u, cpc, u.server.pc)) == Masked(v, cpc, v.server.pc) && v.client == u.client && v.cmds == u.cmds
  {
    if u.server.pc.SPollHello? {
      HelloDeaf(cfg, u, cpc);
    } else if u.server.pc.SPollSent? || u.server.pc.SPollTable? {
      SentDeaf(cfg, u, cpc);
    } else if u.server.pc.SStage? {
      StageDeaf(cfg, u, cpc);
    } else if u.server.pc.SPostTable? {
      TableDeaf(cfg, u, cpc);
    } else {
      PlainDeaf(cfg, u, cpc);
    }
  }

  lemma PlainDeaf(cfg: Config, u: State, cpc: ClientPc)
    requires u.server.pc.SPostHello? || u.server.pc.SAccept? || u.server.pc.SSendHello? || (u.server.pc.SListening? && u.requested)
    ensures var v := AcceptStep(cfg, u);
            AcceptStep(cfg, Masked(u, cpc, u.server.pc)) == Masked(v, cpc, v.server.pc) && v.client == u.client && v.cmds == u.cmds
  {
  }

  lemma HelloDeaf(cfg: Config, u: State, cpc: ClientPc)
    requires u.server.pc.SPollHello? && u.s.rcq != []
    ensures var v := AcceptStep(cfg, u);
            AcceptStep(cfg, Masked(u, cpc, u.server.pc)) == Masked(v, cpc, v.server.pc) && v.client == u.client && v.cmds == u.cmds
  {
  }

  lemma SentDeaf(cfg: Config, u: State, cpc: ClientPc)
    requires (u.server.pc.SPollSent? || u.server.pc.SPollTable?) && u.s.scq != []
    ensures var v := AcceptStep(cfg, u);
            AcceptStep(cfg, Masked(u, cpc, u.server.pc)) == Masked(v, cpc, v.server.pc) && v.client == u.client && v.cmds == u.cmds
  {
  }

  lemma StageDeaf(cfg: Config, u: State, cpc: ClientPc)
    requires u.server.pc.SStage?
    ensures var v := AcceptStep(cfg, u);
            AcceptStep(cfg, Masked(u, cpc, u.server.pc)) == Masked(v, cpc, v.server.pc) && v.client == u.client && v.cmds == u.cmds
  {
  }

  lemma TableDeaf(cfg: Config, u: State, cpc: ClientPc)
    requires u.server.pc.SPostTable?
    ensures var v := AcceptStep(cfg, u);
            AcceptStep(cfg, Masked(u, cpc, u.server.pc)) == Masked(v, cpc, v.server.pc) && v.client == u.client && v.cmds == u.cmds
  {
  }

  lemma LoopDeaf(u: State, cpc: ClientPc)
    requires ServerEnabled(u) && !Accepting(u.server.pc)
    ensures var v := LoopStep(u);
            LoopStep(Masked(u, cpc, u.server.pc)) == Masked(v, cpc, v.server.pc) && v.client == u.client && v.cmds == u.cmds
  {
    if u.server.pc.SDecode? {
      DecodeDeaf(u, cpc);
    } else if u.server.pc.SPollRecv? {
      ReceiveDeaf(u, cpc);
    } else {
      HandleDeaf(u, cpc);
    }
  }

  lemma HandleDeaf(u: State, cpc: ClientPc)
    requires u.server.pc.SPostRecv? || u.server.pc.SHandle? || u.server.pc.SLock? || u.server.pc.SAdd? || u.server.pc.SEvict?
             || u.server.pc.SHangup?
    ensures var v := LoopStep(u);
            LoopStep(Masked(u, cpc, u.server.pc)) == Masked(v, cpc, v.server.pc) && v.client == u.client && v.cmds == u.cmds
  {
  }

  lemma DecodeDeaf(u: State, cpc: ClientPc)
    requires u.server.pc.SDecode?
    ensures var v := LoopStep(u);
            LoopStep(Masked(u, cpc, u.server.pc)) == Masked(v, cpc, v.server.pc) && v.client == u.client && v.cmds == u.cmds
  {
  }

  lemma ReceiveDeaf(u: State, cpc: ClientPc)
    requires u.server.pc.SPollRecv? && u.s.rcq != []
    ensures var v := LoopStep(u);
            LoopStep(Masked(u, cpc, u.server.pc)) == Masked(v, cpc, v.server.pc) && v.client == u.client && v.cmds == u.cmds
  {
    if !u.s.rcq[0].ok {
      FailureDeaf(u, cpc);
    } else if u.s.rcq[0].op == OpRecvImm {
      MessageDeaf(u, cpc);
    } else {
      DefaultDeaf(u, cpc);
    }
  }

  lemma FailureDeaf(u: State, cpc: ClientPc)
    requires u.server.pc.SPollRecv? && u.s.rcq != [] && !u.s.rcq[0].ok
    ensures var v := LoopStep(u);
            LoopStep(Masked(u, cpc, u.server.pc)) == Masked(v, cpc, v.server.pc) && v.client == u.client && v.cmds == u.cmds
  {
  }

  lemma MessageDeaf(u: State, cpc: ClientPc)
    requires u.server.pc.SPollRecv? && u.s.rcq != [] && u.s.rcq[0].ok && u.s.rcq[0].op == OpRecvImm
    ensures var v := LoopStep(u);
            LoopStep(Masked(u, cpc, u.server.pc)) == Masked(v, cpc, v.server.pc) && v.client == u.client && v.cmds == u.cmds
  {
  }

  lemma DefaultDeaf(u: State, cpc: ClientPc)
    requires u.server.pc.SPollRecv? && u.s.rcq != [] && u.s.rcq[0].ok && u.s.rcq[0].op != OpRecvImm
    ensures var v := LoopStep(u);
            LoopStep(Masked(u, cpc, u.server.pc)) == Masked(v, cpc, v.server.pc) && v.client == u.client && v.cmds == u.cmds
  {
  }

  // ----- Every step has its shadow

  lemma ClientShadow(cfg: Config, st: State, u: State, a: Action)
    requires Shadow(st, u) && Enabled(cfg, st, a) && (a.ClientRuns? || a.ClientIsRefused?)
    ensures Enabled(cfg, u, a) && Shadow(Effect(cfg, st, a), Effect(cfg, u, a))
  {
    assert st.client.pc == u.client.pc;
    if a.ClientRuns? {
      ClientRunShadow(cfg, st, u);
    } else {
      RefusedBlind(cfg, u, st.server.pc);
    }
  }

  lemma ClientRunShadow(cfg: Config, st: State, u: State)
    requires Shadow(st, u) && ClientEnabled(st) && st.client.pc == u.client.pc
    ensures ClientEnabled(u) && Shadow(ClientStep(cfg, st), ClientStep(cfg, u))
  {
    ClientBlind(cfg, u, st.server.pc);
  }

  lemma RefusedBlind(cfg: Config, u: State, spc: ServerPc)
    requires ClientRefusable(u)
    ensures ClientRefusable(Masked(u, u.client.pc, spc))
    ensures var v := ClientRefused(u);
            ClientRefused(Masked(u, u.client.pc, spc)) == Masked(v, v.client.pc, spc) && v.server == u.server
  {
    if u.client.pc.CPost? {
      PostRefusedBlind(u, spc);
    }
  }

  lemma PostRefusedBlind(u: State, spc: ServerPc)
    requires u.client.pc.CPost? && u.client.k < |u.cmds|
    ensures var v := ClientRefused(u);
            ClientRefused(Masked(u, u.client.pc, spc)) == Masked(v, v.client.pc, spc) && v.server == u.server
  {
  }

  lemma ServerShadow(cfg: Config, st: State, u: State, a: Action)
    requires Shadow(st, u) && Enabled(cfg, st, a) && (a.ServerRuns? || a.ServerIsRefused?) && st.server.pc == u.server.pc
    ensures Enabled(cfg, u, a) && Shadow(Effect(cfg, st, a), Effect(cfg, u, a))
  {
    if a.ServerRuns? {
      ServerDeaf(cfg, u, st.client.pc);
    }
  }

  lemma FailingShadow(cfg: Config, st: State, u: State, a: Action)
    requires Shadow(st, u) && Enabled(cfg, st, a) && (a.ClientPollFails? || a.ServerPollFails?) && !Effect(cfg, st, a).pollFailed
    ensures Shadow(Effect(cfg, st, a), u)
  {
  }

  lemma HangupShadow(cfg: Config, st: State, u: State)
    requires Shadow(st, u) && ServerEnabled(st) && st.server.pc != u.server.pc
    ensures Shadow(ServerStep(cfg, st), u.(s := u.s.(err := true)))
  {
  }

  lemma FabricShadow(cfg: Config, st: State, u: State, a: Action)
    requires Shadow(st, u) && Enabled(cfg, st, a) && !ByProgram(a)
    ensures Enabled(cfg, u, a) && Shadow(Effect(cfg, st, a), Effect(cfg, u, a))
  {
    FabricBlind(cfg, u, st.client.pc, st.server.pc, a);
  }

  /** The action by which the shadow follows: the same one, or a fault where the server hangs up. */
  function Follow(st: State, u: State, a: Action): Action {
    if a.ServerRuns? && st.server.pc != u.server.pc then FaultServer else a
  }

  lemma FollowShadow(cfg: Config, st: State, u: State, a: Action)
    requires Shadow(st, u) && Enabled(cfg, st, a) && !a.ClientPollFails? && !a.ServerPollFails?
    ensures var b := Follow(st, u, a);
            !b.ClientPollFails? && !b.ServerPollFails? && Enabled(cfg, u, b) && Shadow(Effect(cfg, st, a), Effect(cfg, u, b))
  {
    if a.ServerRuns? && st.server.pc != u.server.pc {
      HangupShadow(cfg, st, u);
    } else if a.ClientRuns? || a.ClientIsRefused? {
      ClientShadow(cfg, st, u, a);
    } else if a.ServerRuns? || a.ServerIsRefused? {
      if a.ServerIsRefused? {
        RefusedInStep(cfg, st, u, a);
      }
      ServerShadow(cfg, st, u, a);
    } else {
      FabricShadow(cfg, st, u, a);
    }
  }

  /** A server whose poll failed has no call left that could be refused. */
  lemma RefusedInStep(cfg: Config, st: State, u: State, a: Action)
    requires Shadow(st, u) && Enabled(cfg, st, a) && a.ServerIsRefused?
    ensures st.server.pc == u.server.pc
  {
  }

  lemma ShadowStep(cfg: Config, st: State, u: State, a: Action) returns (v: State)
    requires Shadow(st, u) && Reachable(cfg, u) && Core(cfg, u) && Enabled(cfg, st, a) && !Effect(cfg, st, a).pollFailed
    ensures Shadow(Effect(cfg, st, a), v) && Reachable(cfg, v) && Core(cfg, v)
  {
    if a.ClientPollFails? || a.ServerPollFails? {
      FailingShadow(cfg, st, u, a);
      v := u;
    } else {
      FollowShadow(cfg, st, u, a);
      v := CoreStep(cfg, u, Follow(st, u, a));
    }
  }

  lemma CoreStep(cfg: Config, u: State, b: Action) returns (v: State)
    requires Reachable(cfg, u) && Core(cfg, u) && Enabled(cfg, u, b) && !b.ClientPollFails? && !b.ServerPollFails?
    ensures v == Effect(cfg, u, b) && Reachable(cfg, v) && Core(cfg, v)
  {
    v := Effect(cfg, u, b);
    StepKeeps(cfg, u, b);
    ReachableExtends(cfg, u, b);
  }

  lemma FlagStays(cfg: Config, st: State, a: Action)
    requires Enabled(cfg, st, a) && st.pollFailed
    ensures Effect(cfg, st, a).pollFailed
  {
    if a.ClientRuns? {
      ClientLeavesFlag(cfg, st);
    } else if a.ServerRuns? {
      ServerLeavesFlag(cfg, st);
    }
  }

  lemma ClientLeavesFlag(cfg: Config, st: State)
    requires ClientEnabled(st)
    ensures ClientStep(cfg, st).pollFailed == st.pollFailed
  {
  }

  lemma ServerLeavesFlag(cfg: Config, st: State)
    requires ServerEnabled(st)
    ensures ServerStep(cfg, st).pollFailed == st.pollFailed
  {
  }

  lemma {:induction false} FlagStaysForRun(cfg: Config, st: State, acts: seq<Action>, end: State)
    requires Run(cfg, st, acts, end) && st.pollFailed
    ensures end.pollFailed
    decreases |acts|
  {
    if acts != [] {
      FlagStays(cfg, st, acts[0]);
      FlagStaysForRun(cfg, Effect(cfg, st, acts[0]), acts[1..], end);
    }
  }

  lemma {:induction false} ShadowRun(cfg: Config, st: State, acts: seq<Action>, end: State, u: State) returns (v: State)
    requires Shadow(st, u) && Reachable(cfg, u) && Core(cfg, u) && Run(cfg, st, acts, end) && !end.pollFailed
    ensures Shadow(end, v) && Reachable(cfg, v) && Core(cfg, v)
    decreases |acts|
  {
    if acts == [] {
      v := u;
    } else {
      var next := Effect(cfg, st, acts[0]);
      if next.pollFailed {
        FlagStaysForRun(cfg, next, acts[1..], end);
      }
      v := ShadowStep(cfg, st, u, acts[0]);
      v := ShadowRun(cfg, next, acts[1..], end, v);
    }
  }

  /** A reachable state of a run in which the worker never went on after a failed poll. */
  ghost predicate Sound(cfg: Config, st: State) {
    Reachable(cfg, st) && !st.pollFailed
  }

  /** Every sound state has a shadow that satisfies the invariant: itself, but for programs that ended
      because their poll call failed. */
  lemma ReachableInv(cfg: Config, st: State) returns (u: State)
    requires Sound(cfg, st)
    ensures Shadow(st, u) && Reachable(cfg, u) && Core(cfg, u) && !u.pollFailed
    ensures st.client.pc != CDead && st.server.pc != SDead && !ServerGone(st.server.pc) ==> u == st
  {
    var acts :| Run(cfg, Init(cfg), acts, st);
    InitCore(cfg);
    assert Run(cfg, Init(cfg), [], Init(cfg));
    u := ShadowRun(cfg, Init(cfg), acts, st, Init(cfg));
    OnlyDeadDiffer(st, u);
  }

  lemma OnlyDeadDiffer(st: State, u: State)
    requires Shadow(st, u)
    ensures st.client.pc != CDead && st.server.pc != SDead && !ServerGone(st.server.pc) ==> u == st
    ensures u.pollFailed == st.pollFailed
  {
  }

  /** Where no program has died, the invariant holds of the state itself. */
  lemma AliveIsCore(cfg: Config, st: State)
    requires Sound(cfg, st) && st.client.pc != CDead && st.server.pc != SDead && !ServerGone(st.server.pc)
    ensures Core(cfg, st)
  {
    var u := ReachableInv(cfg, st);
  }

  /** Where the client has not died, its part of the invariant holds of the state itself. */
  lemma SoundClient(cfg: Config, st: State)
    requires Sound(cfg, st) && st.client.pc != CDead
    ensures Worker(cfg, st) && ClientQueues(st.c, st.client.pc) && JournalOk(cfg, st.cmds, st.journal)
  {
    var u := ReachableInv(cfg, st);
  }

  /** `accept` has failed. */
  predicate ServerGone(pc: ServerPc) {
    pc == SHangup(false) || pc == SClosed(false)
  }
}
