/** When a client that waits in `connect` can still be answered. `connect` has no time limit: a server that
    has failed, was refused a call or has too many buffers leaves it polling. */
module Answers {
  import opened MemBuffers
  import opened Commands
  import opened Protocol
  import opened Invariant
  import opened FabricPreservation
  import opened Shadows
  import opened Theorems
  import opened Progress

  /** The client polls for the server's hello or for the table, and nothing has come. */
  predicate Expects(st: State) {
    (st.client.pc.CPollHello? || st.client.pc.CPollTable?) && st.c.rcq == []
  }

  /** What the client polls for has come. */
  predicate Answered(pc: ClientPc, st: State) {
    st.client.pc == pc && st.c.rcq != [] && st.c.rcq[0].ok
  }

  /** Some continuation, the best there is, brings what the client waits for. */
  ghost predicate CanBeAnswered(cfg: Config, st: State) {
    exists acts, end :: Run(cfg, st, acts, end) && Answered(st.client.pc, end)
  }

  /** The server has yet to send what the client waits for, and will. */
  predicate WillSend(cfg: Config, st: State) {
    if st.client.pc.CPollHello? then st.server.pc.SPollHello? || st.server.pc.SSendHello?
    else (st.server.pc.SPollSent? || st.server.pc.SStage? || st.server.pc.SPostTable?) && TableFits(cfg)
  }

  /** Both queue pairs are up, and the server has sent the answer or will. */
  predicate Answerable(cfg: Config, st: State) {
    !st.c.err && !st.s.err && (st.s.sq != [] || WillSend(cfg, st))
  }

  // ----- Where it can, it is

  lemma RunPrefix(cfg: Config, st: State, a: Action, acts: seq<Action>, end: State)
    requires Enabled(cfg, st, a) && Run(cfg, Effect(cfg, st, a), acts, end)
    ensures Run(cfg, st, [a] + acts, end)
  {
    assert ([a] + acts)[1..] == acts;
  }

  /** An answer that has been sent can be delivered. */
  lemma SentIsAnswer(cfg: Config, st: State, u: State) returns (acts: seq<Action>, end: State)
    requires Shadow(st, u) && Setup(cfg, u) && Expects(st) && !st.c.err && !st.s.err && st.s.sq != []
    ensures Run(cfg, st, acts, end) && Answered(st.client.pc, end)
  {
    SentIs(cfg, u);
    if st.s.sq[0].wr.WrHello? || st.s.sq[0].payload.Some? {
      end := ToClient(cfg, st, true);
      acts := [DeliverToClient] + [];
      DeliveredAnswers(cfg, st);
      RunPrefix(cfg, st, DeliverToClient, [], end);
    } else {
      var t := st.(s := Fetch(st.s, |st.journal|));
      FetchedAnswer(cfg, st);
      DeliveredAnswers(cfg, t);
      end := ToClient(cfg, t, true);
      RunPrefix(cfg, t, DeliverToClient, [], end);
      RunPrefix(cfg, st, FetchServer, [DeliverToClient] + [], end);
      acts := [FetchServer] + ([DeliverToClient] + []);
    }
  }

  /** A message addressed to the client's CPU buffer. */
  predicate ToClientBuffer(cfg: Config, wr: WorkRequest) {
    wr.WrImm? && wr.raddr == cfg.clientCpu.basePtr && wr.rkey == cfg.clientCpu.rkey
  }

  /** What is on the server's queue while the client waits. */
  lemma SentIs(cfg: Config, u: State)
    requires Setup(cfg, u) && Expects(u) && u.s.sq != []
    ensures |u.s.sq| == 1 && u.c.rq != [] && u.accepted && |u.c.buf| == |u.s.buf|
    ensures u.s.sq[0].wr.WrHello? || ToClientBuffer(cfg, u.s.sq[0].wr)
    ensures u.s.sq[0].wr.WrImm? && u.s.sq[0].payload.Some? ==> |u.s.sq[0].payload.value| == |u.c.buf|
  {
  }

  /** The oldest request of the server is on its way. */
  predicate OnItsWay(cfg: Config, st: State) {
    Expects(st) && !st.c.err && !st.s.err && st.accepted && st.c.rq != [] && st.s.sq != []
    && (st.s.sq[0].wr.WrHello?
        || (ToClientBuffer(cfg, st.s.sq[0].wr) && st.s.sq[0].payload.Some? && |st.s.sq[0].payload.value| == |st.c.buf|))
  }

  lemma DeliveredAnswers(cfg: Config, st: State)
    requires OnItsWay(cfg, st)
    ensures ToClientEnabled(cfg, st) && Answered(st.client.pc, ToClient(cfg, st, true))
  {
  }

  lemma FetchedAnswer(cfg: Config, st: State)
    requires Expects(st) && !st.c.err && !st.s.err && st.accepted && st.c.rq != [] && |st.s.sq| == 1 && |st.c.buf| == |st.s.buf|
    requires ToClientBuffer(cfg, st.s.sq[0].wr) && st.s.sq[0].payload.None?
    ensures CanFetch(st.s) && OnItsWay(cfg, st.(s := Fetch(st.s, |st.journal|)))
    ensures st.(s := Fetch(st.s, |st.journal|)).client.pc == st.client.pc
  {
  }

  /** A server that will send does so by its own steps. */
  lemma SendsNext(cfg: Config, st: State)
    requires Setup(cfg, st) && Expects(st) && !st.c.err && !st.s.err && st.s.sq == [] && WillSend(cfg, st)
    ensures ServerEnabled(st) && Accepting(st.server.pc)
    ensures var t := AcceptStep(cfg, st);
            Expects(t) && t.client.pc == st.client.pc && !t.c.err && !t.s.err && (t.s.sq != [] || WillSend(cfg, t))
            && ServerLeft(t.server.pc) < ServerLeft(st.server.pc)
  {
    SendsFrom(cfg, st);
    ServerAdvances(cfg, st);
    if st.server.pc.SPollHello? || st.server.pc.SPollSent? {
      PollsTowardsSending(cfg, st);
    }
  }

  lemma SendsFrom(cfg: Config, st: State)
    requires Setup(cfg, st) && Expects(st) && !st.c.err && !st.s.err && st.s.sq == [] && WillSend(cfg, st)
    ensures st.server.pc.SPollHello? ==> st.s.rcq != [] && st.s.rcq[0].ok
    ensures st.server.pc.SPollSent? ==> st.s.scq != [] && st.s.scq[0].ok
    ensures |st.s.buf| == CPU_BUFFER_BASE_SIZE
  {
  }

  lemma PollsTowardsSending(cfg: Config, st: State)
    requires (st.server.pc.SPollHello? && st.s.rcq != [] && st.s.rcq[0].ok) || (st.server.pc.SPollSent? && st.s.scq != [] && st.s.scq[0].ok)
    ensures AcceptStep(cfg, st).server.pc == if st.server.pc.SPollHello? then SSendHello else SStage
  {
  }

  /** One step of such a server, as the waiting client sees it. */
  lemma ServesOn(cfg: Config, st: State) returns (t: State)
    requires Core(cfg, st) && Expects(st) && Answerable(cfg, st) && st.s.sq == []
    ensures Core(cfg, t) && Expects(t) && Answerable(cfg, t) && t.client.pc == st.client.pc
    ensures Enabled(cfg, st, ServerRuns) && t == Effect(cfg, st, ServerRuns) && ServerLeft(t.server.pc) < ServerLeft(st.server.pc)
  {
    SendsOn(cfg, st);
    t := Effect(cfg, st, ServerRuns);
    StepKeeps(cfg, st, ServerRuns);
  }

  lemma SendsOn(cfg: Config, st: State)
    requires Setup(cfg, st) && Expects(st) && Answerable(cfg, st) && st.s.sq == []
    ensures Enabled(cfg, st, ServerRuns) && Accepting(st.server.pc)
    ensures var t := Effect(cfg, st, ServerRuns);
            Expects(t) && Answerable(cfg, t) && t.client.pc == st.client.pc && ServerLeft(t.server.pc) < ServerLeft(st.server.pc)
  {
    SendsNext(cfg, st);
  }

  lemma {:induction false} WillBeAnswered(cfg: Config, st: State) returns (acts: seq<Action>, end: State)
    requires Core(cfg, st) && Expects(st) && Answerable(cfg, st)
    ensures Run(cfg, st, acts, end) && Answered(st.client.pc, end)
    decreases ServerLeft(st.server.pc)
  {
    if st.s.sq != [] {
      acts, end := AnswerOnItsWay(cfg, st);
    } else {
      var t := ServesOn(cfg, st);
      acts, end := WillBeAnswered(cfg, t);
      RunPrefix(cfg, st, ServerRuns, acts, end);
      acts := [ServerRuns] + acts;
    }
  }

  lemma AnswerOnItsWay(cfg: Config, st: State) returns (acts: seq<Action>, end: State)
    requires Core(cfg, st) && Expects(st) && Answerable(cfg, st) && st.s.sq != []
    ensures Run(cfg, st, acts, end) && Answered(st.client.pc, end)
  {
    acts, end := SentIsAnswer(cfg, st, st);
  }

  // ----- Where it cannot, it never is

  /** The server sends nothing any more, or its table is too long to send. */
  predicate SendsNothing(cfg: Config, st: State) {
    st.s.sq == [] && |st.s.buf| == CPU_BUFFER_BASE_SIZE
    && (st.server.pc.SDead? || ServerGone(st.server.pc)
        || (st.client.pc.CPollTable? && !TableFits(cfg) && (st.server.pc.SPollSent? || st.server.pc.SStage?)))
  }

  /** The client has died, or nothing that could still happen answers it. */
  predicate Hopeless(cfg: Config, pc: ClientPc, st: State) {
    st.client.pc.CDead?
    || (st.client.pc == pc && (pc.CPollHello? || pc.CPollTable?) && (st.c.rcq != [] ==> !st.c.rcq[0].ok)
        && (st.c.err || st.s.err || SendsNothing(cfg, st)))
  }

  lemma HopelessClient(cfg: Config, pc: ClientPc, st: State, a: Action)
    requires Hopeless(cfg, pc, st) && Enabled(cfg, st, a) && (a.ClientRuns? || a.ClientIsRefused? || a.ClientPollFails?)
    ensures Effect(cfg, st, a).client.pc.CDead?
  {
  }

  lemma HopelessServer(cfg: Config, pc: ClientPc, st: State, a: Action)
    requires Hopeless(cfg, pc, st) && Enabled(cfg, st, a) && (a.ServerRuns? || a.ServerIsRefused? || a.ServerPollFails?)
    ensures Hopeless(cfg, pc, Effect(cfg, st, a))
  {
    if a.ServerRuns? {
      ServerKeepsAway(cfg, pc, st);
    }
  }

  lemma ServerKeepsAway(cfg: Config, pc: ClientPc, st: State)
    requires Hopeless(cfg, pc, st) && ServerEnabled(st)
    ensures Hopeless(cfg, pc, ServerStep(cfg, st))
  {
    ServerDeaf(cfg, st, st.client.pc);
    if Accepting(st.server.pc) { AcceptsQuietly(cfg, st); } else { LoopsQuietly(st); }
    if st.s.err { ErrorsLast(cfg, st); }
    if !st.client.pc.CDead? && !st.c.err && !st.s.err {
      StillSendsNothing(cfg, st);
    }
  }

  lemma ErrorsLast(cfg: Config, st: State)
    requires ServerEnabled(st) && st.s.err
    ensures ServerStep(cfg, st).s.err
  {
    if Accepting(st.server.pc) { AcceptErrors(cfg, st); } else { LoopErrors(st); }
  }

  lemma AcceptErrors(cfg: Config, st: State)
    requires ServerEnabled(st)
    ensures AcceptStep(cfg, st).s.err == st.s.err
  {
  }

  lemma LoopErrors(st: State)
    requires ServerEnabled(st) && st.s.err
    ensures LoopStep(st).s.err
  {
  }

  lemma StillSendsNothing(cfg: Config, st: State)
    requires SendsNothing(cfg, st) && ServerEnabled(st)
    ensures ServerStep(cfg, st).client.pc == st.client.pc
    ensures SendsNothing(cfg, ServerStep(cfg, st))
  {
    if Accepting(st.server.pc) { GivesUp(cfg, st); } else { LoopsInSilence(st); }
  }

  lemma GivesUp(cfg: Config, st: State)
    requires SendsNothing(cfg, st) && ServerEnabled(st) && Accepting(st.server.pc)
    ensures AcceptStep(cfg, st).client.pc == st.client.pc && SendsNothing(cfg, AcceptStep(cfg, st))
  {
  }

  lemma LoopsInSilence(st: State)
    requires ServerEnabled(st) && ServerGone(st.server.pc) && st.s.sq == []
    ensures LoopStep(st).client.pc == st.client.pc && LoopStep(st).s.sq == [] && |LoopStep(st).s.buf| == |st.s.buf|
    ensures LoopStep(st).server.pc.SDead? || ServerGone(LoopStep(st).server.pc)
  {
  }

  lemma HopelessFabric(cfg: Config, pc: ClientPc, st: State, a: Action)
    requires Hopeless(cfg, pc, st) && Enabled(cfg, st, a) && !ByProgram(a)
    ensures Hopeless(cfg, pc, Effect(cfg, st, a))
  {
    if a.DeliverToServer? || a.LoseAckClient? {
      HopelessDelivery(cfg, pc, st, a.DeliverToServer?);
    } else if a.DeliverToClient? || a.LoseAckServer? {
      HopelessReply(cfg, pc, st, a.DeliverToClient?);
    }
  }

  lemma HopelessDelivery(cfg: Config, pc: ClientPc, st: State, acked: bool)
    requires Hopeless(cfg, pc, st) && ToServerEnabled(cfg, st)
    ensures Hopeless(cfg, pc, ToServer(cfg, st, acked))
  {
  }

  lemma HopelessReply(cfg: Config, pc: ClientPc, st: State, acked: bool)
    requires Hopeless(cfg, pc, st) && ToClientEnabled(cfg, st)
    ensures Hopeless(cfg, pc, ToClient(cfg, st, acked))
  {
  }

  lemma HopelessStep(cfg: Config, pc: ClientPc, st: State, a: Action)
    requires Hopeless(cfg, pc, st) && Enabled(cfg, st, a)
    ensures Hopeless(cfg, pc, Effect(cfg, st, a))
  {
    if a.ClientRuns? || a.ClientIsRefused? || a.ClientPollFails? {
      HopelessClient(cfg, pc, st, a);
    } else if ByProgram(a) {
      HopelessServer(cfg, pc, st, a);
    } else {
      HopelessFabric(cfg, pc, st, a);
    }
  }

  lemma {:induction false} HopelessRun(cfg: Config, pc: ClientPc, st: State, acts: seq<Action>, end: State)
    requires Hopeless(cfg, pc, st) && Run(cfg, st, acts, end)
    ensures Hopeless(cfg, pc, end)
    decreases |acts|
  {
    if acts != [] {
      HopelessStep(cfg, pc, st, acts[0]);
      HopelessRun(cfg, pc, Effect(cfg, st, acts[0]), acts[1..], end);
    }
  }

  lemma UnanswerableIsHopeless(cfg: Config, st: State, u: State)
    requires Shadow(st, u) && Setup(cfg, u) && Expects(st) && !Answerable(cfg, st)
    ensures Hopeless(cfg, st.client.pc, st)
  {
    if !st.c.err && !st.s.err {
      if st.client.pc.CPollHello? { NoHelloComes(cfg, u); } else { NoTableComes(cfg, u); }
    }
  }

  /** Where the server is while the client waits for its hello and it has not sent it. */
  lemma NoHelloComes(cfg: Config, u: State)
    requires Setup(cfg, u) && Expects(u) && u.client.pc.CPollHello? && !u.c.err && !u.s.err && u.s.sq == []
    ensures u.server.pc.SPollHello? || u.server.pc.SSendHello? || u.server.pc.SDead? || ServerGone(u.server.pc)
    ensures |u.s.buf| == CPU_BUFFER_BASE_SIZE
  {
  }

  lemma NoTableComes(cfg: Config, u: State)
    requires Setup(cfg, u) && Expects(u) && u.client.pc.CPollTable? && !u.c.err && !u.s.err && u.s.sq == []
    ensures u.server.pc.SPollSent? || u.server.pc.SStage? || (u.server.pc.SPostTable? && TableFits(cfg))
            || u.server.pc.SDead? || ServerGone(u.server.pc)
    ensures |u.s.buf| == CPU_BUFFER_BASE_SIZE
  {
  }

  /** A client that waits in `connect` can still be answered if and only if both queue pairs are up and the
      server has sent what it waits for or is still going to: for the table, that is, its own part has not
      ended and it has at most 340 buffers. */
  lemma AnswerableIff(cfg: Config, st: State)
    requires Sound(cfg, st) && Expects(st)
    ensures CanBeAnswered(cfg, st) <==> Answerable(cfg, st)
  {
    var u := ReachableInv(cfg, st);
    if Answerable(cfg, st) {
      var acts, end := AnswerFor(cfg, st, u);
      assert Run(cfg, st, acts, end);
    } else {
      UnanswerableIsHopeless(cfg, st, u);
      forall acts, end | Run(cfg, st, acts, end)
        ensures !Answered(st.client.pc, end)
      {
        HopelessRun(cfg, st.client.pc, st, acts, end);
      }
    }
  }

  lemma AnswerFor(cfg: Config, st: State, u: State) returns (acts: seq<Action>, end: State)
    requires Shadow(st, u) && Core(cfg, u) && Expects(st) && Answerable(cfg, st)
    ensures Run(cfg, st, acts, end) && Answered(st.client.pc, end)
  {
    if st.s.sq != [] {
      acts, end := SentIsAnswer(cfg, st, u);
    } else {
      LiveIsItself(cfg, st, u);
      acts, end := WillBeAnswered(cfg, st);
    }
  }

  lemma LiveIsItself(cfg: Config, st: State, u: State)
    requires Shadow(st, u) && Expects(st) && WillSend(cfg, st)
    ensures u == st
  {
  }
}
