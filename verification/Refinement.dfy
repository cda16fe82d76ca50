/** The state machine and the sequential code agree: the outcomes of every run of one connection are those
    of the worker's loop for some verdicts of the fabric, and so are the memories, the window and the
    messages; and both make the same of an arrival. */
module Refinement {
  import opened Wrappers
  import opened Completion
  import opened Commands
  import opened Journal
  import opened Protocol
  import opened Invariant
  import opened Shadows
  import opened Delivery
  import opened Reports
  import opened Endpoints
  import opened Exchange
  import opened Registration
  import opened MemBuffers

  function VerdictOf(o: Outcome): Verdict {
    match o
    case Refused => Refuse
    case Failed(landed) => Fail(landed)
    case _ => Succeed
  }

  function VerdictsOf(outs: seq<Outcome>): (vs: seq<Verdict>)
    ensures |vs| == |outs| && forall i :: 0 <= i < |vs| ==> vs[i] == VerdictOf(outs[i])
  {
    seq(|outs|, i requires 0 <= i < |outs| => VerdictOf(outs[i]))
  }

  lemma OutcomeIsVerdict(cfg: Config, cmd: Command, o: Outcome)
    requires o.Skipped? <==> !Message(cmd) && !Transfer(cmd)
    requires Landed(o) ==> Message(cmd) || (Transfer(cmd) && Allowed(cfg, cmd))
    ensures o == OutcomeOf(cfg, cmd, VerdictOf(o))
  {
  }

  lemma OutcomesAreVerdicts(cfg: Config, st: State)
    requires Invariant.Worker(cfg, st) && ClientQueues(st.c, st.client.pc) && JournalOk(cfg, st.cmds, st.journal)
    ensures |OutcomesNow(st)| <= |st.cmds|
    ensures forall i :: 0 <= i < |OutcomesNow(st)| ==>
                          OutcomesNow(st)[i] == OutcomeOf(cfg, st.cmds[i], VerdictsOf(OutcomesNow(st))[i])
  {
    SaneNow(cfg, st);
    var outs := OutcomesNow(st);
    forall i | 0 <= i < |outs|
      ensures outs[i] == OutcomeOf(cfg, st.cmds[i], VerdictOf(outs[i]))
    {
      if Landed(outs[i]) {
        LandedIsPermitted(cfg, st.cmds, st.journal, outs, i);
      }
      OutcomeIsVerdict(cfg, st.cmds[i], outs[i]);
    }
  }

  /** Every sound state is one that the worker's loop could have left, given the right verdicts: the same
      outcomes, and by them the same memories if nobody else writes, the same window between completions,
      and the same messages in the same order, of which the server has returned the first. */
  lemma WorkerCouldHave(cfg: Config, st: State) returns (verdicts: seq<Verdict>)
    requires Sound(cfg, st)
    ensures |verdicts| == |OutcomesNow(st)| <= |st.cmds|
    ensures forall i :: 0 <= i < |verdicts| ==> OutcomesNow(st)[i] == OutcomeOf(cfg, st.cmds[i], verdicts[i])
    ensures Alone(st.journal) ==> Memories(st.c.mem, st.s.mem) == Fold(cfg, st.cmds, OutcomesNow(st))
    ensures !st.client.locked ==>
              st.client.k <= |st.cmds| && st.client.win == Rounds(New(cfg.cap), CompletedIds(st.cmds[..st.client.k]))
    ensures st.server.returned <= LandedNotes(st.cmds, OutcomesNow(st))
  {
    var u := ReachableInv(cfg, st);
    OutcomesAreVerdicts(cfg, u);
    verdicts := VerdictsOf(OutcomesNow(u));
    NotificationsInOrder(cfg, st);
    ReachableShelved(cfg, st);
    if Alone(st.journal) {
      MemoriesAreFold(cfg, st);
    }
  }

  // ----- Arrivals

  /** A polled receive with what is in the buffer. */
  function ArrivalOf(n: Node): Arrival
    requires n.rcq != []
  {
    Arrival(n.rcq[0].ok, n.rcq[0].op == OpRecvImm, n.rcq[0].imm, n.buf)
  }

  /** The loop after it has polled, and decoded if there is something to decode. */
  function Handling(st: State): State
    requires ServerEnabled(st)
  {
    var t := LoopStep(st);
    if t.server.pc.SDecode? then LoopStep(t) else t
  }

  /** The loop returns the notification that the receive brought, and is over if it brought none. */
  lemma LoopHandles(st: State)
    requires st.server.pc.SPollRecv? && st.s.rcq != [] && |st.s.buf| == CPU_BUFFER_BASE_SIZE
    ensures forall n :: Brought(Arrived(ArrivalOf(st.s)), n) ==>
                          Handling(st).server == st.server.(pc := SHandle, note := n, returned := st.server.returned + [n])
    ensures (forall n :: !Brought(Arrived(ArrivalOf(st.s)), n)) ==> Handling(st).server == st.server.(pc := SDead)
  {
    var rec := Arrived(ArrivalOf(st.s));
    forall n
      ensures Handled(rec) == Success(n) <==> Brought(rec, n)
    {
      HandledIff(rec, n);
    }
    HandlingIs(st);
  }

  lemma HandlingIs(st: State)
    requires st.server.pc.SPollRecv? && st.s.rcq != [] && |st.s.buf| == CPU_BUFFER_BASE_SIZE
    ensures match Handled(Arrived(ArrivalOf(st.s)))
            case Success(n) => Handling(st).server == st.server.(pc := SHandle, note := n, returned := st.server.returned + [n])
            case Failure(_) => Handling(st).server == st.server.(pc := SDead)
  {
  }

  /** `connect` after it has polled, and decoded if there is something to decode. */
  function TakingTable(cfg: Config, st: State): State
    requires ClientEnabled(st)
  {
    var t := ConnectStep(cfg, st);
    if t.client.pc.CDecode? then ConnectStep(cfg, t) else t
  }

  /** `connect` returns Ok with the map of the table that the receive brought, and fails if it brought none. */
  lemma ConnectTakes(cfg: Config, st: State)
    requires st.client.pc.CPollTable? && st.c.rcq != [] && |st.c.buf| == CPU_BUFFER_BASE_SIZE
    ensures forall cs :: TableIn(ArrivalOf(st.c), cs) ==>
                           TakingTable(cfg, st).client == st.client.(pc := CNext, remote := RemoteMap(cs))
    ensures (forall cs :: !TableIn(ArrivalOf(st.c), cs)) ==> TakingTable(cfg, st).client == st.client.(pc := CDead)
  {
    RemoteFromIff(ArrivalOf(st.c));
    TakingIs(cfg, st);
  }

  lemma TakingIs(cfg: Config, st: State)
    requires st.client.pc.CPollTable? && st.c.rcq != [] && |st.c.buf| == CPU_BUFFER_BASE_SIZE
    ensures match RemoteFrom(ArrivalOf(st.c))
            case Success(remote) => TakingTable(cfg, st).client == st.client.(pc := CNext, remote := remote)
            case Failure(_) => TakingTable(cfg, st).client == st.client.(pc := CDead)
  {
  }
}
