/** What the client's `is_complete` means, and the window it reads. */
module Reports {
  import opened Completion
  import opened Commands
  import opened Journal
  import opened Protocol
  import opened Invariant
  import opened Preservation
  import opened FabricPreservation
  import opened Shadows
  import opened Delivery

  // ----- The window, whatever fails

  /** The client's window is that of its finished commands, the current one counted once it has been
      added. This depends on nothing that the fabric or a poll can do. */
  predicate Shelved(cfg: Config, cmds: seq<Command>, client: Client) {
    ClientWindow(cfg, cmds, client)
    && (Working(client.pc) ==> client.k < |cmds|)
    && (client.pc.CLock? || client.pc.CAdd? || client.pc.CEvict? ==> cmds[client.k].Complete?)
  }

  lemma ConnectShelved(cfg: Config, st: State)
    requires Shelved(cfg, st.cmds, st.client) && ClientEnabled(st) && Connecting(st.client.pc)
    ensures Shelved(cfg, st.cmds, ConnectStep(cfg, st).client) && ConnectStep(cfg, st).cmds == st.cmds
  {
    ConnectMoves(cfg, st);
    IdleShelved(cfg, st.cmds, st.client, ConnectStep(cfg, st).client);
  }

  lemma ConnectMoves(cfg: Config, st: State)
    requires ClientEnabled(st) && Connecting(st.client.pc)
    ensures var t := ConnectStep(cfg, st);
            t.cmds == st.cmds && t.client == st.client.(pc := t.client.pc, peer := t.client.peer, remote := t.client.remote)
            && (Connecting(t.client.pc) || t.client.pc.CNext? || t.client.pc.CDead?)
  {
    if st.client.pc.CDecode? {
      DecodeMoves(cfg, st);
    } else if ClientPolling(st) {
      PollMoves(cfg, st);
    }
  }

  lemma DecodeMoves(cfg: Config, st: State)
    requires st.client.pc.CDecode?
    ensures var t := ConnectStep(cfg, st);
            t.cmds == st.cmds && t.client == st.client.(pc := t.client.pc, remote := t.client.remote)
            && (t.client.pc.CNext? || t.client.pc.CDead?)
  {
  }

  lemma PollMoves(cfg: Config, st: State)
    requires ClientEnabled(st) && Connecting(st.client.pc) && ClientPolling(st)
    ensures var t := ConnectStep(cfg, st);
            t.cmds == st.cmds && t.client == st.client.(pc := t.client.pc, peer := t.client.peer)
            && (Connecting(t.client.pc) || t.client.pc.CDead?)
  {
    if st.client.pc.CPollHello? {
      HelloMoves(cfg, st);
    }
  }

  lemma HelloMoves(cfg: Config, st: State)
    requires st.client.pc.CPollHello? && st.c.rcq != []
    ensures var t := ConnectStep(cfg, st);
            t.cmds == st.cmds && t.client == st.client.(pc := t.client.pc, peer := t.client.peer)
            && (Connecting(t.client.pc) || t.client.pc.CDead?)
  {
  }

  lemma IdleShelved(cfg: Config, cmds: seq<Command>, client: Client, next: Client)
    requires Shelved(cfg, cmds, client) && (Connecting(client.pc) || client.pc.CHangup?)
    requires next == client.(pc := next.pc, peer := next.peer, remote := next.remote)
    requires Connecting(next.pc) || next.pc.CNext? || next.pc.CDone? || next.pc.CDead?
    ensures Shelved(cfg, cmds, next)
  {
  }

  /** The end of a command, however it ends. */
  lemma EndShelved(cfg: Config, cmds: seq<Command>, client: Client, o: Outcome, pc: ClientPc)
    requires Shelved(cfg, cmds, client) && Finishing(client.pc) && client.k < |cmds|
    requires client.pc.CNext? ==> !cmds[client.k].Complete?
    requires pc.CNext? || pc.CHangup? || pc.CDead?
    ensures Shelved(cfg, cmds, client.(pc := pc, k := client.k + 1, outs := client.outs + [o], locked := false))
  {
    WindowNext(cfg.cap, cmds, client.k);
  }

  lemma TakeShelved(cfg: Config, st: State)
    requires Shelved(cfg, st.cmds, st.client) && st.client.pc.CNext? && st.client.k < |st.cmds|
    ensures Shelved(cfg, st.cmds, TakeCommand(cfg, st).client) && TakeCommand(cfg, st).cmds == st.cmds
  {
    var cmd := st.cmds[st.client.k];
    if Message(cmd) {
      MessageShelved(cfg, st);
    } else {
      TransferShelved(cfg, st);
    }
  }

  lemma MessageShelved(cfg: Config, st: State)
    requires Shelved(cfg, st.cmds, st.client) && st.client.pc.CNext? && st.client.k < |st.cmds| && Message(st.cmds[st.client.k])
    ensures Shelved(cfg, st.cmds, TakeCommand(cfg, st).client) && TakeCommand(cfg, st).cmds == st.cmds
  {
  }

  lemma TransferShelved(cfg: Config, st: State)
    requires Shelved(cfg, st.cmds, st.client) && st.client.pc.CNext? && st.client.k < |st.cmds| && Moving(st.cmds[st.client.k])
    ensures Shelved(cfg, st.cmds, TakeCommand(cfg, st).client) && TakeCommand(cfg, st).cmds == st.cmds
  {
    if !Transfer(st.cmds[st.client.k]) {
      EndShelved(cfg, st.cmds, st.client, Skipped, CNext);
    }
  }

  lemma PassShelved(cfg: Config, st: State)
    requires Shelved(cfg, st.cmds, st.client) && ClientEnabled(st)
    requires st.client.pc.CLock? || st.client.pc.CAdd? || st.client.pc.CEvict? || st.client.pc.CPost?
    ensures Shelved(cfg, st.cmds, WorkerStep(cfg, st).client) && WorkerStep(cfg, st).cmds == st.cmds
  {
  }

  lemma PollShelved(cfg: Config, st: State)
    requires Shelved(cfg, st.cmds, st.client) && ClientEnabled(st) && st.client.pc.CPoll?
    ensures Shelved(cfg, st.cmds, WorkerStep(cfg, st).client) && WorkerStep(cfg, st).cmds == st.cmds
  {
    var wc := st.c.scq[0];
    var pc := if !st.cmds[st.client.k].Disconnect? then CNext else if wc.ok then CHangup else CDead;
    EndShelved(cfg, st.cmds, st.client, if wc.ok then Ok else Failed(wc.landed), pc);
  }

  lemma ClientShelved(cfg: Config, st: State)
    requires Shelved(cfg, st.cmds, st.client) && ClientEnabled(st)
    ensures Shelved(cfg, st.cmds, ClientStep(cfg, st).client) && ClientStep(cfg, st).cmds == st.cmds
  {
    if Connecting(st.client.pc) {
      ConnectShelved(cfg, st);
    } else if st.client.pc.CNext? {
      TakeShelved(cfg, st);
    } else if st.client.pc.CPoll? {
      PollShelved(cfg, st);
    } else if st.client.pc.CHangup? {
      IdleShelved(cfg, st.cmds, st.client, ClientStep(cfg, st).client);
    } else {
      PassShelved(cfg, st);
    }
  }

  lemma TroubleShelved(cfg: Config, st: State)
    requires Shelved(cfg, st.cmds, st.client)
    ensures ClientRefusable(st) ==> Shelved(cfg, st.cmds, ClientRefused(st).client) && ClientRefused(st).cmds == st.cmds
    ensures ClientPolling(st) ==> Shelved(cfg, st.cmds, ClientBadPoll(st).client) && ClientBadPoll(st).cmds == st.cmds
  {
    if ClientRefusable(st) {
      RefusalShelved(cfg, st);
    }
    if ClientPolling(st) {
      BadPollShelved(cfg, st);
    }
  }

  lemma RefusalShelved(cfg: Config, st: State)
    requires Shelved(cfg, st.cmds, st.client) && ClientRefusable(st)
    ensures Shelved(cfg, st.cmds, ClientRefused(st).client) && ClientRefused(st).cmds == st.cmds
  {
    if st.client.pc.CPost? {
      EndShelved(cfg, st.cmds, st.client, Refused, if st.cmds[st.client.k].Disconnect? then CDead else CNext);
    } else {
      DiesShelved(cfg, st.cmds, st.client);
    }
  }

  lemma BadPollShelved(cfg: Config, st: State)
    requires Shelved(cfg, st.cmds, st.client) && ClientPolling(st)
    ensures Shelved(cfg, st.cmds, ClientBadPoll(st).client) && ClientBadPoll(st).cmds == st.cmds
  {
    if st.client.pc.CPoll? && !st.cmds[st.client.k].Disconnect? {
      EndShelved(cfg, st.cmds, st.client, Failed(false), CNext);
    } else {
      DiesShelved(cfg, st.cmds, st.client);
    }
  }

  lemma DiesShelved(cfg: Config, cmds: seq<Command>, client: Client)
    requires Shelved(cfg, cmds, client) && !Guarded(cmds, client)
    ensures Shelved(cfg, cmds, client.(pc := CDead))
  {
  }

  lemma ServerLeavesClient(cfg: Config, st: State, a: Action)
    requires Enabled(cfg, st, a) && !a.ClientRuns? && !a.ClientIsRefused? && !a.ClientPollFails? && !a.Submit?
    ensures Effect(cfg, st, a).client == st.client && Effect(cfg, st, a).cmds == st.cmds
  {
    if a.ServerRuns? {
      ServerDeaf(cfg, st, st.client.pc);
    } else if !a.ServerIsRefused? && !a.ServerPollFails? {
      assert st == Masked(st, st.client.pc, st.server.pc);
      FabricBlind(cfg, st, st.client.pc, st.server.pc, a);
    }
  }

  lemma StepShelved(cfg: Config, st: State, a: Action)
    requires Shelved(cfg, st.cmds, st.client) && Enabled(cfg, st, a)
    ensures var t := Effect(cfg, st, a); Shelved(cfg, t.cmds, t.client)
  {
    if a.ClientRuns? {
      ClientShelved(cfg, st);
    } else if a.ClientIsRefused? || a.ClientPollFails? {
      TroubleShelved(cfg, st);
    } else if a.Submit? {
      SubmitWindow(cfg, st.cmds, st.client, a.cmd);
    } else {
      ServerLeavesClient(cfg, st, a);
    }
  }

  lemma {:induction false} RunShelved(cfg: Config, st: State, acts: seq<Action>, end: State)
    requires Shelved(cfg, st.cmds, st.client) && Run(cfg, st, acts, end)
    ensures Shelved(cfg, end.cmds, end.client)
    decreases |acts|
  {
    if acts != [] {
      StepShelved(cfg, st, acts[0]);
      RunShelved(cfg, Effect(cfg, st, acts[0]), acts[1..], end);
    }
  }

  lemma ReachableShelved(cfg: Config, st: State)
    requires Reachable(cfg, st)
    ensures ValidConfig(cfg) && Shelved(cfg, st.cmds, st.client)
  {
    var acts :| Run(cfg, Init(cfg), acts, st);
    RunShelved(cfg, Init(cfg), acts, st);
  }

  /** The window never reallocates, whatever happens: its room is what it was created with. */
  lemma WindowStorage(cfg: Config, st: State)
    requires Reachable(cfg, st)
    ensures st.client.win.cap == cfg.cap && |st.client.win.fifo| <= cfg.cap
    ensures !st.client.locked ==> |st.client.win.fifo| < cfg.cap
  {
    ReachableShelved(cfg, st);
    var h := CompletedIds(st.cmds[..st.client.k]);
    WindowQueue(cfg.cap, h);
    if st.client.k < |st.cmds| && st.cmds[st.client.k].Complete? {
      WindowQueue(cfg.cap, h + [st.cmds[st.client.k].reqId]);
      RoundsAppend(New(cfg.cap), h, st.cmds[st.client.k].reqId);
    }
  }

  // ----- What the client reports

  /** What `is_complete` answers on the client: a reader gives up while the write guard is held. */
  predicate ClientReports(st: State, id: ReqId) {
    !st.client.locked && id in st.client.win.ids
  }

  lemma {:induction false} CompletedIdsFrom(cmds: seq<Command>, id: ReqId) returns (i: nat)
    requires id in CompletedIds(cmds)
    ensures i < |cmds| && cmds[i] == Complete(id)
  {
    var n := |cmds| - 1;
    if id in CompletedIds(cmds[..n]) {
      i := CompletedIdsFrom(cmds[..n], id);
    } else {
      i := n;
    }
  }

  /** Exactly what the client reports, whatever has failed: while nobody holds the lock, the ids of which no
      copy was evicted since they were last added, among those of all the `Complete` commands so far. The lock
      is held from the addition of an id to the end of its command, and then nothing is reported. */
  lemma ClientReportsIff(cfg: Config, st: State, id: ReqId)
    requires Reachable(cfg, st)
    ensures st.client.k <= |st.cmds|
    ensures ClientReports(st, id) <==> !st.client.locked && Reported(CompletedIds(st.cmds[..st.client.k]), cfg.cap - 1, id)
    ensures st.client.locked <==>
            st.client.pc.CAdd? || st.client.pc.CEvict?
            || ((st.client.pc.CPost? || st.client.pc.CPoll?) && st.client.k < |st.cmds| && st.cmds[st.client.k].Complete?)
  {
    ReachableShelved(cfg, st);
    WindowExact(cfg.cap, CompletedIds(st.cmds[..st.client.k]), id);
  }

  /** In every interleaving and after every kind of failure, the client reports an id only after a
      `write_metadata` for it has returned, and exactly when no copy of it was evicted since it was last
      added; so it is one of the last `cap - 1` completed. */
  lemma ClientCompletionConservative(cfg: Config, st: State, id: ReqId) returns (i: nat)
    requires Reachable(cfg, st) && ClientReports(st, id)
    ensures i < st.client.k <= |st.cmds| && st.cmds[i] == Complete(id)
    ensures Reported(CompletedIds(st.cmds[..st.client.k]), cfg.cap - 1, id)
    ensures id in Last(CompletedIds(st.cmds[..st.client.k]), cfg.cap - 1)
  {
    ReachableShelved(cfg, st);
    var h := CompletedIds(st.cmds[..st.client.k]);
    WindowExact(cfg.cap, h, id);
    ReportedIsRecent(cfg.cap, h, id);
    i := CompletedIdsFrom(st.cmds[..st.client.k], id);
  }

  // ----- Whether the server was told

  /** The message of a `Complete(id)` has arrived at the server. */
  ghost predicate Told(st: State, id: ReqId) {
    exists i :: 0 <= i < |st.cmds| && st.cmds[i] == Complete(id) && i in SignalAt(st.journal)
  }

  /** Some `write_metadata` for the id has returned, and its post was not refused. */
  ghost predicate PostTaken(st: State, id: ReqId) {
    exists i :: 0 <= i < st.client.k && i < |st.cmds| && i < |st.client.outs|
                && st.cmds[i] == Complete(id) && !st.client.outs[i].Refused?
  }

  lemma {:induction false} SignalsOfMessages(cfg: Config, cmds: seq<Command>, j: seq<Event>, i: nat)
    requires JournalOk(cfg, cmds, j) && i < |cmds| && Message(cmds[i])
    ensures i in SignalAt(j) <==> i in OwnAt(j)
  {
    if j != [] {
      SignalsOfMessages(cfg, cmds, j[..|j| - 1], i);
    }
  }

  /** A message took effect exactly when the journal has its signal. */
  lemma MessageLandedIff(cfg: Config, st: State, i: nat)
    requires Worker(cfg, st) && ClientQueues(st.c, st.client.pc) && JournalOk(cfg, st.cmds, st.journal)
    requires i < |st.cmds| && Message(st.cmds[i])
    ensures i in SignalAt(st.journal) <==> i < |OutcomesNow(st)| && Landed(OutcomesNow(st)[i])
  {
    SaneNow(cfg, st);
    LandedAtOrdered(OutcomesNow(st));
    SignalsOfMessages(cfg, st.cmds, st.journal, i);
  }

  /** Each returned `write_metadata` by itself: Ok means that the server has the message, a refused post
      that it never will, and a failed completion, which comes with a failed queue pair, either. */
  lemma OutcomeTells(cfg: Config, st: State, i: nat)
    requires Sound(cfg, st) && i < st.client.k && i < |st.cmds| && Message(st.cmds[i])
    ensures i < |st.client.outs|
    ensures st.client.outs[i].Ok? ==> i in SignalAt(st.journal)
    ensures st.client.outs[i].Refused? ==> i !in SignalAt(st.journal)
    ensures st.client.outs[i].Failed? ==> st.c.err
  {
    var u := ReachableInv(cfg, st);
    FinishedTells(cfg, u, i);
  }

  lemma FinishedTells(cfg: Config, st: State, i: nat)
    requires Worker(cfg, st) && ClientQueues(st.c, st.client.pc) && JournalOk(cfg, st.cmds, st.journal)
    requires i < st.client.k && i < |st.cmds| && Message(st.cmds[i])
    ensures i < |st.client.outs|
    ensures i in SignalAt(st.journal) <==> Landed(st.client.outs[i])
    ensures !st.client.outs[i].Skipped? && (st.client.outs[i].Failed? ==> st.c.err)
  {
    MessageLandedIff(cfg, st, i);
  }

  /** While the client's queue pair is healthy and no completion is under way, the server has been told
      of an id if and only if one of the posts for it was not refused. */
  lemma ToldIff(cfg: Config, st: State, id: ReqId)
    requires Sound(cfg, st) && !st.client.locked && !st.c.err
    ensures Told(st, id) <==> PostTaken(st, id)
  {
    var u := ReachableInv(cfg, st);
    ToldIffTaken(cfg, u, id);
    SameTold(st, u, id);
  }

  lemma SameTold(st: State, u: State, id: ReqId)
    requires Shadow(st, u)
    ensures (Told(st, id) <==> Told(u, id)) && (PostTaken(st, id) <==> PostTaken(u, id))
  {
  }

  lemma ToldIffTaken(cfg: Config, st: State, id: ReqId)
    requires Worker(cfg, st) && ClientQueues(st.c, st.client.pc) && JournalOk(cfg, st.cmds, st.journal)
    requires ClientWindow(cfg, st.cmds, st.client) && !st.client.locked && !st.c.err
    ensures Told(st, id) <==> PostTaken(st, id)
  {
    if Told(st, id) {
      var i: nat :| 0 <= i < |st.cmds| && st.cmds[i] == Complete(id) && i in SignalAt(st.journal);
      ToldWasFinished(cfg, st, i);
      FinishedTells(cfg, st, i);
    }
    if PostTaken(st, id) {
      var i: nat :| 0 <= i < st.client.k && i < |st.cmds| && i < |st.client.outs|
                    && st.cmds[i] == Complete(id) && !st.client.outs[i].Refused?;
      FinishedTells(cfg, st, i);
    }
  }

  /** The guard is held until the completion of the message has been polled. */
  lemma ToldWasFinished(cfg: Config, st: State, i: nat)
    requires Worker(cfg, st) && ClientQueues(st.c, st.client.pc) && JournalOk(cfg, st.cmds, st.journal)
    requires ClientWindow(cfg, st.cmds, st.client) && !st.client.locked
    requires i < |st.cmds| && st.cmds[i].Complete? && i in SignalAt(st.journal)
    ensures i < st.client.k
  {
    MessageLandedIff(cfg, st, i);
    UnpolledIsNow(st.c, st.client);
    assert Outcomes(st.cmds, st.client);
  }
}
