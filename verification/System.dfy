/** The whole server: any number of connections, each with its own client, sharing the server's GPU
    memory and one completion window under a lock. */
module System {
  import opened Bytes
  import opened Wrappers
  import opened Completion
  import opened Commands
  import opened Journal
  import opened Protocol
  import opened Theorems
  import opened Delivery
  import opened Always

  /** `holder` has the window's write lock; `history` is every addition, with its connection. */
  datatype System = System(conns: seq<State>, win: Window, holder: Option<nat>, history: seq<(nat, ReqId)>)

  /** Something happens on one connection, or the server's own program writes to its GPU memory. */
  datatype SystemAction = On(i: nat, a: Action) | Write(addr: nat, data: seq<u8>)

  predicate ValidSystem(cfgs: seq<Config>, cap: nat) {
    cap >= 1
    && (forall i :: 0 <= i < |cfgs| ==> ValidConfig(cfgs[i]))
    && (forall i, j :: 0 <= i < j < |cfgs| ==> cfgs[i].serverMem == cfgs[j].serverMem)
  }

  function InitSystem(cfgs: seq<Config>, cap: nat): System {
    System(seq(|cfgs|, i requires 0 <= i < |cfgs| => Init(cfgs[i])), New(cap), Option.None, [])
  }

  /** The write to the server's GPU memory that an action on a connection performs, if any. */
  function Placement(st: State, a: Action): Option<(nat, seq<u8>)> {
    if (a.DeliverToServer? || a.LoseAckClient?) && st.c.sq != [] && st.c.sq[0].wr.WrWrite? && st.c.sq[0].payload.Some?
    then Some((st.c.sq[0].wr.raddr as nat, st.c.sq[0].payload.value)) else Option.None
  }

  /** How a connection sees a write by somebody else. */
  function Notice(st: State, w: Option<(nat, seq<u8>)>): State {
    match w
    case None => st
    case Some((addr, data)) =>
      st.(s := st.s.(mem := Splice(st.s.mem, addr, data)), journal := st.journal + [Foreign(addr, data)])
  }

  predicate Locking(st: State, a: Action) {
    a.ServerRuns? && st.server.pc.SLock?
  }

  predicate Adding(st: State, a: Action) {
    a.ServerRuns? && st.server.pc.SAdd? && st.server.note.reqId.Some?
  }

  predicate Unlocking(st: State, a: Action) {
    a.ServerRuns? && st.server.pc.SEvict?
  }

  predicate SystemEnabled(cfgs: seq<Config>, sys: System, b: SystemAction) {
    |sys.conns| == |cfgs|
    && match b
       case On(i, a) =>
         i < |cfgs| && !a.Intrude? && Enabled(cfgs[i], sys.conns[i], a)
         && (Locking(sys.conns[i], a) ==> sys.holder.None?)
       case Write(addr, data) =>
         forall i :: 0 <= i < |cfgs| ==> addr + |data| <= |sys.conns[i].s.mem|
  }

  function SystemEffect(cfgs: seq<Config>, sys: System, b: SystemAction): System
    requires SystemEnabled(cfgs, sys, b)
  {
    match b
    case On(i, a) =>
      var st := sys.conns[i];
      var w := Placement(st, a);
      var conns := seq(|cfgs|, j requires 0 <= j < |cfgs| => if j == i then Effect(cfgs[i], st, a) else Notice(sys.conns[j], w));
      if Locking(st, a) then System(conns, sys.win, Some(i), sys.history)
      else if Adding(st, a) then
        System(conns, Add(sys.win, st.server.note.reqId.value), sys.holder, sys.history + [(i, st.server.note.reqId.value)])
      else if Unlocking(st, a) then System(conns, if Full(sys.win) then Evict(sys.win) else sys.win, Option.None, sys.history)
      else System(conns, sys.win, sys.holder, sys.history)
    case Write(addr, data) =>
      sys.(conns := seq(|cfgs|, j requires 0 <= j < |cfgs| => Notice(sys.conns[j], Some((addr, data)))))
  }

  ghost predicate SystemRun(cfgs: seq<Config>, sys: System, acts: seq<SystemAction>, end: System)
    decreases |acts|
  {
    if acts == [] then sys == end
    else SystemEnabled(cfgs, sys, acts[0]) && SystemRun(cfgs, SystemEffect(cfgs, sys, acts[0]), acts[1..], end)
  }

  ghost predicate SystemReachable(cfgs: seq<Config>, cap: nat, sys: System) {
    ValidSystem(cfgs, cap) && exists acts :: SystemRun(cfgs, InitSystem(cfgs, cap), acts, sys)
  }

  // ----- What every reachable system satisfies

  function Ids(h: seq<(nat, ReqId)>): (r: seq<ReqId>)
    ensures |r| == |h|
    ensures forall k :: 0 <= k < |h| ==> r[k] == h[k].1
  {
    if h == [] then [] else Ids(h[..|h| - 1]) + [h[|h| - 1].1]
  }

  /** The additions of connection `i`, in order. */
  function StreamOf(h: seq<(nat, ReqId)>, i: nat): seq<ReqId> {
    if h == [] then [] else
      StreamOf(h[..|h| - 1], i) + if h[|h| - 1].0 == i then [h[|h| - 1].1] else []
  }

  predicate InLock(pc: ServerPc) {
    pc.SAdd? || pc.SEvict?
  }

  /** Where the server program of each connection is. */
  function Pcs(conns: seq<State>): (r: seq<ServerPc>)
    ensures |r| == |conns|
    ensures forall j :: 0 <= j < |r| ==> r[j] == conns[j].server.pc
  {
    seq(|conns|, j requires 0 <= j < |conns| => conns[j].server.pc)
  }

  /** Exactly the holder is between lock and unlock, and the window is its history's, addition and
      eviction done together unless the holder is between the two. */
  predicate SharedWindow(pcs: seq<ServerPc>, win: Window, holder: Option<nat>, history: seq<(nat, ReqId)>, cap: nat) {
    (forall j :: 0 <= j < |pcs| ==> (InLock(pcs[j]) <==> holder == Some(j)))
    && match holder
       case None => win == Rounds(New(cap), Ids(history))
       case Some(i) =>
         i < |pcs|
         && if pcs[i].SEvict?
            then history != [] && win == Add(Rounds(New(cap), Ids(history[..|history| - 1])), history[|history| - 1].1)
            else win == Rounds(New(cap), Ids(history))
  }

  predicate Streams(conns: seq<State>, history: seq<(nat, ReqId)>) {
    forall j :: 0 <= j < |conns| ==> StreamOf(history, j) == conns[j].server.recorded
  }

  predicate SameMemory(conns: seq<State>) {
    forall i, j :: 0 <= i < j < |conns| ==> conns[i].s.mem == conns[j].s.mem
  }

  ghost predicate EachReachable(cfgs: seq<Config>, conns: seq<State>) {
    |conns| == |cfgs| && forall j :: 0 <= j < |conns| ==> Reachable(cfgs[j], conns[j])
  }

  // ----- One connection inside the system

  /** A write by somebody else is an intrusion that every connection admits. */
  lemma NoticeReachable(cfg: Config, st: State, addr: nat, data: seq<u8>)
    requires Reachable(cfg, st) && addr + |data| <= |st.s.mem|
    ensures Reachable(cfg, Notice(st, Some((addr, data))))
  {
    ReachableExtends(cfg, st, Intrude(addr, data));
  }

  /** The server's memory changes by placements and intrusions only. */
  lemma MemoryByPlacement(cfg: Config, st: State, a: Action)
    requires Enabled(cfg, st, a) && !a.Intrude?
    ensures Effect(cfg, st, a).s.mem == match Placement(st, a)
                                        case None => st.s.mem
                                        case Some((addr, data)) => Splice(st.s.mem, addr, data)
  {
    if a.ClientRuns? {
      if Connecting(st.client.pc) { ConnectsQuietly(cfg, st); } else { WorksQuietly(cfg, st); }
    } else if a.ServerRuns? {
      if Accepting(st.server.pc) { AcceptsQuietly(cfg, st); } else { LoopsQuietly(st); }
    } else if a.DeliverToServer? || a.LoseAckClient? {
      DeliveryPlaces(cfg, st, a.DeliverToServer?);
    } else {
      OthersPlaceNothing(cfg, st, a);
    }
  }

  lemma DeliveryPlaces(cfg: Config, st: State, acked: bool)
    requires ToServerEnabled(cfg, st)
    ensures ToServer(cfg, st, acked).s.mem ==
            if st.c.sq[0].wr.WrWrite? && st.c.sq[0].payload.Some?
            then Splice(st.s.mem, st.c.sq[0].wr.raddr, st.c.sq[0].payload.value) else st.s.mem
    ensures ToServer(cfg, st, acked).server == st.server
  {
  }

  lemma OthersPlaceNothing(cfg: Config, st: State, a: Action)
    requires Enabled(cfg, st, a) && !a.ClientRuns? && !a.ServerRuns? && !a.DeliverToServer? && !a.LoseAckClient? && !a.Intrude?
    ensures Effect(cfg, st, a).s.mem == st.s.mem
    ensures Effect(cfg, st, a).server == st.server || a.ServerIsRefused? || a.ServerPollFails?
  {
    if a.ClientIsRefused? || a.ClientPollFails? {
      TroublePlacesNothing(st);
    } else if a.DeliverToClient? || a.LoseAckServer? {
      ReplyPlacesNothing(cfg, st, a.DeliverToClient?);
    }
  }

  lemma TroublePlacesNothing(st: State)
    ensures ClientRefusable(st) ==> ClientRefused(st).s == st.s && ClientRefused(st).server == st.server
    ensures ClientPolling(st) ==> ClientBadPoll(st).s == st.s && ClientBadPoll(st).server == st.server
  {
  }

  lemma ReplyPlacesNothing(cfg: Config, st: State, acked: bool)
    requires ToClientEnabled(cfg, st)
    ensures ToClient(cfg, st, acked).s.mem == st.s.mem && ToClient(cfg, st, acked).server == st.server
  {
  }

  lemma PlacementFits(cfg: Config, st: State, a: Action)
    requires Enabled(cfg, st, a) && ValidConfig(cfg) && |st.s.mem| == |cfg.serverMem|
    ensures Placement(st, a).Some? ==> Placement(st, a).value.0 + |Placement(st, a).value.1| <= |st.s.mem|
  {
  }

  lemma {:induction false} RunMemorySize(cfg: Config, st: State, acts: seq<Action>, end: State)
    requires Run(cfg, st, acts, end)
    ensures |end.s.mem| == |st.s.mem|
    decreases |acts|
  {
    if acts != [] {
      if !acts[0].Intrude? {
        MemoryByPlacement(cfg, st, acts[0]);
      }
      RunMemorySize(cfg, Effect(cfg, st, acts[0]), acts[1..], end);
    }
  }

  lemma ReachableMemorySize(cfg: Config, st: State)
    requires Reachable(cfg, st)
    ensures ValidConfig(cfg) && |st.s.mem| == |cfg.serverMem|
  {
    var acts :| Run(cfg, Init(cfg), acts, st);
    RunMemorySize(cfg, Init(cfg), acts, st);
  }

  /** What an action does to the part of the server program that concerns the window. */
  lemma ServerPart(cfg: Config, st: State, a: Action)
    requires Enabled(cfg, st, a)
    ensures var t := Effect(cfg, st, a).server;
            t.recorded == st.server.recorded + (if Adding(st, a) then [st.server.note.reqId.value] else [])
            && (InLock(t.pc) <==> if a.ServerRuns? then st.server.pc.SLock? || st.server.pc.SAdd? else InLock(st.server.pc))
            && (t.pc.SEvict? <==> Adding(st, a) || (!a.ServerRuns? && st.server.pc.SEvict?))
  {
    if a.ClientRuns? {
      if Connecting(st.client.pc) { ConnectsQuietly(cfg, st); } else { WorksQuietly(cfg, st); }
    } else if a.ServerRuns? {
      if Accepting(st.server.pc) { AcceptPart(cfg, st); } else { LoopPart(st); }
    } else if a.DeliverToServer? || a.LoseAckClient? {
      DeliveryPlaces(cfg, st, a.DeliverToServer?);
    } else if !a.Intrude? {
      OthersPlaceNothing(cfg, st, a);
    }
  }

  lemma AcceptPart(cfg: Config, st: State)
    requires ServerEnabled(st) && Accepting(st.server.pc)
    ensures AcceptStep(cfg, st).server.recorded == st.server.recorded
    ensures !InLock(AcceptStep(cfg, st).server.pc)
  {
    if st.server.pc.SStage? || st.server.pc.SPostTable? {
      TablePart(cfg, st);
    }
  }

  lemma TablePart(cfg: Config, st: State)
    requires st.server.pc.SStage? || st.server.pc.SPostTable?
    ensures AcceptStep(cfg, st).server.recorded == st.server.recorded
    ensures !InLock(AcceptStep(cfg, st).server.pc)
  {
  }

  lemma LoopPart(st: State)
    requires ServerEnabled(st) && !Accepting(st.server.pc)
    ensures var t := LoopStep(st).server;
            t.recorded == st.server.recorded
                          + (if st.server.pc.SAdd? && st.server.note.reqId.Some? then [st.server.note.reqId.value] else [])
            && (InLock(t.pc) <==> st.server.pc.SLock? || st.server.pc.SAdd?)
            && (t.pc.SEvict? <==> st.server.pc.SAdd? && st.server.note.reqId.Some?)
  {
  }

  // ----- Every step of the system

  lemma StepKeepsMemory(cfgs: seq<Config>, cap: nat, sys: System, b: SystemAction)
    requires ValidSystem(cfgs, cap) && EachReachable(cfgs, sys.conns) && SameMemory(sys.conns) && SystemEnabled(cfgs, sys, b)
    ensures SameMemory(SystemEffect(cfgs, sys, b).conns)
  {
    if b.On? {
      MemoryByPlacement(cfgs[b.i], sys.conns[b.i], b.a);
      var w := Placement(sys.conns[b.i], b.a);
      var mem := sys.conns[b.i].s.mem;
      var after := match w case None => mem case Some((addr, data)) => Splice(mem, addr, data);
      var t := SystemEffect(cfgs, sys, b);
      forall j | 0 <= j < |cfgs|
        ensures t.conns[j].s.mem == after
      {
        assert sys.conns[j].s.mem == mem;
      }
    }
  }

  lemma StepKeepsReachable(cfgs: seq<Config>, cap: nat, sys: System, b: SystemAction)
    requires ValidSystem(cfgs, cap) && EachReachable(cfgs, sys.conns) && SameMemory(sys.conns) && SystemEnabled(cfgs, sys, b)
    ensures EachReachable(cfgs, SystemEffect(cfgs, sys, b).conns)
  {
    var t := SystemEffect(cfgs, sys, b);
    forall j | 0 <= j < |cfgs|
      ensures Reachable(cfgs[j], t.conns[j])
    {
      match b
      case On(i, a) =>
        var w := Placement(sys.conns[i], a);
        if j == i {
          ReachableExtends(cfgs[i], sys.conns[i], a);
        } else if w.Some? {
          ReachableMemorySize(cfgs[i], sys.conns[i]);
          PlacementFits(cfgs[i], sys.conns[i], a);
          assert sys.conns[j].s.mem == sys.conns[i].s.mem;
          NoticeReachable(cfgs[j], sys.conns[j], w.value.0, w.value.1);
        }
      case Write(addr, data) =>
        NoticeReachable(cfgs[j], sys.conns[j], addr, data);
    }
  }

  lemma HistoryNext(h: seq<(nat, ReqId)>, i: nat, id: ReqId)
    ensures Ids(h + [(i, id)]) == Ids(h) + [id]
    ensures forall j: nat :: StreamOf(h + [(i, id)], j) == StreamOf(h, j) + if j == i then [id] else []
  {
    assert (h + [(i, id)])[..|h|] == h;
  }

  /** The ids that an action on connection `i` adds to the stream of connection `j`. */
  function Added(sys: System, b: SystemAction, j: nat): seq<ReqId>
    requires b.On? ==> b.i < |sys.conns|
  {
    if b.On? && b.i == j && Adding(sys.conns[b.i], b.a) then [sys.conns[b.i].server.note.reqId.value] else []
  }

  lemma RecordedMoves(cfgs: seq<Config>, sys: System, b: SystemAction, j: nat)
    requires SystemEnabled(cfgs, sys, b) && j < |cfgs|
    ensures var t := SystemEffect(cfgs, sys, b);
            |t.conns| == |cfgs| && t.conns[j].server.recorded == sys.conns[j].server.recorded + Added(sys, b, j)
  {
    if b.On? && b.i == j {
      ServerPart(cfgs[j], sys.conns[j], b.a);
    }
  }

  lemma HistoryMoves(cfgs: seq<Config>, sys: System, b: SystemAction, j: nat)
    requires SystemEnabled(cfgs, sys, b) && j < |cfgs|
    ensures StreamOf(SystemEffect(cfgs, sys, b).history, j) == StreamOf(sys.history, j) + Added(sys, b, j)
  {
    if b.On? && Adding(sys.conns[b.i], b.a) {
      HistoryNext(sys.history, b.i, sys.conns[b.i].server.note.reqId.value);
    } else {
      assert StreamOf(sys.history, j) + [] == StreamOf(sys.history, j);
    }
  }

  lemma StepKeepsStreams(cfgs: seq<Config>, sys: System, b: SystemAction)
    requires Streams(sys.conns, sys.history) && SystemEnabled(cfgs, sys, b)
    ensures Streams(SystemEffect(cfgs, sys, b).conns, SystemEffect(cfgs, sys, b).history)
  {
    var conns, history := SystemEffect(cfgs, sys, b).conns, SystemEffect(cfgs, sys, b).history;
    assert |conns| == |cfgs|;
    forall j | 0 <= j < |conns|
      ensures StreamOf(history, j) == conns[j].server.recorded
    {
      RecordedMoves(cfgs, sys, b, j);
      HistoryMoves(cfgs, sys, b, j);
    }
  }

  lemma LockKeeps(pcs: seq<ServerPc>, win: Window, h: seq<(nat, ReqId)>, cap: nat, i: nat)
    requires SharedWindow(pcs, win, Option.None, h, cap) && i < |pcs|
    ensures SharedWindow(pcs[i := SAdd], win, Some(i), h, cap)
  {
  }

  lemma AddKeeps(pcs: seq<ServerPc>, win: Window, holder: Option<nat>, h: seq<(nat, ReqId)>, cap: nat, i: nat, id: ReqId)
    requires SharedWindow(pcs, win, holder, h, cap) && i < |pcs| && pcs[i].SAdd?
    ensures SharedWindow(pcs[i := SEvict], Add(win, id), holder, h + [(i, id)], cap)
  {
    assert (h + [(i, id)])[..|h|] == h;
    assert holder == Some(i);
  }

  lemma UnlockKeeps(pcs: seq<ServerPc>, win: Window, holder: Option<nat>, h: seq<(nat, ReqId)>, cap: nat, i: nat)
    requires SharedWindow(pcs, win, holder, h, cap) && i < |pcs| && pcs[i].SEvict?
    ensures SharedWindow(pcs[i := SPostRecv], if Full(win) then Evict(win) else win, Option.None, h, cap)
  {
    assert holder == Some(i);
    var n := |h| - 1;
    assert h == h[..n] + [(h[n].0, h[n].1)];
    HistoryNext(h[..n], h[n].0, h[n].1);
    RoundsAppend(New(cap), Ids(h[..n]), h[n].1);
  }

  lemma IdleKeeps(pcs: seq<ServerPc>, win: Window, holder: Option<nat>, h: seq<(nat, ReqId)>, cap: nat, i: nat, pc: ServerPc)
    requires SharedWindow(pcs, win, holder, h, cap) && i < |pcs|
    requires (InLock(pc) <==> InLock(pcs[i])) && (pc.SEvict? <==> pcs[i].SEvict?)
    ensures SharedWindow(pcs[i := pc], win, holder, h, cap)
  {
  }

  /** The program counters of the connections move only at the connection that acts. */
  lemma PcsMove(cfgs: seq<Config>, sys: System, b: SystemAction)
    requires SystemEnabled(cfgs, sys, b)
    ensures Pcs(SystemEffect(cfgs, sys, b).conns) ==
            if b.On? then Pcs(sys.conns)[b.i := Effect(cfgs[b.i], sys.conns[b.i], b.a).server.pc] else Pcs(sys.conns)
  {
  }

  /** The critical steps of the loop. */
  lemma CriticalSteps(cfg: Config, st: State, a: Action)
    requires Enabled(cfg, st, a)
    ensures Locking(st, a) ==> Effect(cfg, st, a).server.pc == SAdd
    ensures Unlocking(st, a) ==> Effect(cfg, st, a).server.pc == SPostRecv
    ensures Adding(st, a) ==> Effect(cfg, st, a).server.pc == SEvict
  {
  }

  lemma StepKeepsWindow(cfgs: seq<Config>, cap: nat, sys: System, b: SystemAction)
    requires SharedWindow(Pcs(sys.conns), sys.win, sys.holder, sys.history, cap) && SystemEnabled(cfgs, sys, b)
    ensures var t := SystemEffect(cfgs, sys, b); SharedWindow(Pcs(t.conns), t.win, t.holder, t.history, cap)
  {
    PcsMove(cfgs, sys, b);
    if b.On? {
      var st, pcs := sys.conns[b.i], Pcs(sys.conns);
      ServerPart(cfgs[b.i], st, b.a);
      CriticalSteps(cfgs[b.i], st, b.a);
      if Locking(st, b.a) {
        LockKeeps(pcs, sys.win, sys.history, cap, b.i);
      } else if Adding(st, b.a) {
        AddKeeps(pcs, sys.win, sys.holder, sys.history, cap, b.i, st.server.note.reqId.value);
      } else if Unlocking(st, b.a) {
        UnlockKeeps(pcs, sys.win, sys.holder, sys.history, cap, b.i);
      } else {
        IdleKeeps(pcs, sys.win, sys.holder, sys.history, cap, b.i, Effect(cfgs[b.i], st, b.a).server.pc);
      }
    }
  }

  // ----- Every run of the system

  ghost predicate SystemInv(cfgs: seq<Config>, cap: nat, sys: System) {
    EachReachable(cfgs, sys.conns) && SameMemory(sys.conns) && Streams(sys.conns, sys.history)
    && SharedWindow(Pcs(sys.conns), sys.win, sys.holder, sys.history, cap)
  }

  lemma InitSystemInv(cfgs: seq<Config>, cap: nat)
    requires ValidSystem(cfgs, cap)
    ensures SystemInv(cfgs, cap, InitSystem(cfgs, cap))
  {
    var sys := InitSystem(cfgs, cap);
    forall j | 0 <= j < |cfgs|
      ensures Reachable(cfgs[j], sys.conns[j])
    {
      assert Run(cfgs[j], Init(cfgs[j]), [], Init(cfgs[j]));
    }
  }

  lemma {:induction false} SystemRunKeeps(cfgs: seq<Config>, cap: nat, sys: System, acts: seq<SystemAction>, end: System)
    requires ValidSystem(cfgs, cap) && SystemInv(cfgs, cap, sys) && SystemRun(cfgs, sys, acts, end)
    ensures SystemInv(cfgs, cap, end)
    decreases |acts|
  {
    if acts != [] {
      StepKeepsMemory(cfgs, cap, sys, acts[0]);
      StepKeepsReachable(cfgs, cap, sys, acts[0]);
      StepKeepsStreams(cfgs, sys, acts[0]);
      StepKeepsWindow(cfgs, cap, sys, acts[0]);
      SystemRunKeeps(cfgs, cap, SystemEffect(cfgs, sys, acts[0]), acts[1..], end);
    }
  }

  lemma SystemReachableInv(cfgs: seq<Config>, cap: nat, sys: System)
    requires SystemReachable(cfgs, cap, sys)
    ensures SystemInv(cfgs, cap, sys)
  {
    var acts :| SystemRun(cfgs, InitSystem(cfgs, cap), acts, sys);
    InitSystemInv(cfgs, cap);
    SystemRunKeeps(cfgs, cap, InitSystem(cfgs, cap), acts, sys);
  }

  // ----- What the server's callers can rely on

  /** However the connections interleave, the window seen between critical sections is that of one
      history in which the ids of each connection keep their order: the queue is the most recent part of
      it, and nobody ever sees an addition without its eviction. */
  lemma Linearised(cfgs: seq<Config>, cap: nat, sys: System)
    requires SystemReachable(cfgs, cap, sys)
    ensures forall j :: 0 <= j < |sys.conns| ==> StreamOf(sys.history, j) == sys.conns[j].server.recorded
    ensures sys.holder.None? ==>
              sys.win == Rounds(New(cap), Ids(sys.history)) && sys.win.fifo == Last(Ids(sys.history), cap - 1) && sys.win.cap == cap
    ensures forall i, j :: 0 <= i < j < |sys.conns| ==> !InLock(sys.conns[i].server.pc) || !InLock(sys.conns[j].server.pc)
  {
    SystemReachableInv(cfgs, cap, sys);
    WindowQueue(cap, Ids(sys.history));
  }

  /** What `is_complete` answers on the server. */
  predicate ServerReports(sys: System, id: ReqId) {
    sys.holder.None? && id in sys.win.ids
  }

  /** Exactly what the server reports: while nobody holds the lock, the ids of which no copy was evicted since
      they were last added, by whichever connection. The lock is held exactly while some connection is at its
      addition or at the eviction that follows, and then nothing is reported. */
  lemma ServerReportsIff(cfgs: seq<Config>, cap: nat, sys: System, id: ReqId)
    requires SystemReachable(cfgs, cap, sys)
    ensures ServerReports(sys, id) <==> sys.holder.None? && Reported(Ids(sys.history), cap - 1, id)
    ensures sys.holder.Some? <==> exists j :: 0 <= j < |sys.conns| && (sys.conns[j].server.pc.SAdd? || sys.conns[j].server.pc.SEvict?)
  {
    SystemReachableInv(cfgs, cap, sys);
    WindowExact(cap, Ids(sys.history), id);
    LockedIff(Pcs(sys.conns), sys.win, sys.holder, sys.history, cap);
    if pc :| pc in Pcs(sys.conns) && InLock(pc) {
      var j :| 0 <= j < |sys.conns| && Pcs(sys.conns)[j] == pc;
      assert sys.conns[j].server.pc == pc;
    }
  }

  lemma LockedIff(pcs: seq<ServerPc>, win: Window, holder: Option<nat>, history: seq<(nat, ReqId)>, cap: nat)
    requires SharedWindow(pcs, win, holder, history, cap)
    ensures holder.Some? <==> exists pc :: pc in pcs && InLock(pc)
  {
    if holder.Some? {
      assert pcs[holder.value] in pcs;
    }
  }

  lemma {:induction false} AddedBySome(h: seq<(nat, ReqId)>, id: ReqId) returns (i: nat)
    requires id in Ids(h)
    ensures id in StreamOf(h, i) && exists k :: 0 <= k < |h| && h[k].0 == i
  {
    var n := |h| - 1;
    if h[n].1 == id {
      i := h[n].0;
    } else {
      i := AddedBySome(h[..n], id);
      var k :| 0 <= k < n && h[..n][k].0 == i;
      assert h[k].0 == i;
    }
  }

  predicate FromConnections(h: seq<(nat, ReqId)>, n: nat) {
    forall k :: 0 <= k < |h| ==> h[k].0 < n
  }

  lemma {:induction false} HistoryFrom(cfgs: seq<Config>, sys: System, acts: seq<SystemAction>, end: System)
    requires FromConnections(sys.history, |cfgs|) && SystemRun(cfgs, sys, acts, end)
    ensures FromConnections(end.history, |cfgs|)
    decreases |acts|
  {
    if acts != [] {
      HistoryFrom(cfgs, SystemEffect(cfgs, sys, acts[0]), acts[1..], end);
    }
  }

  /** End to end: when the server reports an id, it is one of the last `cap - 1` of the history, and it was
      in a notification that the server has returned for some connection. Before the message behind it had
      arrived, every earlier transfer of that connection's client had taken effect, unless its own post was
      refused, whatever has failed there or elsewhere. And if that connection's worker has not gone on after
      a failed poll, the message is that of a `Complete` for the id. */
  lemma ServerCompletionMeansData(cfgs: seq<Config>, cap: nat, sys: System, id: ReqId) returns (i: nat, n: nat, p: nat, q: nat)
    requires SystemReachable(cfgs, cap, sys) && ServerReports(sys, id)
    ensures id in Last(Ids(sys.history), cap - 1)
    ensures i < |cfgs| == |sys.conns| && n < |sys.conns[i].server.returned| && sys.conns[i].server.returned[n].reqId == Some(id)
    ensures n < |SignalAt(sys.conns[i].journal)| && SignalAt(sys.conns[i].journal)[n] == p
    ensures AfterAllData(cfgs[i], sys.conns[i], p, q)
    ensures !sys.conns[i].pollFailed ==> CompletedAfterData(cfgs[i], sys.conns[i], id, p, q)
  {
    SystemReachableInv(cfgs, cap, sys);
    ReportedIsRecent(cap, Ids(sys.history), id);
    i := AddedBySome(sys.history, id);
    var acts :| SystemRun(cfgs, InitSystem(cfgs, cap), acts, sys);
    HistoryFrom(cfgs, InitSystem(cfgs, cap), acts, sys);
    var stream := sys.conns[i].server.recorded;
    assert StreamOf(sys.history, i) == stream;
    var m :| 0 <= m < |stream| && stream[m] == id;
    n, p, q := RecordedAfterData(cfgs[i], sys.conns[i], m);
  }
}
