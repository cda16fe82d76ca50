/** The two programs once they are connected, as the sequential code they are: the client's worker over
    its channel of commands and the server's loop over its arrivals. */
module Endpoints {
  import opened Bytes
  import opened Wrappers
  import opened Codec
  import opened ImmWord
  import opened MemBuffers
  import opened Registration
  import opened Completion
  import opened Commands
  import opened Protocol

  /** What becomes of a request: its post is refused, it completes, or the call that polls for it fails and
      leaves it on the queue. In the last two cases it may have taken effect. */
  datatype Verdict = Refuse | Succeed | Fail(landed: bool) | BadPoll(landed: bool)

  predicate Lands(v: Verdict) {
    v.Succeed? || ((v.Fail? || v.BadPoll?) && v.landed)
  }

  /** A completed receive at the server with the payload that came with it. */
  datatype Arrival = Arrival(ok: bool, immediate: bool, word: u32, payload: seq<u8>)

  /** The access checks of a request pass. */
  predicate Permitted(cfg: Config, wr: WorkRequest) {
    match wr
    case WrHello(_) => true
    case WrImm(raddr, rkey, _) => raddr == cfg.serverCpu.basePtr && rkey == cfg.serverCpu.rkey
    case WrWrite(mr, laddr, len, raddr, rkey) => Covers(mr, laddr, len) && RemoteAllowed(cfg.serverBufs, rkey, raddr, len)
    case WrRead(mr, laddr, len, raddr, rkey) => Covers(mr, laddr, len) && RemoteAllowed(cfg.serverBufs, rkey, raddr, len)
  }

  /** What a request does to the memories once its checks have passed. */
  function Performed(wr: WorkRequest, m: Memories): (r: Memories)
    ensures |r.client| == |m.client| && |r.server| == |m.server|
  {
    match wr
    case WrWrite(_, laddr, len, raddr, _) => m.(server := Splice(m.server, raddr, Slice(m.client, laddr, len)))
    case WrRead(_, laddr, len, raddr, _) => m.(client := Splice(m.client, laddr, Slice(m.server, raddr, len)))
    case _ => m
  }

  /** What arrives at the server when a request takes effect. */
  function Delivered(cfg: Config, wr: WorkRequest, buf: seq<u8>): seq<Arrival> {
    if wr.WrImm? then [Arrival(true, true, Received(cfg.clientOrder, cfg.serverOrder, wr.imm), buf)] else []
  }

  /** The outcome of a request, given its verdict. */
  function OutcomeFor(cfg: Config, wr: WorkRequest, v: Verdict): Outcome {
    if v.Refuse? then Refused
    else if v.Succeed? && Permitted(cfg, wr) then Ok
    else Failed(Lands(v) && Permitted(cfg, wr))
  }

  /** The outcome of a command, given the verdict on its request. */
  function OutcomeOf(cfg: Config, cmd: Command, v: Verdict): Outcome {
    if !Message(cmd) && !Transfer(cmd) then Skipped
    else if v.Refuse? then Refused
    else
      var permitted := Message(cmd) || Allowed(cfg, cmd);
      if v.Succeed? && permitted then Ok else Failed(Lands(v) && permitted)
  }

  /** An outcome in terms of the command's own fields: exactly a `Send` or `Recv` of no bytes is skipped, exactly
      a refused post of any other command is refused, and Ok is a completion with success of a message or
      of a transfer whose blocks are in range; only those can take effect. */
  ghost predicate Fits(cfg: Config, cmd: Command, v: Verdict, o: Outcome) {
    var inRange := (cmd.Send? || cmd.Recv?) ==> LocalInRange(cfg, cmd) && RemoteInRange(cfg, cmd);
    (o.Skipped? <==> (cmd.Send? || cmd.Recv?) && cmd.local.size == 0)
    && (o.Refused? <==> !o.Skipped? && v.Refuse?)
    && (o.Ok? <==> !o.Skipped? && v.Succeed? && inRange)
    && (o.Failed? ==> (o.landed <==> (v.Fail? || v.BadPoll?) && v.landed && inRange))
  }

  lemma OutcomeFits(cfg: Config, cmd: Command, v: Verdict)
    ensures Fits(cfg, cmd, v, OutcomeOf(cfg, cmd, v))
    ensures (cmd.Send? || cmd.Recv?) && Landed(OutcomeOf(cfg, cmd, v)) ==> Allowed(cfg, cmd)
  {
    if cmd.Send? || cmd.Recv? {
      AllowedIff(cfg, cmd);
    }
  }

  lemma UnworkableMeans(cfg: Config, cmd: Command)
    ensures Unworkable(cfg, cmd) <==> (Message(cmd) && !FitsBuffer(cmd)) || (Transfer(cmd) && !Resolvable(cfg, cmd))
  {
    if cmd.Send? || cmd.Recv? {
      ResolvableIff(cfg, cmd);
    }
  }

  /** What a command leaves on the queue: its request, if the poll for it failed. */
  function Leaves(cfg: Config, cmd: Command, v: Verdict): seq<WorkRequest> {
    if v.BadPoll? && (Message(cmd) || (Transfer(cmd) && Resolvable(cfg, cmd)))
    then [RequestFor(cfg, cfg.serverCpu, RemoteOf(cfg.serverBufs), cmd)] else []
  }

  /** The client's queue pair, with the far end as the client can tell it: both GPU memories and what has
      arrived in the server's CPU buffer. */
  class QueuePair {
    const cfg: Config
    var sq: seq<WorkRequest>
    var mem: Memories
    var arrivals: seq<Arrival>
    var up: bool

    constructor (cfg: Config)
      ensures this.cfg == cfg && sq == [] && mem == Memories(cfg.clientMem, cfg.serverMem) && arrivals == [] && up
    {
      this.cfg := cfg;
      sq, mem, arrivals, up := [], Memories(cfg.clientMem, cfg.serverMem), [], true;
    }

    ghost predicate Valid()
      reads this
    {
      ValidConfig(cfg) && Sized(cfg, mem)
    }

    /** `ibv_post_send`. */
    method PostSend(wr: WorkRequest, v: Verdict) returns (ok: bool)
      modifies this`sq
      ensures ok <==> !v.Refuse?
      ensures sq == if ok then old(sq) + [wr] else old(sq)
    {
      ok := !v.Refuse?;
      if ok {
        sq := sq + [wr];
      }
    }

    /** `ibv_poll_cq` on the send queue: the oldest request completes, after its effect if it has one; or
        the call fails, and the request stays. */
    method PollSend(buf: MemBuffer, v: Verdict) returns (ok: bool)
      requires Valid() && buf.Valid() && sq != []
      modifies this`sq, this`mem, this`arrivals
      ensures sq == (if v.BadPoll? then old(sq) else old(sq)[1..]) && Valid()
      ensures ok <==> v.Succeed? && Permitted(cfg, old(sq)[0])
      ensures var wr, effect := old(sq)[0], Lands(v) && Permitted(cfg, old(sq)[0]);
              mem == (if effect then Performed(wr, old(mem)) else old(mem))
              && arrivals == old(arrivals) + if effect then Delivered(cfg, wr, buf.buffer[..]) else []
    {
      var wr := sq[0];
      if !v.BadPoll? {
        sq := sq[1..];
      }
      ok := v.Succeed? && Permitted(cfg, wr);
      if Lands(v) && Permitted(cfg, wr) {
        mem := Performed(wr, mem);
        arrivals := arrivals + Delivered(cfg, wr, buf.buffer[..]);
      }
    }

    /** `rdma_disconnect`. */
    method Hangup(granted: bool) returns (ok: bool)
      modifies this`up
      ensures ok == granted && up == (old(up) && !granted)
    {
      ok := granted;
      up := up && !granted;
    }
  }

  /** How the worker's loop stands: it waits for commands, its channel was closed, it disconnected, it
      panicked, or it goes on after a failed poll with that request still on the queue. */
  datatype WorkerEnd = Listening | ChannelClosed | Disconnected | Panicked | Astray

  /** An arrival carries a notification, whole, with its size in the word. */
  predicate Carries(a: Arrival, n: Notification) {
    a.ok && a.immediate && |a.payload| == CPU_BUFFER_BASE_SIZE
    && NotificationSize(n) <= CPU_BUFFER_BASE_SIZE && a.word == NotificationSize(n)
    && a.payload[..NotificationSize(n)] == EncodeNotification(n)
  }

  predicate CarryAll(arrivals: seq<Arrival>, ns: seq<Notification>) {
    |arrivals| == |ns| && forall i :: 0 <= i < |ns| ==> Carries(arrivals[i], ns[i])
  }

  /** The request of a transfer is checked and copies as the command says. */
  lemma RequestCopies(cfg: Config, cmd: Command, m: Memories)
    requires ValidConfig(cfg) && Sized(cfg, m) && Transfer(cmd) && Resolvable(cfg, cmd)
    ensures var wr := RequestFor(cfg, cfg.serverCpu, RemoteOf(cfg.serverBufs), cmd);
            (Permitted(cfg, wr) <==> Allowed(cfg, cmd))
            && (Allowed(cfg, cmd) ==> Performed(wr, m) == Copy(cfg, cmd, m)) && !wr.WrImm?
  {
    RemoteAgreesWithLocal(cfg.serverBufs);
  }

  /** What the loop works on: both memories, the window of completed ids, and what has arrived at the server. */
  datatype View = View(mem: Memories, win: Window, arrivals: seq<Arrival>)

  /** One command with this outcome takes the one view to the other. */
  predicate Takes(cfg: Config, cmd: Command, o: Outcome, from: View, to: View)
    requires ValidConfig(cfg) && Sized(cfg, from.mem)
  {
    to.mem == Step(cfg, cmd, o, from.mem)
    && to.win == (if cmd.Complete? then Round(from.win, cmd.reqId) else from.win)
    && if Message(cmd) && Landed(o)
       then |to.arrivals| == |from.arrivals| + 1 && to.arrivals[..|from.arrivals|] == from.arrivals
            && Carries(to.arrivals[|from.arrivals|], NoteOf(cmd))
       else to.arrivals == from.arrivals
  }

  /** Memories, window and arrivals are what the commands and outcomes so far make of them. */
  predicate Reflects(cfg: Config, w: Window, cmds: seq<Command>, outs: seq<Outcome>, now: View)
    requires |outs| <= |cmds| && ValidConfig(cfg)
  {
    now.mem == Fold(cfg, cmds, outs)
    && now.win == Rounds(w, CompletedIds(cmds[..|outs|]))
    && CarryAll(now.arrivals, LandedNotes(cmds, outs))
  }

  /** One more command. */
  lemma Advance(cfg: Config, w: Window, cmds: seq<Command>, outs: seq<Outcome>, o: Outcome, from: View, to: View)
    requires |outs| < |cmds| && ValidConfig(cfg)
    requires Reflects(cfg, w, cmds, outs, from) && Takes(cfg, cmds[|outs|], o, from, to)
    ensures Reflects(cfg, w, cmds, outs + [o], to)
  {
    AfterOne(cfg, cmds, outs, o);
    WindowAfter(w, cmds, |outs|);
    assert LandedNotes(cmds, outs) + [] == LandedNotes(cmds, outs);
  }

  /** The loop takes the next command after this one. */
  predicate Passes(cfg: Config, cmd: Command, v: Verdict) {
    !cmd.Disconnect? && Leaves(cfg, cmd, v) == []
  }

  predicate PassesAll(cfg: Config, cmds: seq<Command>, verdicts: seq<Verdict>, n: nat)
    requires n <= |cmds| && n <= |verdicts|
  {
    forall i :: 0 <= i < n ==> Passes(cfg, cmds[i], verdicts[i])
  }

  /** The loop has come as far as these outcomes and stands like this. */
  predicate Stands(cfg: Config, cmds: seq<Command>, verdicts: seq<Verdict>, granted: bool, outs: seq<Outcome>, end: WorkerEnd) {
    |outs| <= |cmds| && |outs| <= |verdicts|
    && (forall i :: 0 <= i < |outs| ==> outs[i] == OutcomeOf(cfg, cmds[i], verdicts[i]))
    && match end
       case Listening => PassesAll(cfg, cmds, verdicts, |outs|)
       case ChannelClosed => PassesAll(cfg, cmds, verdicts, |outs|) && |outs| == |cmds|
       case Astray =>
         outs != [] && PassesAll(cfg, cmds, verdicts, |outs| - 1)
         && !cmds[|outs| - 1].Disconnect? && Leaves(cfg, cmds[|outs| - 1], verdicts[|outs| - 1]) != []
       case Disconnected =>
         outs != [] && PassesAll(cfg, cmds, verdicts, |outs| - 1)
         && cmds[|outs| - 1].Disconnect? && outs[|outs| - 1].Ok? && granted
       case Panicked =>
         if outs != [] && cmds[|outs| - 1].Disconnect?
         then PassesAll(cfg, cmds, verdicts, |outs| - 1) && !(outs[|outs| - 1].Ok? && granted)
         else PassesAll(cfg, cmds, verdicts, |outs|) && |outs| < |cmds| && Unworkable(cfg, cmds[|outs|])
  }

  /** How the loop stands after a command it did not panic on beforehand. */
  function StandingAfter(cfg: Config, cmd: Command, v: Verdict, granted: bool): WorkerEnd {
    if cmd.Disconnect? then (if OutcomeOf(cfg, cmd, v).Ok? && granted then Disconnected else Panicked)
    else if Leaves(cfg, cmd, v) == [] then Listening else Astray
  }

  lemma StandsAfter(cfg: Config, cmds: seq<Command>, verdicts: seq<Verdict>, granted: bool, outs: seq<Outcome>)
    requires Stands(cfg, cmds, verdicts, granted, outs, Listening) && |outs| < |cmds| && |outs| < |verdicts|
    ensures var k := |outs|;
            Stands(cfg, cmds, verdicts, granted, outs + [OutcomeOf(cfg, cmds[k], verdicts[k])], StandingAfter(cfg, cmds[k], verdicts[k], granted))
  {
  }

  /** What is on the queue: the request of the last command, if its poll failed. */
  function LeftOver(cfg: Config, cmds: seq<Command>, verdicts: seq<Verdict>, n: nat): seq<WorkRequest>
    requires n <= |cmds| && n <= |verdicts|
  {
    if n == 0 then [] else Leaves(cfg, cmds[n - 1], verdicts[n - 1])
  }

  /** The client's worker: the CPU buffer, the shared window, the queue pair, and what `connect` returned. */
  class Worker {
    const buffer: MemBuffer
    const reqs: CompletionReqs
    const qp: QueuePair
    const peer: Connection
    const remote: map<u64, Connection>
    const local: map<u64, GpuBuffer>

    constructor (buffer: MemBuffer, reqs: CompletionReqs, qp: QueuePair, peer: Connection,
                 remote: map<u64, Connection>, local: map<u64, GpuBuffer>)
      ensures this.buffer == buffer && this.reqs == reqs && this.qp == qp && this.peer == peer
      ensures this.remote == remote && this.local == local
    {
      this.buffer, this.reqs, this.qp, this.peer, this.remote, this.local := buffer, reqs, qp, peer, remote, local;
    }

    ghost predicate Valid()
      reads qp
    {
      buffer.Valid() && qp.Valid() && peer == qp.cfg.serverCpu
      && remote == RemoteOf(qp.cfg.serverBufs) && local == LocalMap(qp.cfg.clientBufs)
    }

    ghost function Now(): View
      reads qp, reqs
    {
      View(qp.mem, reqs.Value(), qp.arrivals)
    }

    /** Post, then poll: the body that `write`, `read` and `write_metadata` share. A poll call that fails
        leaves the request on the queue. */
    method PostAndPoll(wr: WorkRequest, v: Verdict) returns (ok: bool)
      requires Valid() && qp.sq == []
      modifies qp`sq, qp`mem, qp`arrivals
      ensures Valid() && qp.sq == if v.BadPoll? then [wr] else []
      ensures ok <==> OutcomeFor(qp.cfg, wr, v).Ok?
      ensures var effect := Landed(OutcomeFor(qp.cfg, wr, v));
              qp.mem == (if effect then Performed(wr, old(qp.mem)) else old(qp.mem))
              && qp.arrivals == old(qp.arrivals) + if effect then Delivered(qp.cfg, wr, buffer.buffer[..]) else []
    {
      ok := qp.PostSend(wr, v);
      if ok {
        ok := qp.PollSend(buffer, v);
      }
    }

    /** `write_metadata` at offset 0 for a message that is already in the buffer. */
    method WriteMetadata(size: nat, ghost cmd: Command, v: Verdict) returns (ghost o: Outcome, ok: bool)
      requires Valid() && qp.sq == [] && Message(cmd) && FitsBuffer(cmd) && size == NotificationSize(NoteOf(cmd))
      requires buffer.buffer[..][..size] == EncodeNotification(NoteOf(cmd))
      modifies qp`sq, qp`mem, qp`arrivals
      ensures Valid() && qp.sq == Leaves(qp.cfg, cmd, v) && qp.mem == old(qp.mem)
      ensures o == OutcomeOf(qp.cfg, cmd, v) && (ok <==> o.Ok?)
      ensures if Landed(o)
              then |qp.arrivals| == |old(qp.arrivals)| + 1 && qp.arrivals[..|old(qp.arrivals)|] == old(qp.arrivals)
                   && Carries(qp.arrivals[|old(qp.arrivals)|], NoteOf(cmd))
              else qp.arrivals == old(qp.arrivals)
    {
      var word := Pack(0, TruncateToU16(size));
      SizeWordExact(qp.cfg.clientOrder, qp.cfg.serverOrder, 0, size);
      o := OutcomeOf(qp.cfg, cmd, v);
      ok := PostAndPoll(WrImm(peer.basePtr, peer.rkey, word), v);
    }

    /** `write` or `read` for a transfer whose blocks are known. */
    method Transfers(cmd: Command, v: Verdict) returns (ghost o: Outcome)
      requires Valid() && qp.sq == [] && Transfer(cmd) && Resolvable(qp.cfg, cmd)
      modifies qp`sq, qp`mem, qp`arrivals
      ensures Valid() && qp.sq == Leaves(qp.cfg, cmd, v) && qp.arrivals == old(qp.arrivals)
      ensures o == OutcomeOf(qp.cfg, cmd, v) && qp.mem == Step(qp.cfg, cmd, o, old(qp.mem))
      ensures Fits(qp.cfg, cmd, v, o) && Moves(cmd, o, old(qp.mem), qp.mem)
    {
      var mr, conn := local[cmd.local.base], remote[cmd.remote.base];
      var laddr, raddr := Address(cmd.local.base, cmd.local.offset), Address(conn.basePtr, cmd.remote.offset);
      RequestCopies(qp.cfg, cmd, qp.mem);
      o := OutcomeOf(qp.cfg, cmd, v);
      OutcomeFits(qp.cfg, cmd, v);
      StepMoves(qp.cfg, cmd, o, qp.mem);
      var ok;
      if cmd.Send? {
        ok := PostAndPoll(WrWrite(mr, laddr, cmd.local.size, raddr, conn.rkey), v);
      } else {
        ok := PostAndPoll(WrRead(mr, laddr, cmd.local.size, raddr, conn.rkey), v);
      }
    }

    /** One pass of the loop over a command that does not stop it. */
    method Execute(cmd: Command, v: Verdict) returns (ghost o: Outcome)
      requires Valid() && qp.sq == [] && !cmd.Disconnect? && !Unworkable(qp.cfg, cmd)
      modifies qp`sq, qp`mem, qp`arrivals, reqs, buffer.buffer
      ensures Valid() && qp.sq == Leaves(qp.cfg, cmd, v)
      ensures o == OutcomeOf(qp.cfg, cmd, v) && Takes(qp.cfg, cmd, o, old(Now()), Now())
      ensures Fits(qp.cfg, cmd, v, o) && Moves(cmd, o, old(qp.mem), qp.mem)
    {
      o := Skipped;
      OutcomeFits(qp.cfg, cmd, v);
      StepMoves(qp.cfg, cmd, OutcomeOf(qp.cfg, cmd, v), qp.mem);
      if cmd.Complete? {
        UnworkableMeans(qp.cfg, cmd);
        NotificationLayout(NoteOf(cmd));
        var fits := buffer.SerializeNotification(NoteOf(cmd));
        reqs.Record(cmd.reqId);
        var ok;
        o, ok := WriteMetadata(NotificationSize(NoteOf(cmd)), cmd, v);
      } else if cmd.local.size > 0 {
        UnworkableMeans(qp.cfg, cmd);
        o := Transfers(cmd, v);
      }
    }

    /** `disconnect`: the shutdown message, and once that has completed the hang-up. The caller panics
        unless both go well. */
    method Stop(v: Verdict, granted: bool) returns (ghost o: Outcome, ok: bool)
      requires Valid() && qp.sq == []
      modifies qp, buffer.buffer
      ensures Valid() && qp.sq == Leaves(qp.cfg, Disconnect, v)
      ensures o == OutcomeOf(qp.cfg, Disconnect, v) && Takes(qp.cfg, Disconnect, o, old(Now()), Now())
      ensures (ok <==> o.Ok? && granted) && qp.up == (old(qp.up) && !ok)
    {
      NotificationLayout(ShutdownNotification);
      var fits := buffer.SerializeNotification(ShutdownNotification);
      o, ok := WriteMetadata(NotificationSize(ShutdownNotification), Disconnect, v);
      if ok {
        ok := qp.Hangup(granted);
      }
    }

    /** A command that is not panicked on beforehand is carried out. */
    method CarryOut(cmd: Command, v: Verdict, granted: bool) returns (ghost o: Outcome, end: WorkerEnd)
      requires Valid() && qp.sq == [] && !Unworkable(qp.cfg, cmd)
      modifies qp, reqs, buffer.buffer
      ensures Valid() && qp.sq == Leaves(qp.cfg, cmd, v) && end == StandingAfter(qp.cfg, cmd, v, granted)
      ensures o == OutcomeOf(qp.cfg, cmd, v) && Takes(qp.cfg, cmd, o, old(Now()), Now())
      ensures qp.up == (old(qp.up) && !end.Disconnected?)
    {
      if cmd.Disconnect? {
        var ok;
        o, ok := Stop(v, granted);
        end := if ok then Disconnected else Panicked;
      } else {
        o := Execute(cmd, v);
        end := if qp.sq == [] then Listening else Astray;
      }
    }

    /** Between two passes: where the loop stands, what is on the queue, and what it has made of the commands. */
    ghost predicate InLoop(w: Window, cmds: seq<Command>, verdicts: seq<Verdict>, granted: bool, outs: seq<Outcome>, end: WorkerEnd)
      reads qp, reqs
    {
      Valid() && !end.ChannelClosed? && Stands(qp.cfg, cmds, verdicts, granted, outs, end)
      && qp.sq == LeftOver(qp.cfg, cmds, verdicts, |outs|) && Reflects(qp.cfg, w, cmds, outs, Now())
    }

    /** One pass of the loop: a command is looked up, and carried out or panicked on. */
    method Pass(ghost w: Window, cmds: seq<Command>, verdicts: seq<Verdict>, granted: bool, ghost outs: seq<Outcome>, k: nat)
      returns (ghost next: seq<Outcome>, end: WorkerEnd)
      requires InLoop(w, cmds, verdicts, granted, outs, Listening) && |outs| == k < |cmds| && k < |verdicts|
      modifies qp, reqs, buffer.buffer
      ensures InLoop(w, cmds, verdicts, granted, next, end)
      ensures outs <= next && |next| <= k + 1 && (end.Listening? ==> |next| == k + 1)
      ensures qp.up == (old(qp.up) && !end.Disconnected?)
    {
      var cmd := cmds[k];
      next := outs;
      ghost var from, o := Now(), Skipped;
      UnworkableMeans(qp.cfg, cmd);
      if (Transfer(cmd) && !(cmd.remote.base in remote && cmd.local.base in local))
         || (cmd.Complete? && NotificationSize(NoteOf(cmd)) > CPU_BUFFER_BASE_SIZE) {
        end := Panicked;
        return;
      }
      o, end := CarryOut(cmd, verdicts[k], granted);
      next := outs + [o];
      StandsAfter(qp.cfg, cmds, verdicts, granted, outs);
      Advance(qp.cfg, w, cmds, outs, o, from, Now());
    }

    ghost predicate AtCommand(w: Window, cmds: seq<Command>, verdicts: seq<Verdict>, granted: bool, outs: seq<Outcome>, k: nat, end: WorkerEnd)
      reads qp, reqs
    {
      InLoop(w, cmds, verdicts, granted, outs, end) && k <= |cmds| && (end.Listening? ==> |outs| == k)
    }

    /** A turn: the next command, if there is one and the loop is still on. */
    method Turn(ghost w: Window, cmds: seq<Command>, verdicts: seq<Verdict>, granted: bool, ghost outs: seq<Outcome>, k: nat, end: WorkerEnd)
      returns (ghost next: seq<Outcome>, at: nat, state: WorkerEnd)
      requires AtCommand(w, cmds, verdicts, granted, outs, k, end) && |verdicts| >= |cmds|
      modifies qp, reqs, buffer.buffer
      ensures AtCommand(w, cmds, verdicts, granted, next, at, state) && outs <= next
      ensures end.Listening? && k < |cmds| ==> at == k + 1
      ensures qp.up == (old(qp.up) && (state.Disconnected? ==> end.Disconnected?))
    {
      next, at, state := outs, k, end;
      if end.Listening? && k < |cmds| {
        next, state := Pass(w, cmds, verdicts, granted, outs, k);
        at := k + 1;
      }
    }

    /** The worker's loop over everything its channel delivers, up to the first poll call that fails.
        Whatever the verdicts, the memories are the fold of slice copies over the commands and their
        outcomes, the window holds the completed ids, and the server has received exactly the messages
        that took effect, whole and in order. */
    method Run(cmds: seq<Command>, verdicts: seq<Verdict>, granted: bool) returns (ghost outs: seq<Outcome>, end: WorkerEnd)
      requires Valid() && qp.sq == [] && |verdicts| >= |cmds|
      requires qp.mem == Memories(qp.cfg.clientMem, qp.cfg.serverMem) && qp.arrivals == []
      modifies qp, reqs, buffer.buffer
      ensures Valid() && !end.Listening? && Stands(qp.cfg, cmds, verdicts, granted, outs, end)
      ensures qp.mem == Fold(qp.cfg, cmds, outs)
      ensures reqs.Value() == Rounds(old(reqs.Value()), CompletedIds(cmds[..|outs|]))
      ensures CarryAll(qp.arrivals, LandedNotes(cmds, outs))
      ensures qp.sq == LeftOver(qp.cfg, cmds, verdicts, |outs|)
      ensures qp.up == (old(qp.up) && !end.Disconnected?)
    {
      ghost var w := reqs.Value();
      outs, end := [], Listening;
      var k := 0;
      while k < |cmds| && end.Listening?
        invariant qp.up == (old(qp.up) && !end.Disconnected?)
        invariant AtCommand(w, cmds, verdicts, granted, outs, k, end)
        decreases |cmds| - k
      {
        outs, k, end := Turn(w, cmds, verdicts, granted, outs, k, end);
      }
      if end.Listening? {
        end := ChannelClosed;
      }
    }
  }

  lemma AfterOne(cfg: Config, cmds: seq<Command>, outs: seq<Outcome>, o: Outcome)
    requires ValidConfig(cfg) && |outs| < |cmds|
    ensures Fold(cfg, cmds, outs + [o]) == Step(cfg, cmds[|outs|], o, Fold(cfg, cmds, outs))
    ensures LandedNotes(cmds, outs + [o]) ==
            LandedNotes(cmds, outs) + if Message(cmds[|outs|]) && Landed(o) then [NoteOf(cmds[|outs|])] else []
  {
    assert (outs + [o])[..|outs|] == outs;
  }

  lemma WindowAfter(w: Window, cmds: seq<Command>, k: nat)
    requires k < |cmds|
    ensures Rounds(w, CompletedIds(cmds[..k + 1])) ==
            if cmds[k].Complete? then Round(Rounds(w, CompletedIds(cmds[..k])), cmds[k].reqId)
            else Rounds(w, CompletedIds(cmds[..k]))
  {
    assert cmds[..k + 1][..k] == cmds[..k];
    var h := CompletedIds(cmds[..k]);
    if cmds[k].Complete? {
      assert (h + [cmds[k].reqId])[..|h|] == h;
    } else {
      assert h + [] == h;
    }
  }

  // ----- The server's loop

  /** What `handle_notification` makes of an arrival. */
  function Meaning(a: Arrival): Result<Notification, ServeError> {
    if !a.ok then Failure(BadCompletion)
    else if !a.immediate then Success(DefaultNotification)
    else if a.word > CPU_BUFFER_BASE_SIZE || |a.payload| != CPU_BUFFER_BASE_SIZE then Failure(BadSlice)
    else match DecodeNotification(a.payload[..a.word])
         case Success(n) => Success(n)
         case Failure(e) => Failure(BadMessage(e))
  }

  datatype ServeError = NotPosted | NotPolled | BadCompletion | BadSlice | BadMessage(cause: DecodeError)

  /** What becomes of one receive: its post is refused, the poll for it fails, or it completes. */
  datatype Reception = PostRefused | PollFailed | Arrived(arrival: Arrival)

  /** What `handle_notification` returns. */
  function Handled(rec: Reception): Result<Notification, ServeError> {
    match rec
    case PostRefused => Failure(NotPosted)
    case PollFailed => Failure(NotPolled)
    case Arrived(a) => Meaning(a)
  }

  /** A payload fills the buffer. */
  predicate Placeable(rec: Reception) {
    rec.Arrived? ==> |rec.arrival.payload| == CPU_BUFFER_BASE_SIZE
  }

  /** How the loop ended: on a shutdown message, on a failed notification, or still waiting. */
  datatype ServeEnd = Told | Crashed | Waiting

  /** What a receive brings, in terms of its own fields: it was posted, polled and completed with success, and
      either carried no immediate, or its word is at most 4096 and so many bytes of the payload start with
      the encoding of `n`. */
  predicate Brought(rec: Reception, n: Notification) {
    rec.Arrived? && rec.arrival.ok
    && if rec.arrival.immediate
       then rec.arrival.word <= 4096 && rec.arrival.word <= |rec.arrival.payload|
            && EncodeNotification(n) <= rec.arrival.payload[..rec.arrival.word]
       else n == Notification(0, None)
  }

  /** A notification comes back exactly when it was brought; everything else is an error. */
  lemma HandledIff(rec: Reception, n: Notification)
    requires Placeable(rec)
    ensures Handled(rec) == Success(n) <==> Brought(rec, n)
  {
    if rec.Arrived? && rec.arrival.ok && rec.arrival.immediate && rec.arrival.word <= 4096 {
      var s := rec.arrival.payload[..rec.arrival.word];
      if EncodeNotification(n) <= s {
        NotificationLayout(n);
        DecodeNotificationExact(s, n);
      }
      if DecodeNotification(s) == Success(n) {
        EncodingOfDecoded(s);
      }
    }
  }

  lemma CarriesMeans(a: Arrival, n: Notification)
    requires Carries(a, n)
    ensures Meaning(a) == Success(n)
  {
    NotificationLayout(n);
    DecodeNotificationExact(a.payload[..a.word], n);
  }

  class Server {
    const buffer: MemBuffer
    const reqs: CompletionReqs
    var posted: nat

    constructor (buffer: MemBuffer, reqs: CompletionReqs)
      ensures this.buffer == buffer && this.reqs == reqs && posted == 0
    {
      this.buffer, this.reqs, this.posted := buffer, reqs, 0;
    }

    /** `handle_notification`: post a receive, poll for it, and decode the first `word` bytes of what
        landed in the buffer. Nothing stays posted unless the poll fails. */
    method HandleNotification(rec: Reception) returns (r: Result<Notification, ServeError>)
      requires buffer.Valid() && Placeable(rec) && posted == 0
      modifies this`posted, buffer.buffer
      ensures r == Handled(rec)
      ensures forall n :: r == Success(n) <==> Brought(rec, n)
      ensures (r == Failure(NotPosted) <==> rec.PostRefused?) && (r == Failure(NotPolled) <==> rec.PollFailed?)
      ensures r == Failure(BadCompletion) <==> rec.Arrived? && !rec.arrival.ok
      ensures r == Failure(BadSlice) <==> rec.Arrived? && rec.arrival.ok && rec.arrival.immediate && rec.arrival.word > 4096
      ensures posted == if rec.PollFailed? then 1 else 0
    {
      forall n
        ensures Handled(rec) == Success(n) <==> Brought(rec, n)
      {
        HandledIff(rec, n);
      }
      if rec.PostRefused? { return Failure(NotPosted); }
      posted := posted + 1;
      if rec.PollFailed? { return Failure(NotPolled); }
      var a := rec.arrival;
      posted := posted - 1;
      if !a.ok { return Failure(BadCompletion); }
      if !a.immediate { return Success(DefaultNotification); }
      buffer.Place(a.payload);
      var decoded := buffer.DeserializeNotification(a.word);
      match decoded
      case Success(n) => r := Success(n);
      case Failure(SliceOutOfRange) => r := Failure(BadSlice);
      case Failure(Undecodable(e)) => r := Failure(BadMessage(e));
    }

    /** One pass of the loop of one connection. */
    method Next(rec: Reception) returns (r: Result<Notification, ServeError>)
      requires buffer.Valid() && Placeable(rec) && posted == 0
      modifies this`posted, buffer.buffer, reqs
      ensures r == Handled(rec) && (r.Success? ==> posted == 0)
      ensures reqs.Value() == if r.Success? then Noted(old(reqs.Value()), r.value) else old(reqs.Value())
    {
      r := HandleNotification(rec);
      if r.Success? && r.value.done == 0 && r.value.reqId.Some? {
        reqs.Record(r.value.reqId.value);
      }
    }

    /** A turn at what has arrived, none of which goes wrong: the next message, if there is one and the
        loop is still on. */
    method Turn(arrivals: seq<Arrival>, ghost ns: seq<Notification>, returned: seq<Notification>, end: ServeEnd, ghost w: Window)
      returns (next: seq<Notification>, state: ServeEnd)
      requires buffer.Valid() && posted == 0 && CarryAll(arrivals, ns) && StopsLast(ns) && Served(ns, returned, end)
      requires reqs.Value() == Rounds(w, IdsOf(returned))
      modifies this`posted, buffer.buffer, reqs
      ensures posted == 0 && reqs.Value() == Rounds(w, IdsOf(next))
      ensures Served(ns, next, state) && (next == ns || |next| == |returned| + 1)
    {
      next, state := returned, end;
      if end.Waiting? && |returned| < |arrivals| {
        ServesNext(arrivals, ns, returned);
        var r := Next(Arrived(arrivals[|returned|]));
        IdsAfter(w, returned, r.value);
        next := returned + [r.value];
        state := if r.value.done > 0 then Told else Waiting;
      }
    }

    /** The loop of one connection over everything that arrives on it. */
    method Serve(recs: seq<Reception>) returns (returned: seq<Notification>, end: ServeEnd)
      requires buffer.Valid() && posted == 0 && forall i :: 0 <= i < |recs| ==> Placeable(recs[i])
      modifies this`posted, buffer.buffer, reqs
      ensures Handles(recs, returned) && StopsLast(returned)
      ensures forall i :: 0 <= i < |returned| ==> Brought(recs[i], returned[i])
      ensures reqs.Value() == Rounds(old(reqs.Value()), IdsOf(returned))
      ensures match end
              case Told => returned != [] && returned[|returned| - 1].done > 0
              case Crashed => |returned| < |recs| && forall n :: !Brought(recs[|returned|], n)
              case Waiting => |returned| == |recs| && (returned != [] ==> returned[|returned| - 1].done == 0)
    {
      returned := [];
      forall rec, n | Placeable(rec)
        ensures Handled(rec) == Success(n) <==> Brought(rec, n)
      {
        HandledIff(rec, n);
      }
      while |returned| < |recs|
        invariant posted == 0 && Handles(recs, returned) && NoneStops(returned)
        invariant reqs.Value() == Rounds(old(reqs.Value()), IdsOf(returned))
        decreases |recs| - |returned|
      {
        var r := Next(recs[|returned|]);
        if r.Failure? {
          end := Crashed;
          return;
        }
        IdsAfter(old(reqs.Value()), returned, r.value);
        HandlesNext(recs, returned, r.value);
        returned := returned + [r.value];
        if r.value.done > 0 {
          end := Told;
          return;
        }
      }
      end := Waiting;
    }
  }

  /** The notifications are what the first of these receives bring. */
  predicate Handles(recs: seq<Reception>, returned: seq<Notification>) {
    |returned| <= |recs| && forall i :: 0 <= i < |returned| ==> Handled(recs[i]) == Success(returned[i])
  }

  predicate NoneStops(ns: seq<Notification>) {
    forall i :: 0 <= i < |ns| ==> ns[i].done == 0
  }

  /** No message but the last stops the server. */
  predicate StopsLast(ns: seq<Notification>) {
    forall i :: 0 <= i < |ns| - 1 ==> ns[i].done == 0
  }

  lemma HandlesNext(recs: seq<Reception>, returned: seq<Notification>, n: Notification)
    requires Handles(recs, returned) && NoneStops(returned) && |returned| < |recs| && Handled(recs[|returned|]) == Success(n)
    ensures Handles(recs, returned + [n]) && StopsLast(returned + [n]) && (n.done == 0 ==> NoneStops(returned + [n]))
  {
  }

  /** The window after one more notification. */
  function Noted(w: Window, n: Notification): Window {
    if n.done == 0 && n.reqId.Some? then Round(w, n.reqId.value) else w
  }

  lemma IdsAfter(w: Window, ns: seq<Notification>, n: Notification)
    ensures Rounds(w, IdsOf(ns + [n])) == Noted(Rounds(w, IdsOf(ns)), n)
  {
    assert (ns + [n])[..|ns|] == ns;
    var h := IdsOf(ns);
    if n.done == 0 && n.reqId.Some? {
      assert (h + [n.reqId.value])[..|h|] == h;
    } else {
      assert h + [] == h;
    }
  }

  // ----- Both ends together

  /** Only the last landed message can be the shutdown message, since the worker stops there. */
  lemma {:induction false} OnlyLastStops(cmds: seq<Command>, outs: seq<Outcome>)
    requires |outs| <= |cmds| && forall i :: 0 <= i < |outs| - 1 ==> !cmds[i].Disconnect?
    ensures StopsLast(LandedNotes(cmds, outs))
    ensures outs != [] && !cmds[|outs| - 1].Disconnect? ==> forall n :: n in LandedNotes(cmds, outs) ==> n.done == 0
  {
    if outs != [] {
      OnlyLastStops(cmds, outs[..|outs| - 1]);
    }
  }

  /** How many turns the server has had since the worker's last. */
  function TurnsSince(turns: seq<bool>): nat {
    if turns == [] || turns[|turns| - 1] then 0 else 1 + TurnsSince(turns[..|turns| - 1])
  }

  lemma OneMoreTurn(turns: seq<bool>, i: nat)
    requires i < |turns|
    ensures TurnsSince(turns[..i + 1]) == if turns[i] then 0 else 1 + TurnsSince(turns[..i])
  {
    assert turns[..i + 1][..i] == turns[..i];
  }

  lemma StandsStopsLast(cfg: Config, cmds: seq<Command>, verdicts: seq<Verdict>, granted: bool, outs: seq<Outcome>, end: WorkerEnd)
    requires Stands(cfg, cmds, verdicts, granted, outs, end)
    ensures StopsLast(LandedNotes(cmds, outs))
  {
    OnlyLastStops(cmds, outs);
  }

  /** The server has returned the first messages, and has stopped if one of them told it to. */
  predicate Served(ns: seq<Notification>, returned: seq<Notification>, end: ServeEnd) {
    returned <= ns && end == if returned != [] && returned[|returned| - 1].done > 0 then Told else Waiting
  }

  /** The next message in turn is the next that the server returns. */
  lemma ServesNext(arrivals: seq<Arrival>, ns: seq<Notification>, returned: seq<Notification>)
    requires CarryAll(arrivals, ns) && returned <= ns && |returned| < |arrivals|
    ensures Handled(Arrived(arrivals[|returned|])) == Success(ns[|returned|]) && Placeable(Arrived(arrivals[|returned|]))
    ensures returned + [ns[|returned|]] <= ns
  {
    CarriesMeans(arrivals[|returned|], ns[|returned|]);
  }

  /** A further command adds at most a message at the end. */
  lemma {:induction false} LandedNotesGrow(cmds: seq<Command>, outs: seq<Outcome>, next: seq<Outcome>)
    requires outs <= next && |next| <= |cmds|
    ensures LandedNotes(cmds, outs) <= LandedNotes(cmds, next)
    decreases |next|
  {
    if outs != next {
      LandedNotesGrow(cmds, outs, next[..|next| - 1]);
    } else {
      assert LandedNotes(cmds, outs) == LandedNotes(cmds, next);
    }
  }

  lemma StillServed(cmds: seq<Command>, outs: seq<Outcome>, next: seq<Outcome>, returned: seq<Notification>, end: ServeEnd)
    requires outs <= next && |next| <= |cmds| && Served(LandedNotes(cmds, outs), returned, end)
    ensures Served(LandedNotes(cmds, next), returned, end)
  {
    LandedNotesGrow(cmds, outs, next);
  }

  /** What a session is about: the channel's commands, and what becomes of their requests and of the hang-up. */
  datatype Script = Script(cmds: seq<Command>, verdicts: seq<Verdict>, granted: bool)

  /** The windows the two programs begin with. */
  datatype Windows = Windows(client: Window, server: Window)

  /** How far the two programs have come. */
  datatype Standing = Standing(k: nat, worker: WorkerEnd, returned: seq<Notification>, server: ServeEnd)

  /** Between two turns of a session. */
  ghost predicate BetweenTurns(worker: Worker, server: Server, script: Script, wins: Windows, outs: seq<Outcome>, s: Standing)
    reads worker.qp, worker.reqs, server, server.reqs
  {
    worker.AtCommand(wins.client, script.cmds, script.verdicts, script.granted, outs, s.k, s.worker)
    && |script.verdicts| >= |script.cmds|
    && server.buffer.Valid() && server.posted == 0
    && server.reqs.Value() == Rounds(wins.server, IdsOf(s.returned))
    && Served(LandedNotes(script.cmds, outs), s.returned, s.server)
  }

  predicate Apart(worker: Worker, server: Server) {
    server.buffer.buffer != worker.buffer.buffer && server.reqs != worker.reqs
  }

  method WorkersTurn(worker: Worker, server: Server, script: Script, ghost wins: Windows, ghost outs: seq<Outcome>, s: Standing)
    returns (ghost next: seq<Outcome>, t: Standing)
    requires Apart(worker, server) && BetweenTurns(worker, server, script, wins, outs, s)
    modifies worker.qp, worker.reqs, worker.buffer.buffer
    ensures BetweenTurns(worker, server, script, wins, next, t)
  {
    var k, end;
    next, k, end := worker.Turn(wins.client, script.cmds, script.verdicts, script.granted, outs, s.k, s.worker);
    StillServed(script.cmds, outs, next, s.returned, s.server);
    t := s.(k := k, worker := end);
  }

  method ServersTurn(worker: Worker, server: Server, script: Script, ghost wins: Windows, ghost outs: seq<Outcome>, s: Standing) returns (t: Standing)
    requires Apart(worker, server) && BetweenTurns(worker, server, script, wins, outs, s)
    modifies server`posted, server.buffer.buffer, server.reqs
    ensures BetweenTurns(worker, server, script, wins, outs, t)
    ensures t.returned == LandedNotes(script.cmds, outs) || |t.returned| == |s.returned| + 1
  {
    StandsStopsLast(worker.qp.cfg, script.cmds, script.verdicts, script.granted, outs, s.worker);
    var returned, end := server.Turn(worker.qp.arrivals, LandedNotes(script.cmds, outs), s.returned, s.server, wins.server);
    t := s.(returned := returned, server := end);
  }

  /** The loop of a session. */
  method Alternate(worker: Worker, server: Server, script: Script, ghost wins: Windows, turns: seq<bool>)
    returns (ghost outs: seq<Outcome>, s: Standing)
    requires Apart(worker, server) && BetweenTurns(worker, server, script, wins, [], Standing(0, Listening, [], Waiting))
    modifies worker.qp, worker.reqs, worker.buffer.buffer, server`posted, server.buffer.buffer, server.reqs
    ensures BetweenTurns(worker, server, script, wins, outs, s)
    ensures s.returned == LandedNotes(script.cmds, outs) || |s.returned| >= TurnsSince(turns)
  {
    outs, s := [], Standing(0, Listening, [], Waiting);
    for i := 0 to |turns|
      invariant BetweenTurns(worker, server, script, wins, outs, s)
      invariant s.returned == LandedNotes(script.cmds, outs) || |s.returned| >= TurnsSince(turns[..i])
    {
      OneMoreTurn(turns, i);
      if turns[i] {
        outs, s := WorkersTurn(worker, server, script, wins, outs, s);
      } else {
        s := ServersTurn(worker, server, script, wins, outs, s);
      }
    }
    assert turns[..|turns|] == turns;
  }

  /** A whole session, for any order in which the two programs take their turns: the worker runs its
      commands, and the server works through what has arrived. At every moment the server has returned the
      first of the messages that took effect and recorded their ids in order; it has returned all of them
      once it has had as many turns as there are messages. */
  method Session(worker: Worker, server: Server, cmds: seq<Command>, verdicts: seq<Verdict>, granted: bool, turns: seq<bool>)
    returns (ghost outs: seq<Outcome>, returned: seq<Notification>, workerEnd: WorkerEnd, end: ServeEnd)
    requires worker.Valid() && worker.qp.sq == [] && |verdicts| >= |cmds|
    requires worker.qp.mem == Memories(worker.qp.cfg.clientMem, worker.qp.cfg.serverMem) && worker.qp.arrivals == []
    requires server.buffer.Valid() && server.posted == 0 && Apart(worker, server)
    modifies worker.qp, worker.reqs, worker.buffer.buffer, server`posted, server.buffer.buffer, server.reqs
    ensures Stands(worker.qp.cfg, cmds, verdicts, granted, outs, workerEnd)
    ensures worker.qp.mem == Fold(worker.qp.cfg, cmds, outs)
    ensures worker.reqs.Value() == Rounds(old(worker.reqs.Value()), CompletedIds(cmds[..|outs|]))
    ensures Served(LandedNotes(cmds, outs), returned, end)
    ensures server.reqs.Value() == Rounds(old(server.reqs.Value()), IdsOf(returned))
    ensures TurnsSince(turns) >= |LandedNotes(cmds, outs)| ==> returned == LandedNotes(cmds, outs)
  {
    var s;
    outs, s := Alternate(worker, server, Script(cmds, verdicts, granted), Windows(worker.reqs.Value(), server.reqs.Value()), turns);
    returned, workerEnd, end := s.returned, s.worker, s.server;
  }
}
