/** The commands of the client's worker and what they mean: a fold of slice copies over the two
    GPU memories, a list of messages, and a list of completed request ids. */
module Commands {
  import opened Bytes
  import opened Wrappers
  import opened Codec
  import opened ImmWord
  import opened MemBuffers
  import opened Registration
  import opened Completion

  datatype TensorBlock = TensorBlock(base: u64, offset: u64, size: u32)

  datatype Command =
    | Send(local: TensorBlock, remote: TensorBlock)
    | Recv(local: TensorBlock, remote: TensorBlock)
    | Complete(reqId: ReqId)
    | Disconnect

  /** The two hosts: the CPU buffer of each as the other addresses it, the GPU buffers each has
      registered, the GPU memories at the start, the byte orders, and the capacity of the completion windows. */
  datatype Config = Config(
    clientCpu: Connection, serverCpu: Connection,
    clientBufs: seq<GpuBuffer>, serverBufs: seq<GpuBuffer>,
    clientMem: seq<u8>, serverMem: seq<u8>,
    clientOrder: ByteOrder, serverOrder: ByteOrder,
    cap: nat)

  predicate InMemory(bufs: seq<GpuBuffer>, mem: seq<u8>) {
    forall i :: 0 <= i < |bufs| ==> bufs[i].base + bufs[i].size <= |mem|
  }

  predicate ValidConfig(cfg: Config) {
    InMemory(cfg.clientBufs, cfg.clientMem) && InMemory(cfg.serverBufs, cfg.serverMem) && cfg.cap >= 1
  }

  /** The table fits the 4096-byte buffer: at most 340 server buffers. */
  predicate TableFits(cfg: Config) {
    8 + 12 * |cfg.serverBufs| <= CPU_BUFFER_BASE_SIZE
  }

  // ----- Messages

  /** `Complete` and `Disconnect` send a message. */
  predicate Message(cmd: Command) {
    cmd.Complete? || cmd.Disconnect?
  }

  function NoteOf(cmd: Command): Notification {
    if cmd.Complete? then Notification(0, Some(cmd.reqId)) else ShutdownNotification
  }

  predicate FitsBuffer(cmd: Command) {
    NotificationSize(NoteOf(cmd)) <= CPU_BUFFER_BASE_SIZE
  }

  // ----- Transfers

  predicate Moving(cmd: Command) {
    cmd.Send? || cmd.Recv?
  }

  /** A transfer of a block of size zero is skipped before anything is looked up. */
  predicate Transfer(cmd: Command) {
    Moving(cmd) && cmd.local.size > 0
  }

  /** Both blocks name a known buffer; the worker panics otherwise. */
  predicate Resolvable(cfg: Config, cmd: Command)
    requires Moving(cmd)
  {
    cmd.remote.base in RemoteOf(cfg.serverBufs) && cmd.local.base in LocalMap(cfg.clientBufs)
  }

  /** 64-bit address arithmetic, which wraps. */
  function Address(base: u64, offset: u64): u64 {
    (base + offset) % 0x1_0000_0000_0000_0000
  }

  function LocalAddress(cmd: Command): u64
    requires Moving(cmd)
  {
    Address(cmd.local.base, cmd.local.offset)
  }

  function RemoteAddress(cmd: Command): u64
    requires Moving(cmd)
  {
    Address(cmd.remote.base, cmd.remote.offset)
  }

  predicate Covers(b: GpuBuffer, addr: nat, len: nat) {
    b.base <= addr && addr + len <= b.base + b.size
  }

  /** The adapter's check of a remote access: some registration has the key and contains the range. */
  predicate RemoteAllowed(bufs: seq<GpuBuffer>, rkey: u32, addr: nat, len: nat) {
    exists i :: 0 <= i < |bufs| && bufs[i].rkey == rkey && Covers(bufs[i], addr, len)
  }

  /** Every access check of the transfer passes. */
  predicate Allowed(cfg: Config, cmd: Command)
    requires Moving(cmd)
  {
    Resolvable(cfg, cmd)
    && Covers(LocalMap(cfg.clientBufs)[cmd.local.base], LocalAddress(cmd), cmd.local.size)
    && RemoteAllowed(cfg.serverBufs, RemoteOf(cfg.serverBufs)[cmd.remote.base].rkey, RemoteAddress(cmd), cmd.local.size)
  }

  lemma AllowedInMemory(cfg: Config, cmd: Command)
    requires ValidConfig(cfg) && Moving(cmd) && Allowed(cfg, cmd)
    ensures LocalAddress(cmd) + cmd.local.size <= |cfg.clientMem|
    ensures RemoteAddress(cmd) + cmd.local.size <= |cfg.serverMem|
  {
    LocalMapLastWins(cfg.clientBufs, cmd.local.base);
  }

  datatype Memories = Memories(client: seq<u8>, server: seq<u8>)

  predicate Sized(cfg: Config, m: Memories) {
    |m.client| == |cfg.clientMem| && |m.server| == |cfg.serverMem|
  }

  /** The copy a transfer performs: local base + offset, remote base + offset, local size. */
  function Copy(cfg: Config, cmd: Command, m: Memories): (r: Memories)
    requires ValidConfig(cfg) && Moving(cmd) && Allowed(cfg, cmd) && Sized(cfg, m)
    ensures Sized(cfg, r)
  {
    var l, r, n := LocalAddress(cmd), RemoteAddress(cmd), cmd.local.size;
    if cmd.Send? then m.(server := Splice(m.server, r, Slice(m.client, l, n)))
    else m.(client := Splice(m.client, l, Slice(m.server, r, n)))
  }

  // ----- Outcomes

  /** How a command ended. `Failed(landed)` is a completion with an error status; whether the
      operation had taken effect by then is not visible to the program. */
  datatype Outcome = Skipped | Refused | Failed(landed: bool) | Ok

  predicate Landed(o: Outcome) {
    o.Ok? || (o.Failed? && o.landed)
  }

  function Step(cfg: Config, cmd: Command, o: Outcome, m: Memories): (r: Memories)
    requires ValidConfig(cfg) && Sized(cfg, m)
    ensures Sized(cfg, r)
  {
    if Transfer(cmd) && Landed(o) && Allowed(cfg, cmd) then Copy(cfg, cmd, m) else m
  }

  /** The two memories after the commands whose outcomes are given. */
  function Fold(cfg: Config, cmds: seq<Command>, outs: seq<Outcome>): (m: Memories)
    requires ValidConfig(cfg) && |outs| <= |cmds|
    ensures Sized(cfg, m)
  {
    if outs == [] then Memories(cfg.clientMem, cfg.serverMem) else
      var n := |outs| - 1;
      Step(cfg, cmds[n], outs[n], Fold(cfg, cmds, outs[..n]))
  }

  /** The request ids of the `Complete` commands, in order. */
  function CompletedIds(cmds: seq<Command>): seq<ReqId> {
    if cmds == [] then [] else
      var n := |cmds| - 1;
      CompletedIds(cmds[..n]) + if cmds[n].Complete? then [cmds[n].reqId] else []
  }

  /** The positions of the commands that took effect: transfers and messages, in order. */
  function LandedAt(outs: seq<Outcome>): seq<nat> {
    if outs == [] then [] else
      var n := |outs| - 1;
      LandedAt(outs[..n]) + if Landed(outs[n]) then [n] else []
  }

  /** The messages that took effect, in order. */
  function LandedNotes(cmds: seq<Command>, outs: seq<Outcome>): seq<Notification>
    requires |outs| <= |cmds|
  {
    if outs == [] then [] else
      var n := |outs| - 1;
      LandedNotes(cmds, outs[..n]) + if Message(cmds[n]) && Landed(outs[n]) then [NoteOf(cmds[n])] else []
  }

  /** The messages of all the commands, in order. */
  function Notes(cmds: seq<Command>): seq<Notification> {
    if cmds == [] then [] else
      var n := |cmds| - 1;
      Notes(cmds[..n]) + if Message(cmds[n]) then [NoteOf(cmds[n])] else []
  }

  /** The ids that a list of notifications asks to record. */
  function IdsOf(ns: seq<Notification>): seq<ReqId> {
    if ns == [] then [] else
      var n := ns[|ns| - 1];
      IdsOf(ns[..|ns| - 1]) + if n.done == 0 && n.reqId.Some? then [n.reqId.value] else []
  }

  /** Only what follows the given commands depends on commands added later. */
  lemma {:induction false} FoldIgnoresLater(cfg: Config, cmds: seq<Command>, more: seq<Command>, outs: seq<Outcome>)
    requires ValidConfig(cfg) && |outs| <= |cmds|
    ensures Fold(cfg, cmds + more, outs) == Fold(cfg, cmds, outs)
  {
    if outs == [] {
    } else {
      FoldIgnoresLater(cfg, cmds, more, outs[..|outs| - 1]);
    }
  }

  // ----- What the fold means

  /** A command that reaches byte `b` of the server's memory. */
  predicate WritesServer(cmd: Command, o: Outcome, b: nat) {
    cmd.Send? && Landed(o)
    && var to := (cmd.remote.base + cmd.remote.offset) % 0x1_0000_0000_0000_0000; to <= b < to + cmd.local.size
  }

  predicate WritesClient(cmd: Command, o: Outcome, b: nat) {
    cmd.Recv? && Landed(o)
    && var to := (cmd.local.base + cmd.local.offset) % 0x1_0000_0000_0000_0000; to <= b < to + cmd.local.size
  }

  /** `n` bytes at `from` of `source` are at `to` of `after`, which is otherwise `before`. */
  predicate Placed(source: seq<u8>, from: nat, before: seq<u8>, after: seq<u8>, to: nat, n: nat) {
    from + n <= |source| && to + n <= |before| == |after|
    && forall b :: 0 <= b < |before| ==> after[b] == if to <= b < to + n then source[from + (b - to)] else before[b]
  }

  /** What a command does to the memories, in terms of its own fields: a landed `Send` or `Recv` of at least
      one byte moves `local.size` bytes from base plus offset of the one block to base plus offset of the
      other, sums modulo 2^64, and nothing else changes anything. */
  predicate Moves(cmd: Command, o: Outcome, m: Memories, t: Memories) {
    if (cmd.Send? || cmd.Recv?) && cmd.local.size > 0 && (o.Ok? || (o.Failed? && o.landed)) then
      var l := (cmd.local.base + cmd.local.offset) % 0x1_0000_0000_0000_0000;
      var r := (cmd.remote.base + cmd.remote.offset) % 0x1_0000_0000_0000_0000;
      if cmd.Send? then t.client == m.client && Placed(m.client, l, m.server, t.server, r, cmd.local.size)
      else t.server == m.server && Placed(m.server, r, m.client, t.client, l, cmd.local.size)
    else t == m
  }

  lemma SplicePlaces(source: seq<u8>, from: nat, m: seq<u8>, to: nat, n: nat)
    requires from + n <= |source| && to + n <= |m|
    ensures Placed(source, from, m, Splice(m, to, Slice(source, from, n)), to, n)
  {
  }

  /** One step of the fold, in those terms. */
  lemma StepMoves(cfg: Config, cmd: Command, o: Outcome, m: Memories)
    requires ValidConfig(cfg) && Sized(cfg, m)
    requires (cmd.Send? || cmd.Recv?) && cmd.local.size > 0 && Landed(o) ==> Allowed(cfg, cmd)
    ensures Moves(cmd, o, m, Step(cfg, cmd, o, m))
  {
    if (cmd.Send? || cmd.Recv?) && cmd.local.size > 0 && Landed(o) {
      CopyMoves(cfg, cmd, o, m);
    }
  }

  lemma CopyMoves(cfg: Config, cmd: Command, o: Outcome, m: Memories)
    requires ValidConfig(cfg) && Sized(cfg, m) && (cmd.Send? || cmd.Recv?) && cmd.local.size > 0 && Landed(o) && Allowed(cfg, cmd)
    ensures Moves(cmd, o, m, Copy(cfg, cmd, m))
  {
    AllowedInMemory(cfg, cmd);
    var l, r, n := LocalAddress(cmd), RemoteAddress(cmd), cmd.local.size;
    if cmd.Send? {
      SplicePlaces(m.client, l, m.server, r, n);
    } else {
      SplicePlaces(m.server, r, m.client, l, n);
    }
  }

  // ----- What passes the checks

  /** The last of the buffers registered at this base address. */
  predicate LastAtBase(bufs: seq<GpuBuffer>, i: nat, base: u64) {
    i < |bufs| && bufs[i].base == base && forall x :: i < x < |bufs| ==> bufs[x].base != base
  }

  predicate InBuffer(b: GpuBuffer, base: u64, offset: u64, size: nat) {
    var at := (base + offset) % 0x1_0000_0000_0000_0000;
    b.base <= at && at + size <= b.base + b.size
  }

  /** The local block lies in the client's last buffer at its base. */
  ghost predicate LocalInRange(cfg: Config, cmd: Command)
    requires cmd.Send? || cmd.Recv?
  {
    exists i: nat :: LastAtBase(cfg.clientBufs, i, cmd.local.base)
                && InBuffer(cfg.clientBufs[i], cmd.local.base, cmd.local.offset, cmd.local.size)
  }

  /** As many bytes from base plus offset of the remote block on lie in some buffer of the server that has
      the key of the last one at that base. */
  ghost predicate RemoteInRange(cfg: Config, cmd: Command)
    requires cmd.Send? || cmd.Recv?
  {
    exists i: nat, j :: LastAtBase(cfg.serverBufs, i, cmd.remote.base) && 0 <= j < |cfg.serverBufs|
                   && cfg.serverBufs[j].rkey == cfg.serverBufs[i].rkey
                   && InBuffer(cfg.serverBufs[j], cmd.remote.base, cmd.remote.offset, cmd.local.size)
  }

  /** Some buffer is registered at this base address. */
  predicate Registered(bufs: seq<GpuBuffer>, base: u64) {
    exists i :: 0 <= i < |bufs| && bufs[i].base == base
  }

  /** The worker panics on a message that does not fit the buffer and on a transfer of at least one byte
      with a block at a base address where nothing is registered. */
  predicate Unworkable(cfg: Config, cmd: Command) {
    (cmd.Complete? && 13 + |cmd.reqId| > 4096)
    || ((cmd.Send? || cmd.Recv?) && cmd.local.size > 0
        && !(Registered(cfg.clientBufs, cmd.local.base) && Registered(cfg.serverBufs, cmd.remote.base)))
  }

  /** The worker finds both blocks if and only if some buffer is registered at the base of each. */
  lemma ResolvableIff(cfg: Config, cmd: Command)
    requires cmd.Send? || cmd.Recv?
    ensures Resolvable(cfg, cmd) <==> Registered(cfg.clientBufs, cmd.local.base) && Registered(cfg.serverBufs, cmd.remote.base)
  {
    LocalMapLastWins(cfg.clientBufs, cmd.local.base);
    LocalMapLastWins(cfg.serverBufs, cmd.remote.base);
    RemoteAgreesWithLocal(cfg.serverBufs);
  }

  /** A transfer passes every check if and only if both its blocks are in range. */
  lemma AllowedIff(cfg: Config, cmd: Command)
    requires cmd.Send? || cmd.Recv?
    ensures Allowed(cfg, cmd) <==> LocalInRange(cfg, cmd) && RemoteInRange(cfg, cmd)
  {
    if LocalInRange(cfg, cmd) && RemoteInRange(cfg, cmd) {
      InRangeIsAllowed(cfg, cmd);
    }
    if Allowed(cfg, cmd) {
      AllowedIsInRange(cfg, cmd);
    }
  }

  lemma InRangeIsAllowed(cfg: Config, cmd: Command)
    requires (cmd.Send? || cmd.Recv?) && LocalInRange(cfg, cmd) && RemoteInRange(cfg, cmd)
    ensures Allowed(cfg, cmd)
  {
    var i: nat :| LastAtBase(cfg.clientBufs, i, cmd.local.base)
                  && InBuffer(cfg.clientBufs[i], cmd.local.base, cmd.local.offset, cmd.local.size);
    LocalMapIs(cfg.clientBufs, i, cmd.local.base);
    var k: nat, j :| LastAtBase(cfg.serverBufs, k, cmd.remote.base) && 0 <= j < |cfg.serverBufs|
                     && cfg.serverBufs[j].rkey == cfg.serverBufs[k].rkey
                     && InBuffer(cfg.serverBufs[j], cmd.remote.base, cmd.remote.offset, cmd.local.size);
    LocalMapIs(cfg.serverBufs, k, cmd.remote.base);
    RemoteAgreesWithLocal(cfg.serverBufs);
    assert Covers(cfg.serverBufs[j], RemoteAddress(cmd), cmd.local.size);
  }

  lemma AllowedIsInRange(cfg: Config, cmd: Command)
    requires (cmd.Send? || cmd.Recv?) && Allowed(cfg, cmd)
    ensures LocalInRange(cfg, cmd) && RemoteInRange(cfg, cmd)
  {
    var i := LastIndex(cfg.clientBufs, cmd.local.base);
    assert InBuffer(cfg.clientBufs[i], cmd.local.base, cmd.local.offset, cmd.local.size);
    var k := LastIndex(cfg.serverBufs, cmd.remote.base);
    RemoteAgreesWithLocal(cfg.serverBufs);
    var rkey := RemoteOf(cfg.serverBufs)[cmd.remote.base].rkey;
    var j :| 0 <= j < |cfg.serverBufs| && cfg.serverBufs[j].rkey == rkey
             && Covers(cfg.serverBufs[j], RemoteAddress(cmd), cmd.local.size);
    assert InBuffer(cfg.serverBufs[j], cmd.remote.base, cmd.remote.offset, cmd.local.size);
  }

  lemma LocalMapIs(bufs: seq<GpuBuffer>, i: nat, base: u64)
    requires LastAtBase(bufs, i, base)
    ensures base in LocalMap(bufs) && LocalMap(bufs)[base] == bufs[i]
  {
    LocalMapLastWins(bufs, base);
  }

  lemma LastIndex(bufs: seq<GpuBuffer>, base: u64) returns (i: nat)
    requires base in LocalMap(bufs) || base in RemoteOf(bufs)
    ensures LastAtBase(bufs, i, base) && base in LocalMap(bufs) && LocalMap(bufs)[base] == bufs[i]
  {
    RemoteAgreesWithLocal(bufs);
    LocalMapLastWins(bufs, base);
    i :| 0 <= i < |bufs| && bufs[i].base == base && LocalMap(bufs)[base] == bufs[i]
         && forall j :: i < j < |bufs| ==> bufs[j].base != base;
  }

  /** A byte that no landed transfer addresses keeps its first value. */
  lemma {:induction false} FoldFrame(cfg: Config, cmds: seq<Command>, outs: seq<Outcome>, b: nat)
    requires ValidConfig(cfg) && |outs| <= |cmds|
    ensures b < |cfg.serverMem| && (forall i :: 0 <= i < |outs| ==> !WritesServer(cmds[i], outs[i], b))
            ==> Fold(cfg, cmds, outs).server[b] == cfg.serverMem[b]
    ensures b < |cfg.clientMem| && (forall i :: 0 <= i < |outs| ==> !WritesClient(cmds[i], outs[i], b))
            ==> Fold(cfg, cmds, outs).client[b] == cfg.clientMem[b]
  {
    if outs == [] {
    } else {
      var n := |outs| - 1;
      FoldFrame(cfg, cmds, outs[..n], b);
      if Transfer(cmds[n]) && Landed(outs[n]) && Allowed(cfg, cmds[n]) {
        StepMoves(cfg, cmds[n], outs[n], Fold(cfg, cmds, outs[..n]));
      }
    }
  }

  /** Sending a block and receiving it back restores the client's memory, after any commands. */
  lemma SendThenRecvRestores(cfg: Config, cmds: seq<Command>, outs: seq<Outcome>, l: TensorBlock, r: TensorBlock)
    requires ValidConfig(cfg) && |outs| == |cmds|
    ensures var after := Fold(cfg, cmds + [Send(l, r), Recv(l, r)], outs + [Ok, Ok]);
            after.client == Fold(cfg, cmds, outs).client
  {
    var c2, o2 := cmds + [Send(l, r), Recv(l, r)], outs + [Ok, Ok];
    assert o2[..|o2| - 1] == outs + [Ok] && (outs + [Ok])[..|outs|] == outs;
    FoldIgnoresLater(cfg, cmds, [Send(l, r), Recv(l, r)], outs);
    var m0 := Fold(cfg, cmds, outs);
    var m1 := Fold(cfg, c2, outs + [Ok]);
    assert m1 == Step(cfg, Send(l, r), Ok, m0);
    assert Fold(cfg, c2, o2) == Step(cfg, Recv(l, r), Ok, m1);
    if l.size > 0 && Allowed(cfg, Send(l, r)) {
      assert Allowed(cfg, Recv(l, r));
      AllowedInMemory(cfg, Send(l, r));
      var a, b := LocalAddress(Send(l, r)), RemoteAddress(Send(l, r));
      SpliceAt(m0.server, b, Slice(m0.client, a, l.size));
      SpliceSame(m0.client, a, l.size);
    }
  }
}
