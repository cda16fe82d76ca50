/** The history of a connection: every effect on the two GPU memories and every message, in the
    order in which they took place. */
module Journal {
  import opened Bytes
  import opened Commands

  /** `at` is the position of the command behind the event. A `Push` says how long the journal was when
      its request was posted and when the adapter last read the block. `Foreign` is a write to the
      server's GPU memory by somebody else: another connection or the server's own program. `Local` is a
      write of the client's own program to the client's. */
  datatype Event =
    | Push(at: nat, addr: nat, data: seq<u8>, since: nat, seen: nat)
    | Pull(at: nat, addr: nat, data: seq<u8>)
    | Signal(at: nat)
    | Foreign(addr: nat, data: seq<u8>)
    | Local(addr: nat, data: seq<u8>)

  /** The effect of one of the connection's commands. */
  predicate Own(e: Event) {
    e.Push? || e.Pull? || e.Signal?
  }

  function ReplayServer(m: seq<u8>, j: seq<Event>): (r: seq<u8>)
    ensures |r| == |m|
  {
    if j == [] then m else
      var before, e := ReplayServer(m, j[..|j| - 1]), j[|j| - 1];
      if e.Push? || e.Foreign? then Splice(before, e.addr, e.data) else before
  }

  function ReplayClient(m: seq<u8>, j: seq<Event>): (r: seq<u8>)
    ensures |r| == |m|
  {
    if j == [] then m else
      var before, e := ReplayClient(m, j[..|j| - 1]), j[|j| - 1];
      if e.Pull? || e.Local? then Splice(before, e.addr, e.data) else before
  }

  /** The event is the effect of its command in the memories that the earlier events left. A pushed block
      is what the client's memory held at one moment after the post, all earlier commands having taken
      effect. */
  predicate EventOk(cfg: Config, cmds: seq<Command>, before: seq<Event>, e: Event) {
    match e
    case Push(at, addr, data, since, seen) =>
      at < |cmds| && cmds[at].Send? && Transfer(cmds[at]) && Allowed(cfg, cmds[at])
      && addr == RemoteAddress(cmds[at])
      && SeenAt(cfg, before, cmds[at], since, seen, data)
    case Pull(at, addr, data) =>
      at < |cmds| && cmds[at].Recv? && Transfer(cmds[at]) && Allowed(cfg, cmds[at])
      && addr == LocalAddress(cmds[at])
      && data == Slice(ReplayServer(cfg.serverMem, before), RemoteAddress(cmds[at]), cmds[at].local.size)
    case Signal(at) =>
      at < |cmds| && Message(cmds[at]) && FitsBuffer(cmds[at])
    case Foreign(addr, data) =>
      addr + |data| <= |cfg.serverMem|
    case Local(addr, data) =>
      addr + |data| <= |cfg.clientMem|
  }

  /** An event in terms of the command's own fields: a `Send` or `Recv` of at least one byte has put the
      `local.size` bytes at base plus offset of the one block to base plus offset of the other, sums modulo
      2^64, and a message is that of a `Complete` or a `Disconnect`. */
  predicate PlainEvent(cfg: Config, cmds: seq<Command>, before: seq<Event>, e: Event) {
    match e
    case Push(at, addr, data, since, seen) =>
      at < |cmds| && cmds[at].Send? && cmds[at].local.size > 0 && since <= seen <= |before|
      && var from := (cmds[at].local.base + cmds[at].local.offset) % 0x1_0000_0000_0000_0000;
      addr == (cmds[at].remote.base + cmds[at].remote.offset) % 0x1_0000_0000_0000_0000
      && addr + cmds[at].local.size <= |cfg.serverMem| && from + cmds[at].local.size <= |cfg.clientMem|
      && data == ReplayClient(cfg.clientMem, before[..seen])[from..from + cmds[at].local.size]
    case Pull(at, addr, data) =>
      at < |cmds| && cmds[at].Recv? && cmds[at].local.size > 0
      && var from := (cmds[at].remote.base + cmds[at].remote.offset) % 0x1_0000_0000_0000_0000;
      addr == (cmds[at].local.base + cmds[at].local.offset) % 0x1_0000_0000_0000_0000
      && addr + cmds[at].local.size <= |cfg.clientMem| && from + cmds[at].local.size <= |cfg.serverMem|
      && data == ReplayServer(cfg.serverMem, before)[from..from + cmds[at].local.size]
    case Signal(at) =>
      at < |cmds| && (cmds[at].Complete? || cmds[at].Disconnect?)
    case Foreign(addr, data) =>
      addr + |data| <= |cfg.serverMem|
    case Local(addr, data) =>
      addr + |data| <= |cfg.clientMem|
  }

  lemma EventIsPlain(cfg: Config, cmds: seq<Command>, before: seq<Event>, e: Event)
    requires ValidConfig(cfg) && EventOk(cfg, cmds, before, e)
    ensures PlainEvent(cfg, cmds, before, e)
  {
    if e.Push? || e.Pull? {
      AllowedInMemory(cfg, cmds[e.at]);
    }
  }

  // ----- The last write to a byte

  predicate WritesAt(e: Event, b: nat)
    requires !e.Signal?
  {
    e.addr <= b < e.addr + |e.data|
  }

  /** Event `e` is the last that writes byte `b` of the server's memory. */
  predicate LastOnServer(j: seq<Event>, e: nat, b: nat) {
    e < |j| && (j[e].Push? || j[e].Foreign?) && WritesAt(j[e], b)
    && forall x :: e < x < |j| && (j[x].Push? || j[x].Foreign?) ==> !WritesAt(j[x], b)
  }

  predicate LastOnClient(j: seq<Event>, e: nat, b: nat) {
    e < |j| && (j[e].Pull? || j[e].Local?) && WritesAt(j[e], b)
    && forall x :: e < x < |j| && (j[x].Pull? || j[x].Local?) ==> !WritesAt(j[x], b)
  }

  /** Every write of the history lies in the memory it is made to. */
  predicate InBounds(j: seq<Event>, client: nat, server: nat) {
    forall x :: 0 <= x < |j| && !j[x].Signal? ==>
                  j[x].addr + |j[x].data| <= if j[x].Push? || j[x].Foreign? then server else client
  }

  // A byte is what the last write to it put there, and its first value without one.

  lemma ServerNext(m: seq<u8>, j: seq<Event>, client: nat, b: nat)
    requires InBounds(j, client, |m|) && b < |m| && j != []
    ensures var n := |j| - 1;
            ReplayServer(m, j)[b] ==
            if (j[n].Push? || j[n].Foreign?) && WritesAt(j[n], b) then j[n].data[b - j[n].addr] else ReplayServer(m, j[..n])[b]
  {
    var n := |j| - 1;
    var before := ReplayServer(m, j[..n]);
    if j[n].Push? || j[n].Foreign? {
      SpliceByte(before, j[n].addr, j[n].data, b);
    }
  }

  lemma {:induction false} ServerUntouched(m: seq<u8>, j: seq<Event>, client: nat, b: nat)
    requires InBounds(j, client, |m|) && b < |m|
    requires forall e :: 0 <= e < |j| && (j[e].Push? || j[e].Foreign?) ==> !WritesAt(j[e], b)
    ensures ReplayServer(m, j)[b] == m[b]
  {
    if j != [] {
      ServerNext(m, j, client, b);
      ServerUntouched(m, j[..|j| - 1], client, b);
    }
  }

  lemma {:induction false} ServerByte(m: seq<u8>, j: seq<Event>, client: nat, e: nat, b: nat)
    requires InBounds(j, client, |m|) && b < |m| && LastOnServer(j, e, b)
    ensures ReplayServer(m, j)[b] == j[e].data[b - j[e].addr]
  {
    ServerNext(m, j, client, b);
    if e < |j| - 1 {
      ServerByte(m, j[..|j| - 1], client, e, b);
    }
  }

  lemma {:induction false} ServerByteIs(m: seq<u8>, j: seq<Event>, client: nat, b: nat)
    requires InBounds(j, client, |m|) && b < |m|
    ensures forall e: nat :: LastOnServer(j, e, b) ==> ReplayServer(m, j)[b] == j[e].data[b - j[e].addr]
    ensures (forall e: nat :: !LastOnServer(j, e, b)) ==> ReplayServer(m, j)[b] == m[b]
  {
    forall e: nat | LastOnServer(j, e, b)
      ensures ReplayServer(m, j)[b] == j[e].data[b - j[e].addr]
    {
      ServerByte(m, j, client, e, b);
    }
    if forall e: nat :: !LastOnServer(j, e, b) {
      NoLastOnServer(j, b);
      ServerUntouched(m, j, client, b);
    }
  }

  lemma {:induction false} NoLastOnServer(j: seq<Event>, b: nat)
    requires forall e: nat :: !LastOnServer(j, e, b)
    ensures forall e :: 0 <= e < |j| && (j[e].Push? || j[e].Foreign?) ==> !WritesAt(j[e], b)
  {
    if j != [] {
      var n := |j| - 1;
      assert !LastOnServer(j, n, b);
      forall e: nat
        ensures !LastOnServer(j[..n], e, b)
      {
        assert LastOnServer(j[..n], e, b) ==> LastOnServer(j, e, b);
      }
      NoLastOnServer(j[..n], b);
      assert forall e :: 0 <= e < n ==> j[..n][e] == j[e];
    }
  }

  lemma ClientNext(m: seq<u8>, j: seq<Event>, server: nat, b: nat)
    requires InBounds(j, |m|, server) && b < |m| && j != []
    ensures var n := |j| - 1;
            ReplayClient(m, j)[b] ==
            if (j[n].Pull? || j[n].Local?) && WritesAt(j[n], b) then j[n].data[b - j[n].addr] else ReplayClient(m, j[..n])[b]
  {
    var n := |j| - 1;
    var before := ReplayClient(m, j[..n]);
    if j[n].Pull? || j[n].Local? {
      SpliceByte(before, j[n].addr, j[n].data, b);
    }
  }

  lemma {:induction false} ClientUntouched(m: seq<u8>, j: seq<Event>, server: nat, b: nat)
    requires InBounds(j, |m|, server) && b < |m|
    requires forall e :: 0 <= e < |j| && (j[e].Pull? || j[e].Local?) ==> !WritesAt(j[e], b)
    ensures ReplayClient(m, j)[b] == m[b]
  {
    if j != [] {
      ClientNext(m, j, server, b);
      ClientUntouched(m, j[..|j| - 1], server, b);
    }
  }

  lemma {:induction false} ClientByte(m: seq<u8>, j: seq<Event>, server: nat, e: nat, b: nat)
    requires InBounds(j, |m|, server) && b < |m| && LastOnClient(j, e, b)
    ensures ReplayClient(m, j)[b] == j[e].data[b - j[e].addr]
  {
    ClientNext(m, j, server, b);
    if e < |j| - 1 {
      ClientByte(m, j[..|j| - 1], server, e, b);
    }
  }

  lemma {:induction false} ClientByteIs(m: seq<u8>, j: seq<Event>, server: nat, b: nat)
    requires InBounds(j, |m|, server) && b < |m|
    ensures forall e: nat :: LastOnClient(j, e, b) ==> ReplayClient(m, j)[b] == j[e].data[b - j[e].addr]
    ensures (forall e: nat :: !LastOnClient(j, e, b)) ==> ReplayClient(m, j)[b] == m[b]
  {
    forall e: nat | LastOnClient(j, e, b)
      ensures ReplayClient(m, j)[b] == j[e].data[b - j[e].addr]
    {
      ClientByte(m, j, server, e, b);
    }
    if forall e: nat :: !LastOnClient(j, e, b) {
      NoLastOnClient(j, b);
      ClientUntouched(m, j, server, b);
    }
  }

  lemma {:induction false} NoLastOnClient(j: seq<Event>, b: nat)
    requires forall e: nat :: !LastOnClient(j, e, b)
    ensures forall e :: 0 <= e < |j| && (j[e].Pull? || j[e].Local?) ==> !WritesAt(j[e], b)
  {
    if j != [] {
      var n := |j| - 1;
      assert !LastOnClient(j, n, b);
      forall e: nat
        ensures !LastOnClient(j[..n], e, b)
      {
        assert LastOnClient(j[..n], e, b) ==> LastOnClient(j, e, b);
      }
      NoLastOnClient(j[..n], b);
      assert forall e :: 0 <= e < n ==> j[..n][e] == j[e];
    }
  }

  /** The local block of a `Send`, posted at `since`, as the adapter read it at `seen`. */
  predicate SeenAt(cfg: Config, j: seq<Event>, cmd: Command, since: nat, seen: nat, data: seq<u8>)
    requires Moving(cmd)
  {
    since <= seen <= |j| && OwnAt(j[..seen]) == OwnAt(j)
    && data == Slice(ReplayClient(cfg.clientMem, j[..seen]), LocalAddress(cmd), cmd.local.size)
  }

  predicate JournalOk(cfg: Config, cmds: seq<Command>, j: seq<Event>) {
    j == [] || (var n := |j| - 1; JournalOk(cfg, cmds, j[..n]) && EventOk(cfg, cmds, j[..n], j[n]))
  }

  /** The commands of the connection's own events, in order of effect. */
  function OwnAt(j: seq<Event>): seq<nat> {
    if j == [] then [] else
      var e := j[|j| - 1];
      OwnAt(j[..|j| - 1]) + if Own(e) then [e.at] else []
  }

  /** The commands whose messages landed, in order. */
  function SignalAt(j: seq<Event>): seq<nat> {
    if j == [] then [] else
      var e := j[|j| - 1];
      SignalAt(j[..|j| - 1]) + if e.Signal? then [e.at] else []
  }

  lemma {:induction false} JournalOkLater(cfg: Config, cmds: seq<Command>, cmd: Command, j: seq<Event>)
    requires JournalOk(cfg, cmds, j)
    ensures JournalOk(cfg, cmds + [cmd], j)
  {
    if j != [] {
      JournalOkLater(cfg, cmds, cmd, j[..|j| - 1]);
    }
  }

  /** Any event of a sound journal is the effect of its command at that point. */
  lemma {:induction false} JournalOkAt(cfg: Config, cmds: seq<Command>, j: seq<Event>, q: nat)
    requires JournalOk(cfg, cmds, j) && q < |j|
    ensures JournalOk(cfg, cmds, j[..q]) && EventOk(cfg, cmds, j[..q], j[q])
  {
    var n := |j| - 1;
    if q < n {
      JournalOkAt(cfg, cmds, j[..n], q);
      assert j[..n][..q] == j[..q];
    }
  }

  /** What one more event adds. */
  lemma Extend(j: seq<Event>, e: Event)
    ensures OwnAt(j + [e]) == OwnAt(j) + if Own(e) then [e.at] else []
    ensures SignalAt(j + [e]) == SignalAt(j) + if e.Signal? then [e.at] else []
    ensures forall m :: ReplayServer(m, j + [e]) ==
                        if e.Push? || e.Foreign? then Splice(ReplayServer(m, j), e.addr, e.data) else ReplayServer(m, j)
    ensures forall m :: ReplayClient(m, j + [e]) ==
                        if e.Pull? || e.Local? then Splice(ReplayClient(m, j), e.addr, e.data) else ReplayClient(m, j)
  {
    assert (j + [e])[..|j|] == j;
  }

  lemma ExtendOk(cfg: Config, cmds: seq<Command>, j: seq<Event>, e: Event)
    requires JournalOk(cfg, cmds, j) && EventOk(cfg, cmds, j, e)
    ensures JournalOk(cfg, cmds, j + [e])
  {
    assert (j + [e])[..|j|] == j;
  }

  /** Every message event of the journal is one of its own events. */
  lemma {:induction false} SignalIsOwn(j: seq<Event>, m: nat)
    requires m < |SignalAt(j)|
    ensures exists q :: 0 <= q < |j| && j[q] == Signal(SignalAt(j)[m]) && |SignalAt(j[..q])| == m
  {
    var n := |j| - 1;
    if m < |SignalAt(j[..n])| {
      SignalIsOwn(j[..n], m);
      var q :| 0 <= q < n && j[..n][q] == Signal(SignalAt(j[..n])[m]) && |SignalAt(j[..n][..q])| == m;
      assert j[..n][..q] == j[..q];
      assert j[q] == Signal(SignalAt(j)[m]);
    } else {
      assert j[n] == Signal(SignalAt(j)[m]);
    }
  }

  lemma {:induction false} OwnEvent(j: seq<Event>, x: nat)
    requires x in OwnAt(j)
    ensures exists q :: 0 <= q < |j| && Own(j[q]) && j[q].at == x
  {
    var n := |j| - 1;
    if x in OwnAt(j[..n]) {
      OwnEvent(j[..n], x);
      var q :| 0 <= q < n && Own(j[..n][q]) && j[..n][q].at == x;
      assert j[q].at == x;
    } else {
      assert j[n].at == x;
    }
  }

  predicate Increasing(s: seq<nat>) {
    forall i, j :: 0 <= i < j < |s| ==> s[i] < s[j]
  }

  lemma Precedes(s: seq<nat>, x: nat, y: nat)
    requires Increasing(s + [y]) && x in s
    ensures x < y
  {
    var i :| 0 <= i < |s| && s[i] == x;
    assert (s + [y])[i] < (s + [y])[|s|];
  }

  /** Own events keep the order of their commands when the commands they come from do. */
  lemma {:induction false} OwnInOrder(j: seq<Event>, p: nat, q: nat)
    requires Increasing(OwnAt(j)) && p < |j| && q < |j|
    requires Own(j[p]) && Own(j[q]) && j[p].at < j[q].at
    ensures p < q
  {
    var n := |j| - 1;
    var own := OwnAt(j[..n]);
    assert own == OwnAt(j)[..|own|];
    if q == n {
    } else if p == n {
      OwnHas(j[..n], q);
      Precedes(own, j[q].at, j[n].at);
    } else {
      OwnInOrder(j[..n], p, q);
    }
  }

  lemma {:induction false} OwnHas(j: seq<Event>, q: nat)
    requires q < |j| && Own(j[q])
    ensures j[q].at in OwnAt(j)
  {
    if q < |j| - 1 {
      OwnHas(j[..|j| - 1], q);
    }
  }

  /** Messages are among the own events, in their order. */
  lemma {:induction false} SignalsInOrder(j: seq<Event>)
    requires Increasing(OwnAt(j))
    ensures Increasing(SignalAt(j)) && forall x :: x in SignalAt(j) ==> x in OwnAt(j)
  {
    if j != [] {
      var n := |j| - 1;
      var own := OwnAt(j[..n]);
      assert own == OwnAt(j)[..|own|];
      SignalsInOrder(j[..n]);
      if j[n].Signal? {
        forall x | x in SignalAt(j[..n])
          ensures x < j[n].at
        {
          Precedes(own, x, j[n].at);
        }
        AppendsIncreasing(SignalAt(j[..n]), j[n].at);
      }
    }
  }

  lemma AppendsIncreasing(s: seq<nat>, n: nat)
    requires Increasing(s) && forall x :: x in s ==> x < n
    ensures Increasing(s + [n])
  {
    assert forall i :: 0 <= i < |s| ==> s[i] in s;
  }

  ghost predicate Alone(j: seq<Event>) {
    forall q :: 0 <= q < |j| ==> Own(j[q])
  }

  /** Nobody else writing, the journal's memories are the fold of the commands over their outcomes. */
  lemma {:induction false} JournalIsFold(cfg: Config, cmds: seq<Command>, outs: seq<Outcome>, j: seq<Event>)
    requires ValidConfig(cfg) && |outs| <= |cmds|
    requires JournalOk(cfg, cmds, j) && Alone(j) && OwnAt(j) == LandedAt(outs)
    ensures Fold(cfg, cmds, outs) == Memories(ReplayClient(cfg.clientMem, j), ReplayServer(cfg.serverMem, j))
    decreases |outs|
  {
    if outs == [] {
      AloneOwn(j);
    } else {
      var n := |outs| - 1;
      if Landed(outs[n]) {
        AloneOwn(j);
        var m := |j| - 1;
        AloneOwn(j[..m]);
        assert OwnAt(j[..m]) == OwnAt(j)[..m] == LandedAt(outs[..n]);
        assert j[m].at == n;
        JournalIsFold(cfg, cmds, outs[..n], j[..m]);
        if j[m].Push? {
          SeenAlone(j[..m], j[m].seen);
        }
      } else {
        JournalIsFold(cfg, cmds, outs[..n], j);
      }
    }
  }

  /** Nobody else writing, a block is seen as it is when it lands. */
  lemma SeenAlone(j: seq<Event>, seen: nat)
    requires Alone(j) && seen <= |j| && OwnAt(j[..seen]) == OwnAt(j)
    ensures j[..seen] == j
  {
    AloneOwn(j);
    AloneOwn(j[..seen]);
  }

  lemma {:induction false} AloneOwn(j: seq<Event>)
    requires Alone(j)
    ensures |OwnAt(j)| == |j|
  {
    if j != [] {
      AloneOwn(j[..|j| - 1]);
    }
  }
}
