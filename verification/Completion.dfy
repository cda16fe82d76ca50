/** The window of recently completed requests: its value, what a history of additions leaves in it,
    and the class that holds it. */
module Completion {
  import opened Bytes

  type ReqId = seq<u8>

  /** The queue of ids in arrival order, the set that is searched, and the queue's allocated room. */
  datatype Window = Window(fifo: seq<ReqId>, ids: set<ReqId>, cap: nat)

  function New(cap: nat): Window {
    Window([], {}, cap)
  }

  /** A full `VecDeque` reallocates on a push: twice the room, and never less than four. */
  function Grow(cap: nat): (r: nat)
    ensures r > cap
  {
    if cap <= 2 then 4 else 2 * cap
  }

  function Add(w: Window, id: ReqId): Window {
    Window(w.fifo + [id], w.ids + {id}, if |w.fifo| == w.cap then Grow(w.cap) else w.cap)
  }

  predicate Full(w: Window) {
    |w.fifo| == w.cap
  }

  function Evict(w: Window): Window {
    if w.fifo == [] then w else Window(w.fifo[1..], w.ids - {w.fifo[0]}, w.cap)
  }

  /** What the callers do for every completed request. */
  function Round(w: Window, id: ReqId): Window {
    var a := Add(w, id);
    if Full(a) then Evict(a) else a
  }

  function Rounds(w: Window, h: seq<ReqId>): Window {
    if h == [] then w else Round(Rounds(w, h[..|h| - 1]), h[|h| - 1])
  }

  /** The last `n` elements. */
  function Last(h: seq<ReqId>, n: nat): (r: seq<ReqId>)
    ensures |r| == if |h| < n then |h| else n
  {
    if |h| < n then h else h[|h| - n..]
  }

  /** `j` is the last position of `x`. */
  ghost predicate LastAt(h: seq<ReqId>, x: ReqId, j: nat) {
    j < |h| && h[j] == x && forall i :: j < i < |h| ==> h[i] != x
  }

  /** Some addition of `x` has been evicted since position `j`; the addition at `i` is evicted by the
      addition at `i + room`. */
  ghost predicate EvictedSince(h: seq<ReqId>, room: nat, x: ReqId, j: nat) {
    exists i :: 0 <= i < |h| && h[i] == x && j <= i + room < |h|
  }

  ghost predicate Reported(h: seq<ReqId>, room: nat, x: ReqId) {
    exists j: nat :: LastAt(h, x, j) && !EvictedSince(h, room, x, j)
  }

  lemma LastAtExtends(h: seq<ReqId>, y: ReqId, x: ReqId, j: nat)
    ensures LastAt(h + [y], x, j) <==> if x == y then j == |h| else LastAt(h, x, j)
  {
    var g := h + [y];
    if LastAt(g, x, j) {
      assert forall i :: 0 <= i < |h| ==> g[i] == h[i];
      assert x == y ==> g[|h|] == x;
    }
  }

  lemma EvictedExtends(h: seq<ReqId>, y: ReqId, room: nat, x: ReqId, j: nat)
    requires j <= |h|
    ensures EvictedSince(h + [y], room, x, j)
       <==> EvictedSince(h, room, x, j) || (|h| >= room && (h + [y])[|h| - room] == x)
  {
    var g := h + [y];
    if EvictedSince(g, room, x, j) {
      var i :| 0 <= i < |g| && g[i] == x && j <= i + room < |g|;
      assert i + room < |h| ==> h[i] == x;
    }
    if EvictedSince(h, room, x, j) {
      var i :| 0 <= i < |h| && h[i] == x && j <= i + room < |h|;
      assert g[i] == x;
    }
    if |h| >= room && g[|h| - room] == x {
      assert j <= (|h| - room) + room < |g|;
    }
  }

  /** How one more addition changes what is reported. */
  lemma ReportedExtends(h: seq<ReqId>, y: ReqId, room: nat, x: ReqId)
    ensures Reported(h + [y], room, x)
       <==> (x == y || Reported(h, room, x)) && !(|h| >= room && (h + [y])[|h| - room] == x)
  {
    var g := h + [y];
    var out := |h| >= room && g[|h| - room] == x;
    if Reported(g, room, x) {
      var j: nat :| LastAt(g, x, j) && !EvictedSince(g, room, x, j);
      LastAtExtends(h, y, x, j);
      EvictedExtends(h, y, room, x, j);
    }
    if (x == y || Reported(h, room, x)) && !out {
      var j: nat := |h|;
      if x != y {
        j :| LastAt(h, x, j) && !EvictedSince(h, room, x, j);
      }
      LastAtExtends(h, y, x, j);
      EvictedExtends(h, y, room, x, j);
      assert !EvictedSince(h, room, x, |h|);
    }
  }

  lemma LastExtends(h: seq<ReqId>, y: ReqId, room: nat)
    ensures |h| < room ==> Last(h + [y], room) == Last(h, room) + [y]
    ensures |h| >= room ==> Last(h + [y], room) == (Last(h, room) + [y])[1..]
    ensures |h| >= room ==> (Last(h, room) + [y])[0] == (h + [y])[|h| - room]
  {
  }

  /** Storage: the queue is the last `cap - 1` additions and no push ever reallocates. */
  lemma {:induction false} WindowQueue(cap: nat, h: seq<ReqId>)
    requires cap >= 1
    ensures Rounds(New(cap), h).cap == cap
    ensures Rounds(New(cap), h).fifo == Last(h, cap - 1)
  {
    if h == [] {
    } else {
      var p, y := h[..|h| - 1], h[|h| - 1];
      WindowQueue(cap, p);
      assert h == p + [y];
      LastExtends(p, y, cap - 1);
    }
  }

  /** One round on a queue of at most `cap - 1` ids. */
  lemma RoundIds(w: Window, y: ReqId, x: ReqId)
    requires |w.fifo| < w.cap
    ensures x in Round(w, y).ids <==> (x == y || x in w.ids) && !(|w.fifo| + 1 == w.cap && (w.fifo + [y])[0] == x)
  {
  }

  /** Exact meaning of the window. With room for `cap - 1` ids, after any history of additions an id
      is reported exactly when no copy of it was evicted since it was last added. */
  lemma {:induction false} WindowExact(cap: nat, h: seq<ReqId>, x: ReqId)
    requires cap >= 1
    ensures x in Rounds(New(cap), h).ids <==> Reported(h, cap - 1, x)
  {
    if h == [] {
    } else {
      var p, y := h[..|h| - 1], h[|h| - 1];
      WindowExact(cap, p, x);
      WindowQueue(cap, p);
      assert h == p + [y];
      LastExtends(p, y, cap - 1);
      ReportedExtends(p, y, cap - 1, x);
      RoundIds(Rounds(New(cap), p), y, x);
    }
  }

  ghost predicate Distinct(h: seq<ReqId>) {
    forall i, j :: 0 <= i < j < |h| ==> h[i] != h[j]
  }

  lemma ReportedIsInLast(h: seq<ReqId>, room: nat, x: ReqId)
    requires Reported(h, room, x)
    ensures x in Last(h, room)
  {
    var j: nat :| LastAt(h, x, j) && !EvictedSince(h, room, x, j);
    assert j + room >= |h|;
    var r := Last(h, room);
    assert r[j - (|h| - |r|)] == x;
  }

  /** A reported id is always one of the last `cap - 1` added. */
  lemma ReportedIsRecent(cap: nat, h: seq<ReqId>, x: ReqId)
    requires cap >= 1 && x in Rounds(New(cap), h).ids
    ensures x in Last(h, cap - 1)
  {
    WindowExact(cap, h, x);
    ReportedIsInLast(h, cap - 1, x);
  }

  /** When ids are not reused, every one of the last `cap - 1` is reported, and nothing else. */
  lemma DistinctReportedIffRecent(cap: nat, h: seq<ReqId>, x: ReqId)
    requires cap >= 1 && Distinct(h)
    ensures x in Rounds(New(cap), h).ids <==> x in Last(h, cap - 1)
  {
    var r := Last(h, cap - 1);
    if x in r {
      var k :| 0 <= k < |r| && r[k] == x;
      var j := |h| - |r| + k;
      assert h[j] == x;
      assert LastAt(h, x, j);
      assert !EvictedSince(h, cap - 1, x, j);
      WindowExact(cap, h, x);
    }
    if x in Rounds(New(cap), h).ids {
      ReportedIsRecent(cap, h, x);
    }
  }

  /** Reusing an id breaks the agreement between queue and set, whatever the capacity: when the same id is
      added first and last in `cap` additions, it is the newest entry of the queue and not reported. */
  lemma ReusedIdIsForgotten(cap: nat, x: ReqId, others: seq<ReqId>)
    requires cap >= 2 && |others| == cap - 2 && x !in others
    ensures var w := Rounds(New(cap), [x] + others + [x]); w.fifo == others + [x] && x !in w.ids
  {
    var h := [x] + others + [x];
    WindowExact(cap, h, x);
    WindowQueue(cap, h);
    assert Last(h, cap - 1) == others + [x];
    forall j: nat | LastAt(h, x, j)
      ensures EvictedSince(h, cap - 1, x, j)
    {
      assert h[cap - 1] == x;
      assert h[0] == x && j <= 0 + (cap - 1) < |h|;
    }
  }

  /** The agreement fails exactly then: an id among the last `cap - 1` is missing from the set if and
      only if an older copy of it was evicted after its newest copy went in. */
  lemma ForgottenIff(cap: nat, h: seq<ReqId>, x: ReqId, j: nat)
    requires cap >= 1 && LastAt(h, x, j)
    ensures x in Rounds(New(cap), h).ids <==> !EvictedSince(h, cap - 1, x, j)
  {
    WindowExact(cap, h, x);
    forall k: nat | LastAt(h, x, k)
      ensures k == j
    {
    }
  }

  /** A round never makes the queue reallocate. */
  lemma AddFits(cap: nat, h: seq<ReqId>, id: ReqId)
    requires cap >= 1
    ensures var w := Rounds(New(cap), h);
            |w.fifo| < w.cap == cap && Add(w, id).cap == cap && (Full(Add(w, id)) <==> |h| + 1 >= cap)
  {
    WindowQueue(cap, h);
  }

  lemma RoundsAppend(w: Window, h: seq<ReqId>, id: ReqId)
    ensures Rounds(w, h + [id]) == Round(Rounds(w, h), id)
  {
    assert (h + [id])[..|h|] == h;
  }

  /** The source's `CompletionReqs`. `history` is every id recorded so far. */
  class CompletionReqs {
    var fifoReqs: seq<ReqId>
    var reqsSet: set<ReqId>
    var capacity: nat
    ghost var history: seq<ReqId>

    ghost function Value(): Window
      reads this
    {
      Window(fifoReqs, reqsSet, capacity)
    }

    /** Between two rounds: the window is that of the history. */
    ghost predicate Settled()
      reads this
    {
      capacity >= 1 && Value() == Rounds(New(capacity), history)
    }

    /** Within a round: an id has been added for which nothing has been evicted yet. */
    ghost predicate Adding(req: ReqId)
      reads this
    {
      capacity >= 1 && Value() == Add(Rounds(New(capacity), history), req)
    }

    constructor (size: nat)
      ensures Value() == New(size) && history == []
      ensures size >= 1 ==> Settled()
    {
      fifoReqs, reqsSet, capacity, history := [], {}, size, [];
    }

    method AddReq(req: ReqId)
      modifies this
      ensures Value() == Add(old(Value()), req) && history == old(history)
      ensures fifoReqs == old(fifoReqs) + [req] && reqsSet == old(reqsSet) + {req}
      ensures |old(fifoReqs)| != old(capacity) ==> capacity == old(capacity)
      ensures |old(fifoReqs)| == old(capacity) ==> capacity >= 4 && capacity >= 2 * old(capacity) && (capacity == 4 || capacity == 2 * old(capacity))
      ensures old(Settled()) ==> Adding(req) && capacity == old(capacity)
    {
      if capacity >= 1 {
        AddFits(capacity, history, req);
      }
      reqsSet := reqsSet + {req};
      if |fifoReqs| == capacity {
        capacity := Grow(capacity);
      }
      fifoReqs := fifoReqs + [req];
    }

    method RemoveFirst()
      modifies this
      ensures Value() == Evict(old(Value())) && history == old(history)
      ensures capacity == old(capacity)
      ensures if old(fifoReqs) == [] then fifoReqs == [] && reqsSet == old(reqsSet)
              else [old(fifoReqs)[0]] + fifoReqs == old(fifoReqs) && reqsSet == old(reqsSet) - {old(fifoReqs)[0]}
    {
      if fifoReqs != [] {
        reqsSet := reqsSet - {fifoReqs[0]};
        fifoReqs := fifoReqs[1..];
      }
    }

    /** Between two rounds an id is found if and only if no copy of it was evicted since it was last added. */
    method IsReqComplete(req: ReqId) returns (b: bool)
      ensures b <==> req in Value().ids
      ensures Settled() ==> (b <==> Reported(history, capacity - 1, req))
    {
      if Settled() {
        WindowExact(capacity, history, req);
      }
      b := req in reqsSet;
    }

    /** The queue is never full between rounds, and within one exactly if as many ids have been added in all
        as it has room for. */
    method IsFull() returns (b: bool)
      ensures b <==> Full(Value())
      ensures Settled() ==> !b
      ensures forall req :: Adding(req) ==> (b <==> |history| + 1 >= capacity)
    {
      if capacity >= 1 {
        WindowQueue(capacity, history);
        forall req | Adding(req)
          ensures Full(Value()) <==> |history| + 1 >= capacity
        {
          AddFits(capacity, history, req);
        }
      }
      b := |fifoReqs| == capacity;
    }

    /** The callers' discipline, the same on both ends: add, then evict if that filled the queue. */
    method Record(req: ReqId)
      modifies this
      ensures Value() == Round(old(Value()), req) && history == old(history) + [req]
      ensures old(Settled()) ==> Settled() && capacity == old(capacity)
    {
      ghost var was := Value();
      RoundsAppend(New(capacity), history, req);
      if capacity >= 1 {
        AddFits(capacity, history, req);
      }
      AddReq(req);
      var full := IsFull();
      if full {
        RemoveFirst();
      }
      history := history + [req];
    }
  }
}
