/** What every run of one connection delivers: messages in order, data before completion, and
    memories that are the fold of the commands. */
module Delivery {
  import opened Wrappers
  import opened Codec
  import opened Completion
  import opened Commands
  import opened Journal
  import opened Protocol
  import opened Invariant
  import opened Preservation
  import opened Shadows

  // ----- Messages of a list of commands

  /** The messages of the commands at the given positions. */
  function NotesAt(cmds: seq<Command>, at: seq<nat>): seq<Notification> {
    if at == [] then [] else
      var p := at[|at| - 1];
      NotesAt(cmds, at[..|at| - 1]) + if p < |cmds| && Message(cmds[p]) then [NoteOf(cmds[p])] else []
  }

  lemma NotesAtNext(cmds: seq<Command>, at: seq<nat>, p: nat)
    ensures NotesAt(cmds, at + [p]) == NotesAt(cmds, at) + if p < |cmds| && Message(cmds[p]) then [NoteOf(cmds[p])] else []
  {
    assert (at + [p])[..|at|] == at;
  }

  /** The journal's messages are those of its own events. */
  lemma {:induction false} SignalNotes(cfg: Config, cmds: seq<Command>, j: seq<Event>)
    requires JournalOk(cfg, cmds, j)
    ensures NotesAt(cmds, SignalAt(j)) == NotesAt(cmds, OwnAt(j))
  {
    if j != [] {
      var n := |j| - 1;
      SignalNotes(cfg, cmds, j[..n]);
      assert j == j[..n] + [j[n]];
      Extend(j[..n], j[n]);
      var own, signals := OwnAt(j[..n]), SignalAt(j[..n]);
      if !Own(j[n]) {
        assert own + [] == own && signals + [] == signals;
      } else {
        NotesAtNext(cmds, own, j[n].at);
        NotesAtNext(cmds, signals, j[n].at);
        assert !j[n].Signal? ==> signals + [] == signals;
      }
    }
  }

  lemma {:induction false} LandedAtNotes(cmds: seq<Command>, outs: seq<Outcome>)
    requires |outs| <= |cmds|
    ensures NotesAt(cmds, LandedAt(outs)) == LandedNotes(cmds, outs)
  {
    if outs != [] {
      var n := |outs| - 1;
      LandedAtNotes(cmds, outs[..n]);
      NotesAtNext(cmds, LandedAt(outs[..n]), n);
      assert LandedAt(outs[..n]) + [] == LandedAt(outs[..n]);
    }
  }

  lemma {:induction false} NotesAtEach(cmds: seq<Command>, at: seq<nat>)
    requires forall m :: 0 <= m < |at| ==> at[m] < |cmds| && Message(cmds[at[m]])
    ensures |NotesAt(cmds, at)| == |at|
    ensures forall m :: 0 <= m < |at| ==> NotesAt(cmds, at)[m] == NoteOf(cmds[at[m]])
  {
    if at != [] {
      NotesAtEach(cmds, at[..|at| - 1]);
    }
  }

  /** A command's operation has taken effect and its completion waits to be polled. The hello of the
      handshake is the only SEND. */
  predicate Unpolled(c: Node) {
    c.scq != [] && c.scq[0].landed && c.scq[0].op != OpSend
  }

  /** The outcomes so far, the current command counted as successful once it has landed. */
  function OutcomesNow(st: State): seq<Outcome> {
    st.client.outs + if Unpolled(st.c) then [Ok] else []
  }

  lemma UnpolledIsNow(c: Node, client: Client)
    requires ClientQueues(c, client.pc)
    ensures Unpolled(c) <==> LandedNow(client, c)
  {
  }

  lemma LandedAtNow(st: State)
    requires Record(st.journal, st.client, st.c) && |st.client.outs| == st.client.k
    requires Unpolled(st.c) <==> LandedNow(st.client, st.c)
    ensures OwnAt(st.journal) == LandedAt(OutcomesNow(st))
  {
    LandedNext(st.client.outs, Ok);
    assert st.client.outs + [] == st.client.outs && LandedAt(st.client.outs) + [] == LandedAt(st.client.outs);
  }

  predicate NoRefusal(outs: seq<Outcome>) {
    forall i :: 0 <= i < |outs| ==> !outs[i].Refused?
  }

  /** The outcomes so far fit the commands: only empty transfers are skipped, failures are final. */
  predicate Sane(cmds: seq<Command>, outs: seq<Outcome>) {
    |outs| <= |cmds| && Sticky(outs)
    && forall i :: 0 <= i < |outs| ==> (outs[i].Skipped? <==> !Message(cmds[i]) && !Transfer(cmds[i]))
  }

  lemma SaneNow(cfg: Config, st: State)
    requires Worker(cfg, st) && ClientQueues(st.c, st.client.pc)
    ensures Sane(st.cmds, OutcomesNow(st))
    ensures OwnAt(st.journal) == LandedAt(OutcomesNow(st))
  {
    UnpolledIsNow(st.c, st.client);
    SaneOutcomes(cfg, st);
    LandedAtNow(st);
  }

  lemma SaneOutcomes(cfg: Config, st: State)
    requires Current(cfg, st.cmds, st.client, st.c.buf) && Outcomes(st.cmds, st.client) && Healthy(st.client, st.c)
    requires Unpolled(st.c) <==> LandedNow(st.client, st.c)
    ensures Sane(st.cmds, OutcomesNow(st))
  {
    if LandedNow(st.client, st.c) {
      StickyNext(st.client.outs, Ok);
    }
  }

  /** Without a refused post, the landed messages are the first of all the messages: a failure is final. */
  lemma {:induction false} LandedNotesPrefix(cmds: seq<Command>, outs: seq<Outcome>)
    requires Sane(cmds, outs) && NoRefusal(outs)
    ensures LandedNotes(cmds, outs) <= Notes(cmds[..|outs|])
    ensures NoFailure(outs) ==> LandedNotes(cmds, outs) == Notes(cmds[..|outs|])
  {
    if outs != [] {
      var n := |outs| - 1;
      assert Sane(cmds, outs[..n]) && NoRefusal(outs[..n]);
      LandedNotesPrefix(cmds, outs[..n]);
      assert cmds[..|outs|][..n] == cmds[..n];
      if Landed(outs[n]) {
        assert NoFailure(outs[..n]);
      }
    }
  }

  lemma {:induction false} NotesPrefix(cmds: seq<Command>, k: nat)
    requires k <= |cmds|
    ensures Notes(cmds[..k]) <= Notes(cmds)
    decreases |cmds| - k
  {
    if k == |cmds| {
      assert cmds[..k] == cmds;
    } else {
      NotesPrefix(cmds, k + 1);
      assert cmds[..k + 1][..k] == cmds[..k];
    }
  }

  // ----- In order, none lost, none torn

  lemma ReturnedIsLanded(cfg: Config, st: State)
    requires Core(cfg, st)
    ensures |OutcomesNow(st)| <= |st.cmds|
    ensures st.server.returned <= LandedNotes(st.cmds, OutcomesNow(st))
  {
    SaneNow(cfg, st);
    SignalNotes(cfg, st.cmds, st.journal);
    LandedAtNotes(st.cmds, OutcomesNow(st));
    NotesAtEach(st.cmds, SignalAt(st.journal));
    ReturnedEach(st.cmds, SignalAt(st.journal), st.server, st.s);
  }

  lemma ReturnedEach(cmds: seq<Command>, signals: seq<nat>, server: Server, s: Node)
    requires Arrived(cmds, signals, server, s)
    ensures |server.returned| <= |signals| <= |server.returned| + 1
    ensures forall m :: 0 <= m < |signals| ==> signals[m] < |cmds| && Message(cmds[signals[m]])
    ensures forall m :: 0 <= m < |server.returned| ==> server.returned[m] == NoteOf(cmds[signals[m]])
  {
  }

  /** In every run, what `handle_notification` has returned is, in order and byte for byte, the start of
      the messages whose write took effect. */
  lemma NotificationsInOrder(cfg: Config, st: State)
    requires Sound(cfg, st)
    ensures |OutcomesNow(st)| <= |st.cmds|
    ensures st.server.returned <= LandedNotes(st.cmds, OutcomesNow(st))
    ensures NoRefusal(st.client.outs) ==> st.server.returned <= Notes(st.cmds)
  {
    var u := ReachableInv(cfg, st);
    ReturnedIsLanded(cfg, u);
    if NoRefusal(st.client.outs) {
      NoneLost(cfg, u);
      PrefixOfPrefix(st.server.returned, LandedNotes(st.cmds, OutcomesNow(st)), Notes(st.cmds));
    }
  }

  /** Each returned notification in terms of the command behind it. */
  lemma ReturnedIs(cfg: Config, st: State, m: nat) returns (p: nat)
    requires Sound(cfg, st) && m < |st.server.returned|
    ensures m < |SignalAt(st.journal)| && p == SignalAt(st.journal)[m] < |st.cmds|
    ensures st.cmds[p].Complete? || st.cmds[p].Disconnect?
    ensures st.server.returned[m] == if st.cmds[p].Complete? then Notification(0, Some(st.cmds[p].reqId)) else Notification(1, None)
  {
    var u := ReachableInv(cfg, st);
    ReturnedEach(u.cmds, SignalAt(u.journal), u.server, u.s);
    p := SignalAt(u.journal)[m];
  }

  lemma NoneLost(cfg: Config, st: State)
    requires Worker(cfg, st) && ClientQueues(st.c, st.client.pc) && NoRefusal(st.client.outs)
    ensures |OutcomesNow(st)| <= |st.cmds| && LandedNotes(st.cmds, OutcomesNow(st)) <= Notes(st.cmds)
  {
    SaneNow(cfg, st);
    LandedIsSubmitted(st.cmds, OutcomesNow(st));
  }

  lemma PrefixOfPrefix(a: seq<Notification>, b: seq<Notification>, c: seq<Notification>)
    requires a <= b <= c
    ensures a <= c
  {
  }

  lemma LandedIsSubmitted(cmds: seq<Command>, outs: seq<Outcome>)
    requires Sane(cmds, outs) && NoRefusal(outs)
    ensures LandedNotes(cmds, outs) <= Notes(cmds)
  {
    LandedNotesPrefix(cmds, outs);
    NotesPrefix(cmds, |outs|);
  }

  // ----- Data before completion

  lemma {:induction false} LandedAtOrdered(outs: seq<Outcome>)
    ensures forall i: nat :: i in LandedAt(outs) <==> i < |outs| && Landed(outs[i])
    ensures Increasing(LandedAt(outs))
  {
    if outs != [] {
      var n := |outs| - 1;
      var before := LandedAt(outs[..n]);
      LandedAtOrdered(outs[..n]);
      if Landed(outs[n]) {
        assert forall x :: x in before ==> x < n;
        AppendsIncreasing(before, n);
      }
      forall i: nat
        ensures i in LandedAt(outs) <==> i < |outs| && Landed(outs[i])
      {
        LandedMember(outs, i);
      }
    }
  }

  lemma LandedMember(outs: seq<Outcome>, i: nat)
    requires outs != [] && (i in LandedAt(outs[..|outs| - 1]) <==> i < |outs| - 1 && Landed(outs[..|outs| - 1][i]))
    ensures i in LandedAt(outs) <==> i < |outs| && Landed(outs[i])
  {
  }

  /** The command at `i` took effect before event `q` of the journal, and its event is the copy the
      command asks for in the memories as they were then. */
  ghost predicate TookEffectBefore(cfg: Config, cmds: seq<Command>, journal: seq<Event>, i: nat, q: nat) {
    exists e :: 0 <= e < q <= |journal| && Own(journal[e]) && journal[e].at == i && PlainEvent(cfg, cmds, journal[..e], journal[e])
  }

  /** A `Send` or `Recv` of at least one byte. */
  predicate MovesBytes(cmd: Command) {
    (cmd.Send? || cmd.Recv?) && cmd.local.size > 0
  }

  /** `id` was completed by the command at `p`, whose message is event `q` of the journal; every earlier
      transfer that returned Ok took effect before it, and unless a post was refused all of them did. */
  ghost predicate CompletedAfterData(cfg: Config, st: State, id: ReqId, p: nat, q: nat) {
    DataFirst(cfg, st.cmds, st.journal, st.client.outs, id, p, q)
  }

  ghost predicate DataFirst(cfg: Config, cmds: seq<Command>, journal: seq<Event>, outs: seq<Outcome>, id: ReqId, p: nat, q: nat) {
    q < |journal| && journal[q] == Signal(p) && p < |cmds| && cmds[p] == Complete(id) && p <= |outs|
    && (forall i :: 0 <= i < p && MovesBytes(cmds[i]) && outs[i].Ok? ==> TookEffectBefore(cfg, cmds, journal, i, q))
    && (forall i :: 0 <= i < p && MovesBytes(cmds[i]) ==> outs[i].Ok? || outs[i].Refused?)
  }

  /** An id that a list of notifications records comes from one of them. */
  lemma {:induction false} IdsOfFrom(ns: seq<Notification>, m: nat) returns (n: nat)
    requires m < |IdsOf(ns)|
    ensures n < |ns| && ns[n].done == 0 && ns[n].reqId == Some(IdsOf(ns)[m])
  {
    var last := |ns| - 1;
    if m < |IdsOf(ns[..last])| {
      n := IdsOfFrom(ns[..last], m);
    } else {
      n := last;
    }
  }

  lemma RecordedFrom(server: Server, m: nat) returns (n: nat)
    requires Recorded(server) && m < |server.recorded|
    ensures n < |server.returned| && server.returned[n].done == 0 && server.returned[n].reqId == Some(server.recorded[m])
  {
    n := IdsOfFrom(if Unrecorded(server.pc) && server.returned != [] then server.returned[..|server.returned| - 1] else server.returned, m);
  }

  lemma OkTookEffect(cfg: Config, cmds: seq<Command>, journal: seq<Event>, outs: seq<Outcome>, i: nat, p: nat, q: nat)
    requires ValidConfig(cfg) && JournalOk(cfg, cmds, journal) && OwnAt(journal) == LandedAt(outs)
    requires q < |journal| && journal[q] == Signal(p)
    requires i < p && i < |outs| && outs[i].Ok?
    ensures TookEffectBefore(cfg, cmds, journal, i, q)
  {
    LandedAtOrdered(outs);
    OwnEvent(journal, i);
    var e :| 0 <= e < |journal| && Own(journal[e]) && journal[e].at == i;
    OwnInOrder(journal, e, q);
    JournalOkAt(cfg, cmds, journal, e);
    EventIsPlain(cfg, cmds, journal[..e], journal[e]);
  }

  lemma NoFailureBefore(cmds: seq<Command>, outs: seq<Outcome>, i: nat, p: nat)
    requires Sane(cmds, outs) && p in LandedAt(outs) && i < p && p < |cmds| && MovesBytes(cmds[i])
    ensures p < |outs| && (outs[i].Ok? || outs[i].Refused?)
  {
    LandedAtOrdered(outs);
    assert Landed(outs[p]);
  }

  /** The command whose message event `q` is comes after the data of all earlier transfers. */
  lemma SignalAfterData(cfg: Config, st: State, id: ReqId, p: nat, q: nat)
    requires ValidConfig(cfg) && JournalOk(cfg, st.cmds, st.journal)
    requires Sane(st.cmds, OutcomesNow(st)) && OwnAt(st.journal) == LandedAt(OutcomesNow(st))
    requires q < |st.journal| && st.journal[q] == Signal(p) && p < |st.cmds| && st.cmds[p] == Complete(id)
    ensures CompletedAfterData(cfg, st, id, p, q)
  {
    var outs := OutcomesNow(st);
    OwnHas(st.journal, q);
    LandedAtOrdered(outs);
    forall i | 0 <= i < p && MovesBytes(st.cmds[i])
      ensures st.client.outs[i].Ok? || st.client.outs[i].Refused?
      ensures st.client.outs[i].Ok? ==> TookEffectBefore(cfg, st.cmds, st.journal, i, q)
    {
      NoFailureBefore(st.cmds, outs, i, p);
      assert outs[i] == st.client.outs[i];
      if outs[i].Ok? {
        OkTookEffect(cfg, st.cmds, st.journal, outs, i, p, q);
      }
    }
  }

  /** Whenever the server has recorded the id of a `Complete`, every earlier transfer that returned Ok had
      taken effect before, in the server's memory or in the client's; and an earlier transfer that did
      not return Ok was refused by its post. */
  lemma DataBeforeCompletion(cfg: Config, st: State, m: nat) returns (p: nat, q: nat)
    requires Sound(cfg, st) && m < |st.server.recorded|
    ensures CompletedAfterData(cfg, st, st.server.recorded[m], p, q)
  {
    var u := ReachableInv(cfg, st);
    p, q := RecordedSignal(cfg, u, m);
    SaneNow(cfg, u);
    SignalAfterData(cfg, u, st.server.recorded[m], p, q);
  }

  lemma RecordedSignal(cfg: Config, st: State, m: nat) returns (p: nat, q: nat)
    requires Inbox(st) && m < |st.server.recorded|
    ensures q < |st.journal| && st.journal[q] == Signal(p) && p < |st.cmds| && st.cmds[p] == Complete(st.server.recorded[m])
  {
    var n := RecordedFrom(st.server, m);
    var signals := SignalAt(st.journal);
    ReturnedEach(st.cmds, signals, st.server, st.s);
    p := signals[n];
    SignalIsOwn(st.journal, n);
    q :| 0 <= q < |st.journal| && st.journal[q] == Signal(p);
  }

  // ----- Memories

  /** What took effect passed its access checks. */
  lemma LandedIsPermitted(cfg: Config, cmds: seq<Command>, journal: seq<Event>, outs: seq<Outcome>, i: nat)
    requires JournalOk(cfg, cmds, journal) && OwnAt(journal) == LandedAt(outs) && i < |outs| && Landed(outs[i])
    ensures i < |cmds| && (Message(cmds[i]) || (Transfer(cmds[i]) && Allowed(cfg, cmds[i])))
  {
    LandedAtOrdered(outs);
    OwnEvent(journal, i);
    var e :| 0 <= e < |journal| && Own(journal[e]) && journal[e].at == i;
    JournalOkAt(cfg, cmds, journal, e);
  }

  /** Each step of the fold moves the bytes that its command names and no others. */
  predicate MovesInTurn(cfg: Config, cmds: seq<Command>, outs: seq<Outcome>)
    requires ValidConfig(cfg) && |outs| <= |cmds|
  {
    forall i :: 0 <= i < |outs| ==> Moves(cmds[i], outs[i], Fold(cfg, cmds, outs[..i]), Fold(cfg, cmds, outs[..i + 1]))
  }

  lemma FoldMoves(cfg: Config, cmds: seq<Command>, journal: seq<Event>, outs: seq<Outcome>)
    requires ValidConfig(cfg) && |outs| <= |cmds|
    requires JournalOk(cfg, cmds, journal) && OwnAt(journal) == LandedAt(outs)
    ensures MovesInTurn(cfg, cmds, outs)
  {
    forall i | 0 <= i < |outs|
      ensures Moves(cmds[i], outs[i], Fold(cfg, cmds, outs[..i]), Fold(cfg, cmds, outs[..i + 1]))
    {
      if Landed(outs[i]) {
        LandedIsPermitted(cfg, cmds, journal, outs, i);
      }
      assert outs[..i + 1][..i] == outs[..i];
      StepMoves(cfg, cmds[i], outs[i], Fold(cfg, cmds, outs[..i]));
    }
  }

  /** When nobody else writes to the two GPU memories, they are at every moment the fold of
      slice copies over the commands and their outcomes so far. */
  lemma MemoriesAreFold(cfg: Config, st: State)
    requires Sound(cfg, st) && Alone(st.journal)
    ensures ValidConfig(cfg) && |OutcomesNow(st)| <= |st.cmds|
    ensures Memories(st.c.mem, st.s.mem) == Fold(cfg, st.cmds, OutcomesNow(st)) && MovesInTurn(cfg, st.cmds, OutcomesNow(st))
  {
    var u := ReachableInv(cfg, st);
    SaneNow(cfg, u);
    JournalIsFold(cfg, u.cmds, OutcomesNow(u), u.journal);
    FoldMoves(cfg, u.cmds, u.journal, OutcomesNow(u));
  }
}
