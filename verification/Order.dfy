/** Exactly when the server gets the client's messages without a gap. */
module Order {
  import opened Commands
  import opened Journal
  import opened Protocol
  import opened Invariant
  import opened Shadows
  import opened Delivery
  import opened Reports

  /** The positions of the messages among the commands. */
  function MessagesAt(cmds: seq<Command>): seq<nat> {
    if cmds == [] then [] else
      var n := |cmds| - 1;
      MessagesAt(cmds[..n]) + if Message(cmds[n]) then [n] else []
  }

  lemma {:induction false} MessagesAtMembers(cmds: seq<Command>)
    ensures forall i: nat :: i in MessagesAt(cmds) <==> i < |cmds| && Message(cmds[i])
    ensures Increasing(MessagesAt(cmds))
  {
    if cmds != [] {
      var n := |cmds| - 1;
      MessagesAtMembers(cmds[..n]);
      if Message(cmds[n]) {
        AppendsIncreasing(MessagesAt(cmds[..n]), n);
      }
      forall i: nat
        ensures i in MessagesAt(cmds) <==> i < |cmds| && Message(cmds[i])
      {
        MessageMember(cmds, i);
      }
    }
  }

  lemma MessageMember(cmds: seq<Command>, i: nat)
    requires cmds != [] && (i in MessagesAt(cmds[..|cmds| - 1]) <==> i < |cmds| - 1 && Message(cmds[..|cmds| - 1][i]))
    ensures i in MessagesAt(cmds) <==> i < |cmds| && Message(cmds[i])
  {
  }

  lemma {:induction false} NotesAreAt(cmds: seq<Command>)
    ensures |Notes(cmds)| == |MessagesAt(cmds)|
    ensures forall m :: 0 <= m < |Notes(cmds)| ==> MessagesAt(cmds)[m] < |cmds| && Notes(cmds)[m] == NoteOf(cmds[MessagesAt(cmds)[m]])
  {
    if cmds != [] {
      NotesAreAt(cmds[..|cmds| - 1]);
    }
  }

  /** Whatever of `all` lies below a member of `part` is in `part`. */
  predicate ClosedBelow(all: seq<nat>, part: seq<nat>) {
    forall i, j :: i in all && j in part && i < j ==> i in part
  }

  lemma ClosedIsPrefix(all: seq<nat>, part: seq<nat>)
    requires Increasing(all) && Increasing(part) && (forall j :: j in part ==> j in all)
    ensures ClosedBelow(all, part) <==> part <= all
  {
    if ClosedBelow(all, part) {
      ClosedMeansPrefix(all, part);
    }
    if part <= all {
      PrefixIsClosed(all, part);
    }
  }

  lemma PrefixIsClosed(all: seq<nat>, part: seq<nat>)
    requires Increasing(all) && part <= all
    ensures ClosedBelow(all, part)
  {
    forall i, j | i in all && j in part && i < j
      ensures i in part
    {
      var x :| 0 <= x < |all| && all[x] == i;
      var y :| 0 <= y < |part| && part[y] == j;
      assert all[y] == j;
      assert part[x] == all[x];
    }
  }

  lemma {:induction false} ClosedMeansPrefix(all: seq<nat>, part: seq<nat>)
    requires Increasing(all) && Increasing(part) && (forall j :: j in part ==> j in all) && ClosedBelow(all, part)
    ensures part <= all
  {
    if part != [] {
      ClosedBefore(all, part);
      ClosedMeansPrefix(all, part[..|part| - 1]);
      NextMember(all, part);
    }
  }

  lemma ClosedBefore(all: seq<nat>, part: seq<nat>)
    requires Increasing(part) && (forall j :: j in part ==> j in all) && ClosedBelow(all, part) && part != []
    ensures var before := part[..|part| - 1]; Increasing(before) && ClosedBelow(all, before) && forall j :: j in before ==> j in all
  {
    var n := |part| - 1;
    var before := part[..n];
    assert forall y :: 0 <= y < n ==> before[y] in part;
    forall i, j | i in all && j in before && i < j
      ensures i in before
    {
      var y :| 0 <= y < n && before[y] == j;
      assert part[y] in part;
      var x :| 0 <= x < |part| && part[x] == i;
      assert before[x] == i;
    }
  }

  /** The first member not yet in a closed prefix comes next. */
  lemma NextMember(all: seq<nat>, part: seq<nat>)
    requires Increasing(all) && Increasing(part) && (forall j :: j in part ==> j in all) && ClosedBelow(all, part)
    requires part != [] && part[..|part| - 1] <= all
    ensures part <= all
  {
    var n := |part| - 1;
    assert part[n] in part;
    var x :| 0 <= x < |all| && all[x] == part[n];
    assert forall y :: 0 <= y < n ==> part[y] == part[..n][y] == all[y];
    if x > n {
      assert all[n] in all && all[n] < part[n];
      var y :| 0 <= y < |part| && part[y] == all[n];
    }
  }

  /** The positions of the messages that the server has returned. */
  function ReturnedAt(st: State): seq<nat> {
    if |st.server.returned| <= |SignalAt(st.journal)| then SignalAt(st.journal)[..|st.server.returned|] else []
  }

  /** No message in the list was submitted after one whose post was refused. */
  predicate NoneSkipped(cmds: seq<Command>, outs: seq<Outcome>, at: seq<nat>) {
    forall i, j :: 0 <= i < |outs| && i < |cmds| && Message(cmds[i]) && outs[i].Refused? && j in at ==> j <= i
  }

  /** A list of landed messages that has all earlier landed ones with each. */
  predicate FirstLanded(cmds: seq<Command>, outs: seq<Outcome>, at: seq<nat>) {
    Increasing(at)
    && (forall j :: j in at ==> j < |cmds| && Message(cmds[j]) && j < |outs| && Landed(outs[j]))
    && (forall i, j :: 0 <= i < j && j in at && i < |outs| && i < |cmds| && Message(cmds[i]) && Landed(outs[i]) ==> i in at)
  }

  lemma SkipsNoneIff(cmds: seq<Command>, outs: seq<Outcome>, at: seq<nat>)
    requires Sane(cmds, outs) && FirstLanded(cmds, outs, at)
    ensures at <= MessagesAt(cmds) <==> NoneSkipped(cmds, outs, at)
  {
    MessagesAtMembers(cmds);
    var all := MessagesAt(cmds);
    ClosedIsPrefix(all, at);
    if NoneSkipped(cmds, outs, at) {
      forall i, j | i in all && j in at && i < j
        ensures i in at
      {
        assert !outs[i].Skipped? && !outs[i].Refused? && !outs[i].Failed?;
      }
    }
    if ClosedBelow(all, at) {
      forall i, j | 0 <= i < |outs| && i < |cmds| && Message(cmds[i]) && outs[i].Refused? && j in at
        ensures j <= i
      {
        assert i in all;
      }
    }
  }

  lemma ReturnedFirst(cfg: Config, st: State)
    requires Core(cfg, st)
    ensures |st.server.returned| <= |SignalAt(st.journal)|
    ensures Sane(st.cmds, OutcomesNow(st)) && FirstLanded(st.cmds, OutcomesNow(st), ReturnedAt(st))
    ensures forall m :: 0 <= m < |st.server.returned| ==>
                          ReturnedAt(st)[m] < |st.cmds| && st.server.returned[m] == NoteOf(st.cmds[ReturnedAt(st)[m]])
  {
    SaneNow(cfg, st);
    ReturnedEach(st.cmds, SignalAt(st.journal), st.server, st.s);
    SignalsFirst(cfg, st.cmds, OutcomesNow(st), st.journal, |st.server.returned|);
  }

  lemma SignalsFirst(cfg: Config, cmds: seq<Command>, outs: seq<Outcome>, j: seq<Event>, r: nat)
    requires JournalOk(cfg, cmds, j) && OwnAt(j) == LandedAt(outs) && r <= |SignalAt(j)|
    requires forall m :: 0 <= m < |SignalAt(j)| ==> SignalAt(j)[m] < |cmds| && Message(cmds[SignalAt(j)[m]])
    ensures FirstLanded(cmds, outs, SignalAt(j)[..r])
  {
    LandedAtOrdered(outs);
    SignalsInOrder(j);
    var signals := SignalAt(j);
    forall k | k in signals[..r]
      ensures k < |cmds| && Message(cmds[k]) && k < |outs| && Landed(outs[k])
    {
      var y :| 0 <= y < r && signals[..r][y] == k;
      assert signals[y] in signals;
    }
    forall i, k | 0 <= i < k && k in signals[..r] && i < |outs| && i < |cmds| && Message(cmds[i]) && Landed(outs[i])
      ensures i in signals[..r]
    {
      SignalsOfMessages(cfg, cmds, j, i);
      InFirst(signals, r, i, k);
    }
  }

  lemma InFirst(s: seq<nat>, r: nat, i: nat, k: nat)
    requires Increasing(s) && r <= |s| && i in s && k in s[..r] && i < k
    ensures i in s[..r]
  {
    var x :| 0 <= x < |s| && s[x] == i;
    var y :| 0 <= y < r && s[..r][y] == k;
    assert s[y] == k;
    assert s[..r][x] == i;
  }

  /** The messages that the server has returned are the first ones submitted, without a gap, if and only
      if none of them was submitted after a message whose post was refused. */
  lemma GapFreeIff(cfg: Config, st: State)
    requires Sound(cfg, st)
    ensures |ReturnedAt(st)| == |st.server.returned|
    ensures forall m :: 0 <= m < |st.server.returned| ==>
                          ReturnedAt(st)[m] < |st.cmds| && st.server.returned[m] == NoteOf(st.cmds[ReturnedAt(st)[m]])
    ensures ReturnedAt(st) <= MessagesAt(st.cmds) <==> NoneSkipped(st.cmds, st.client.outs, ReturnedAt(st))
    ensures ReturnedAt(st) <= MessagesAt(st.cmds) ==> st.server.returned <= Notes(st.cmds)
  {
    var u := ReachableInv(cfg, st);
    ReturnedFirst(cfg, u);
    SkipsNoneIff(u.cmds, OutcomesNow(u), ReturnedAt(u));
    SkippedNow(u, ReturnedAt(u));
    NotesAreAt(u.cmds);
    assert ReturnedAt(st) == ReturnedAt(u);
  }

  /** The command whose completion is not polled yet was not refused. */
  lemma SkippedNow(st: State, at: seq<nat>)
    ensures NoneSkipped(st.cmds, OutcomesNow(st), at) <==> NoneSkipped(st.cmds, st.client.outs, at)
  {
    assert forall i :: 0 <= i < |st.client.outs| ==> OutcomesNow(st)[i] == st.client.outs[i];
  }
}
