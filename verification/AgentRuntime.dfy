/**
 The terminal broadcast shared by all agent managers. Threads check and set the status under
 a lock and send after releasing it, so any two calls may interleave between those points.
 */
module AgentRuntime {
  import opened Wire

  datatype Status = Pending | Running | Finished

  datatype Call =
    | Finish(session: Option<string>)
    | Fail(data: string)
    | Transition(status: Status)
    | Reset(status: Status)

  function Terminal(c: Call): Frame
    requires c.Finish? || c.Fail?
  {
    if c.Finish? then FinishFrame(c.session) else ErrorFrame(Upstream(c.data))
  }

  /** A terminal together with how many resets came before its sender took the lock. */
  datatype Won = Won(frame: Frame, epoch: nat)

  /** `claimed`: threads past the lock with a send still to make. */
  datatype Shared = Shared(status: Option<Status>, resets: nat, claimed: map<nat, Won>, wire: seq<Won>)

  const START := Shared(None, 0, map[], [])

  datatype Move = Lock(thread: nat, c: Call) | Send(thread: nat)

  /** The section under the lock. */
  function Locked(s: Shared, thread: nat, c: Call): Shared {
    match c
    case Transition(status) => if s.status == Some(Finished) then s else s.(status := Some(status))
    case Reset(status) => s.(status := Some(status), resets := s.resets + 1)
    case _ =>
      if s.status == Some(Finished) then s
      else s.(status := Some(Finished), claimed := s.claimed[thread := Won(Terminal(c), s.resets)])
  }

  /** A thread sends what it claimed before it can take the lock again. */
  predicate Enabled(s: Shared, m: Move) {
    if m.Lock? then m.thread !in s.claimed else m.thread in s.claimed
  }

  /** One move; a thread that cannot make it stays where it is. */
  function Act(s: Shared, m: Move): Shared {
    if !Enabled(s, m) then s
    else
      match m
      case Lock(t, c) => Locked(s, t, c)
      case Send(t) => s.(claimed := s.claimed - {t}, wire := s.wire + [s.claimed[t]])
  }

  /** Any interleaving is some sequence of moves. */
  function Play(moves: seq<Move>): Shared {
    if moves == [] then START else Act(Play(moves[..|moves| - 1]), moves[|moves| - 1])
  }

  /** Everything sent or about to be sent belongs to a different turn. */
  ghost predicate OnePerTurn(s: Shared) {
    && (forall i, j | 0 <= i < j < |s.wire| :: s.wire[i].epoch != s.wire[j].epoch)
    && (forall t, u | t in s.claimed && u in s.claimed && t != u :: s.claimed[t].epoch != s.claimed[u].epoch)
    && (forall t, i | t in s.claimed && 0 <= i < |s.wire| :: s.claimed[t].epoch != s.wire[i].epoch)
    && (forall i | 0 <= i < |s.wire| :: s.wire[i].frame.Terminal() && s.wire[i].epoch <= s.resets)
    && (forall t | t in s.claimed :: s.claimed[t].frame.Terminal() && s.claimed[t].epoch <= s.resets)
    // an unfinished turn has no terminal yet
    && (s.status != Some(Finished) ==>
          (forall i | 0 <= i < |s.wire| :: s.wire[i].epoch < s.resets)
          && (forall t | t in s.claimed :: s.claimed[t].epoch < s.resets))
  }

  lemma LockKeepsOnePerTurn(s: Shared, thread: nat, c: Call)
    requires OnePerTurn(s) && thread !in s.claimed
    ensures OnePerTurn(Locked(s, thread, c))
  {
  }

  lemma SendKeepsOnePerTurn(s: Shared, thread: nat)
    requires OnePerTurn(s) && thread in s.claimed
    ensures OnePerTurn(s.(claimed := s.claimed - {thread}, wire := s.wire + [s.claimed[thread]]))
  {
    var n := |s.wire|;
    var t := s.(claimed := s.claimed - {thread}, wire := s.wire + [s.claimed[thread]]);
    assert forall i | 0 <= i < n :: t.wire[i] == s.wire[i];
    assert t.wire[n] == s.claimed[thread];
    assert forall u | u in t.claimed :: u in s.claimed && u != thread && t.claimed[u] == s.claimed[u];
  }

  lemma ActKeepsOnePerTurn(s: Shared, m: Move)
    requires OnePerTurn(s)
    ensures OnePerTurn(Act(s, m))
  {
    hide OnePerTurn, Locked;
    if Enabled(s, m) {
      match m
      case Lock(thread, c) => LockKeepsOnePerTurn(s, thread, c);
      case Send(thread) => SendKeepsOnePerTurn(s, thread);
    }
  }

  /**
   Safety under every interleaving of any number of threads: no two terminals, sent or about
   to be, belong to the same turn, and a turn not yet finished has none.
   */
  lemma {:induction false} AtMostOneTerminalPerTurn(moves: seq<Move>)
    ensures OnePerTurn(Play(moves))
  {
    if moves != [] {
      AtMostOneTerminalPerTurn(moves[..|moves| - 1]);
      ActKeepsOnePerTurn(Play(moves[..|moves| - 1]), moves[|moves| - 1]);
    }
  }

  // ---- the count ----

  lemma {:induction false} FewBelow(s: set<nat>, n: nat)
    requires forall x | x in s :: x < n
    ensures |s| <= n
  {
    if n > 0 {
      FewBelow(s - {n - 1}, n - 1);
      assert s <= (s - {n - 1}) + {n - 1};
    } else {
      assert s == {};
    }
  }

  function WireEpochs(wire: seq<Won>): set<nat> {
    set i | 0 <= i < |wire| :: wire[i].epoch
  }

  lemma {:induction false} WireEpochsSize(wire: seq<Won>)
    requires forall i, j | 0 <= i < j < |wire| :: wire[i].epoch != wire[j].epoch
    ensures |WireEpochs(wire)| == |wire|
  {
    if wire != [] {
      var n := |wire| - 1;
      WireEpochsSize(wire[..n]);
      assert WireEpochs(wire) == WireEpochs(wire[..n]) + {wire[n].epoch} by {
        assert forall i | 0 <= i < n :: wire[..n][i] == wire[i];
      }
    }
  }

  function ClaimedEpochs(claimed: map<nat, Won>): set<nat> {
    set t | t in claimed :: claimed[t].epoch
  }

  predicate DistinctEpochs(claimed: map<nat, Won>) {
    forall t, u | t in claimed && u in claimed && t != u :: claimed[t].epoch != claimed[u].epoch
  }

  lemma DropClaim(claimed: map<nat, Won>, t: nat)
    requires t in claimed && DistinctEpochs(claimed)
    ensures DistinctEpochs(claimed - {t})
    ensures ClaimedEpochs(claimed) == ClaimedEpochs(claimed - {t}) + {claimed[t].epoch}
    ensures claimed[t].epoch !in ClaimedEpochs(claimed - {t})
    ensures claimed.Keys == (claimed - {t}).Keys + {t}
  {
    var rest := claimed - {t};
    assert forall u | u in rest :: u in claimed && rest[u] == claimed[u];
    forall e | e in ClaimedEpochs(claimed) ensures e in ClaimedEpochs(rest) + {claimed[t].epoch} {
      var u :| u in claimed && claimed[u].epoch == e;
      assert u != t ==> u in rest;
    }
  }

  lemma {:induction false} ClaimedEpochsSize(claimed: map<nat, Won>)
    requires DistinctEpochs(claimed)
    ensures |ClaimedEpochs(claimed)| == |claimed|
    decreases |claimed|
  {
    if claimed == map[] {
      assert ClaimedEpochs(claimed) == {};
    } else {
      var t :| t in claimed;
      DropClaim(claimed, t);
      hide ClaimedEpochs, DistinctEpochs;
      assert |claimed - {t}| == |claimed| - 1;
      ClaimedEpochsSize(claimed - {t});
    }
  }

  /** Terminals broadcast plus sends still to come never exceed one more than the resets. */
  lemma {:induction false} TerminalsBoundedByResets(moves: seq<Move>)
    ensures var s := Play(moves);
      |s.wire| + |s.claimed| + (if s.status == Some(Finished) then 0 else 1) <= 1 + s.resets
  {
    hide Play, OnePerTurn, WireEpochs, ClaimedEpochs, DistinctEpochs;
    var s := Play(moves);
    AtMostOneTerminalPerTurn(moves);
    EpochsApart(s);
    WireEpochsSize(s.wire);
    ClaimedEpochsSize(s.claimed);
    FewBelow(WireEpochs(s.wire) + ClaimedEpochs(s.claimed),
             if s.status == Some(Finished) then s.resets + 1 else s.resets);
  }

  lemma EpochsApart(s: Shared)
    requires OnePerTurn(s)
    ensures forall i, j | 0 <= i < j < |s.wire| :: s.wire[i].epoch != s.wire[j].epoch
    ensures DistinctEpochs(s.claimed)
    ensures WireEpochs(s.wire) !! ClaimedEpochs(s.claimed)
    ensures forall e | e in WireEpochs(s.wire) + ClaimedEpochs(s.claimed) ::
              e < if s.status == Some(Finished) then s.resets + 1 else s.resets
  {
  }

  // ---- a terminal does go out ----

  /**
   Claiming is exact. The first Finish or Fail to take the lock of an unfinished turn finishes it
   and leaves its own frame pending, and nothing else; a later one changes nothing at all.
   */
  lemma FirstEmitClaims(s: Shared, thread: nat, c: Call)
    requires thread !in s.claimed && (c.Finish? || c.Fail?)
    ensures var frame := match c case Finish(session) => FinishFrame(session) case _ => ErrorFrame(Upstream(c.data));
      var after := Act(s, Lock(thread, c));
      if s.status == Some(Finished) then after == s
      else
        after == Shared(Some(Finished), s.resets, s.claimed[thread := Won(frame, s.resets)], s.wire)
  {
  }

  /** A pending frame goes out when its thread comes to send it, and is then pending no more. */
  lemma PendingIsSent(s: Shared, thread: nat)
    requires thread in s.claimed
    ensures var after := Act(s, Send(thread));
      && after.wire == s.wire + [s.claimed[thread]]
      && thread !in after.claimed
      && (forall t | t in s.claimed && t != thread :: t in after.claimed && after.claimed[t] == s.claimed[t])
      && after.status == s.status && after.resets == s.resets
  {
  }

  /** No call sets the status to Finished on its own; only the emitters finish turns. */
  predicate OnlyEmitsFinish(moves: seq<Move>) {
    forall m | m in moves && m.Lock? ::
      m.c != Transition(Status.Finished) && m.c != Reset(Status.Finished)
  }

  /** The current turn has a terminal, on the wire or pending. */
  ghost predicate HasTerminal(s: Shared) {
    || (exists i | 0 <= i < |s.wire| :: s.wire[i].epoch == s.resets)
    || (exists t | t in s.claimed :: s.claimed[t].epoch == s.resets)
  }

  lemma LockKeepsTerminal(s: Shared, thread: nat, c: Call)
    requires OnePerTurn(s) && thread !in s.claimed
    requires c != Transition(Status.Finished) && c != Reset(Status.Finished)
    requires s.status == Some(Finished) <==> HasTerminal(s)
    ensures Locked(s, thread, c).status == Some(Finished) <==> HasTerminal(Locked(s, thread, c))
  {
    var after := Locked(s, thread, c);
    if after.claimed != s.claimed {
      assert thread in after.claimed && after.claimed[thread].epoch == after.resets;
    }
    if after.resets == s.resets && after.claimed == s.claimed {
      assert HasTerminal(after) <==> HasTerminal(s);
    }
  }

  lemma SendKeepsTerminal(s: Shared, thread: nat)
    requires thread in s.claimed
    ensures HasTerminal(Act(s, Send(thread))) <==> HasTerminal(s)
  {
    var after := Act(s, Send(thread));
    var n := |s.wire|;
    assert after.wire[n] == s.claimed[thread];
    assert forall i | 0 <= i < n :: after.wire[i] == s.wire[i];
    assert forall t | t in after.claimed :: t in s.claimed && after.claimed[t] == s.claimed[t];
    if t :| t in s.claimed && s.claimed[t].epoch == s.resets {
      if t != thread {
        assert t in after.claimed;
      }
    }
    if i :| 0 <= i < n && s.wire[i].epoch == s.resets {
      assert after.wire[i].epoch == s.resets;
    }
  }

  lemma ActKeepsTerminal(s: Shared, m: Move)
    requires OnePerTurn(s) && (s.status == Some(Finished) <==> HasTerminal(s))
    requires m.Lock? ==> m.c != Transition(Status.Finished) && m.c != Reset(Status.Finished)
    ensures Act(s, m).status == Some(Finished) <==> HasTerminal(Act(s, m))
  {
    hide OnePerTurn, HasTerminal, Locked;
    if Enabled(s, m) {
      match m
      case Lock(thread, c) => LockKeepsTerminal(s, thread, c);
      case Send(thread) =>
        SendKeepsTerminal(s, thread);
        PendingIsSent(s, thread);
    }
  }

  /**
   No terminal is lost. Under every interleaving in which only the emitters finish turns, the
   status is Finished if and only if the current turn's terminal is on the wire or pending; and
   no other terminal of that turn is (`AtMostOneTerminalPerTurn`).
   */
  lemma {:induction false} FinishedMeansATerminal(moves: seq<Move>)
    requires OnlyEmitsFinish(moves)
    ensures Play(moves).status == Some(Finished) <==> HasTerminal(Play(moves))
  {
    hide OnePerTurn, HasTerminal, Act;
    if moves == [] {
      NothingPlayed();
    } else {
      var n := |moves| - 1;
      FinishedMeansATerminal(moves[..n]);
      AtMostOneTerminalPerTurn(moves[..n]);
      assert moves[n] in moves;
      ActKeepsTerminal(Play(moves[..n]), moves[n]);
    }
  }

  lemma NothingPlayed()
    ensures !HasTerminal(START) && Play([]) == START
  {
  }

  // ---- the object ----

  class Runtime {
    var status: Option<Status>
    var wire: seq<Frame>

    constructor ()
      ensures status == None && wire == []
    {
      status, wire := None, [];
    }

    /** Finished is absorbing here. */
    method TransitionTo(next: Status)
      modifies this`status
      ensures status == if old(status) == Some(Finished) then old(status) else Some(next)
    {
      if status == Some(Finished) {
        return;
      }
      status := Some(next);
    }

    method ResetForNewTurn(next: Status)
      modifies this`status
      ensures status == Some(next)
    {
      status := Some(next);
    }

    method EmitFinish(session: Option<string>)
      modifies this
      ensures Uninterrupted(old(status), old(wire), Finish(session), status, wire)
      ensures status == Some(Finished)
      ensures wire == if old(status) == Some(Finished) then old(wire) else old(wire) + [FinishFrame(session)]
    {
      var already := status == Some(Finished);
      if !already {
        status := Some(Finished);
      }
      if already {
        return;
      }
      wire := wire + [FinishFrame(session)];
    }

    method EmitErrorData(data: string)
      modifies this
      ensures Uninterrupted(old(status), old(wire), Fail(data), status, wire)
      ensures status == Some(Finished)
      ensures wire == if old(status) == Some(Finished) then old(wire) else old(wire) + [ErrorFrame(Upstream(data))]
    {
      var already := status == Some(Finished);
      if !already {
        status := Some(Finished);
      }
      if already {
        return;
      }
      wire := wire + [ErrorFrame(Upstream(data))];
    }
  }

  /** One emitting call with nothing in between: its lock section, then its send if it won. */
  predicate Uninterrupted(status: Option<Status>, wire: seq<Frame>, c: Call, status': Option<Status>,
                          wire': seq<Frame>)
    requires c.Finish? || c.Fail?
  {
    var after := Locked(Shared(status, 0, map[], []), 0, c);
    && status' == after.status
    && wire' == if 0 in after.claimed then wire + [after.claimed[0].frame] else wire
  }
}
