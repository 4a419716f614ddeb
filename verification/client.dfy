/**
 * The Clerk: the client handle of the primary/backup lock service. It holds the two
 * server addresses (primary first), a cached belief that the primary is reachable,
 * and its own identifier. Lock and Unlock try the primary while it is believed up,
 * fall back once to the backup, and report the answering server's verdict.
 *
 * The RPC primitive is an oracle: for an attempt (primary or backup) and its call
 * (address, RPC name, arguments) it says whether the call failed or which reply came
 * back. Random draws are parameters.
 */
module Client {
  import opened Decimal
  import opened RequestIds
  import opened Common

  /** Which of the two servers a call went to. */
  datatype Server = Primary | Backup

  /** What the RPC primitive reports: no answer, or a reply. */
  datatype Outcome<R> = Failed | Replied(reply: R)

  /** One RPC as the Clerk issues it. */
  datatype Call<A> = Call(server: string, rpcname: string, args: A)

  /** The effect of one Lock or Unlock call on the failover state machine. */
  datatype Step<R> = Step(answer: Outcome<R>, primaryActive: bool, contacted: seq<Server>)

  const LockRpc: string := "LockServer.Lock"
  const UnlockRpc: string := "LockServer.Unlock"

  /**
   * The failover protocol as a case table, given what each server would answer to
   * this call's arguments. The primary is tried only while believed up, the backup
   * only when the primary was skipped or failed, and the belief afterwards is
   * whether the primary answered (false stays false).
   */
  function Failover<R>(active: bool, primary: Outcome<R>, backup: Outcome<R>): (s: Step<R>)
    ensures !active ==> s.contacted == [Backup]
    ensures active ==> |s.contacted| > 0 && s.contacted[0] == Primary
    ensures Primary in s.contacted <==> active
    ensures Backup in s.contacted <==> (!active || primary.Failed?)
    ensures |s.contacted| == (if active && primary.Failed? then 2 else 1)
    ensures s.primaryActive <==> active && primary.Replied?
    ensures s.answer.Failed? <==> (active ==> primary.Failed?) && backup.Failed?
    ensures s.answer.Replied? ==> s.answer == (if Backup in s.contacted then backup else primary)
  {
    if !active then Step(backup, false, [Backup])
    else if primary.Replied? then Step(primary, true, [Primary])
    else Step(backup, false, [Primary, Backup])
  }

  /** The address a call to `which` goes to. */
  function Address(servers: seq<string>, which: Server): string
    requires |servers| == 2
  {
    if which == Primary then servers[0] else servers[1]
  }

  /**
   * A sequence of Lock/Unlock calls, each given as what the primary and the backup
   * would answer: the step each call takes, starting from belief `active`.
   */
  function Replay<R>(active: bool, rounds: seq<(Outcome<R>, Outcome<R>)>): (steps: seq<Step<R>>)
    ensures |steps| == |rounds|
    ensures forall i :: 0 <= i < |rounds| ==>
      steps[i] == Failover(if i == 0 then active else steps[i - 1].primaryActive, rounds[i].0, rounds[i].1)
  {
    if rounds == [] then []
    else
      var s := Failover(active, rounds[0].0, rounds[0].1);
      [s] + Replay(s.primaryActive, rounds[1..])
  }

  /** Once the primary is believed down, every later call goes to the backup alone and the belief stays false. */
  lemma {:induction false} DownStaysDown<R>(rounds: seq<(Outcome<R>, Outcome<R>)>)
    ensures forall i :: 0 <= i < |rounds| ==>
      Replay(false, rounds)[i].contacted == [Backup] && !Replay(false, rounds)[i].primaryActive
  {
    if rounds != [] {
      DownStaysDown(rounds[1..]);
    }
  }

  /** Starting up, the belief after call k is true exactly when the primary answered every call up to k. */
  lemma {:induction false} UpWhilePrimaryAnswers<R>(rounds: seq<(Outcome<R>, Outcome<R>)>, k: nat)
    requires k < |rounds|
    ensures Replay(true, rounds)[k].primaryActive <==> forall i :: 0 <= i <= k ==> rounds[i].0.Replied?
  {
    if k > 0 {
      if rounds[0].0.Replied? {
        UpWhilePrimaryAnswers(rounds[1..], k - 1);
        assert forall i :: 1 <= i <= k ==> rounds[i] == rounds[1..][i - 1];
      } else {
        DownStaysDown(rounds[1..]);
      }
    }
  }

  /** After a call that leaves the primary believed down, every later call goes to the backup alone. */
  lemma {:induction false} StaysDownAfter<R>(active: bool, rounds: seq<(Outcome<R>, Outcome<R>)>, i: nat, j: nat)
    requires i < j < |rounds|
    requires !Replay(active, rounds)[i].primaryActive
    ensures Replay(active, rounds)[j].contacted == [Backup] && !Replay(active, rounds)[j].primaryActive
  {
    if j > i + 1 {
      StaysDownAfter(active, rounds, i, j - 1);
    }
  }

  /** A primary that failed to answer is never contacted again by the same clerk. */
  lemma PrimaryFailsAtMostOnce<R>(active: bool, rounds: seq<(Outcome<R>, Outcome<R>)>, i: nat, j: nat)
    requires i < j < |rounds|
    requires Primary in Replay(active, rounds)[i].contacted && rounds[i].0.Failed?
    ensures Primary !in Replay(active, rounds)[j].contacted
  {
    var steps := Replay(active, rounds);
    var before := if i == 0 then active else steps[i - 1].primaryActive;
    assert steps[i] == Failover(before, rounds[i].0, rounds[i].1);
    StaysDownAfter(active, rounds, i, j);
  }

  /** The outcome a server gives: its reply when reachable, a failure otherwise. */
  function Reach<R>(up: bool, reply: R): (o: Outcome<R>)
    ensures o.Replied? <==> up
  {
    if up then Replied(reply) else Failed
  }

  /**
   * End to end: on a table where `name` is free, a Lock and then an Unlock of it,
   * each reaching a server that answers from that table, return true and true,
   * and the table is as before.
   */
  lemma LockThenUnlockSucceeds(active: bool, held: set<string>, name: string, lockId: string, unlockId: string,
                               primaryUp1: bool, backupUp1: bool, primaryUp2: bool, backupUp2: bool)
    requires name !in held
    requires (active && primaryUp1) || backupUp1
    requires (active && primaryUp1 && primaryUp2) || backupUp2
    ensures var l := ServeLock(held, LockArgs(name, lockId));
            var s1 := Failover(active, Reach(primaryUp1, l.reply), Reach(backupUp1, l.reply));
            var u := ServeUnlock(l.held, UnlockArgs(name, unlockId));
            var s2 := Failover(s1.primaryActive, Reach(primaryUp2, u.reply), Reach(backupUp2, u.reply));
            && s1.answer == Replied(l.reply) && l.reply.ok
            && s2.answer == Replied(u.reply) && u.reply.ok
            && u.held == held
  {
  }

  class Clerk {
    var servers: seq<string>   // primary address, backup address
    var primaryActive: bool
    var uuid: string

    /** Two addresses, and an identifier that renders a draw from [0, 2^62). */
    predicate Valid()
      reads this
    {
      |servers| == 2 && IsDecimal(uuid) && Atoi(uuid) < RandBound
    }

    /** MakeClerk: primary first, primary believed up, identifier from one draw. */
    constructor MakeClerk(primary: string, backup: string, draw: nat)
      requires draw < RandBound
      ensures Valid()
      ensures servers == [primary, backup] && primaryActive && uuid == Itoa(draw)
    {
      servers := [primary, backup];
      primaryActive := true;
      uuid := Itoa(draw);
      AtoiItoa(draw);
    }

    /**
     * Asks for the lock `lockname`; `draw` is the fresh random value of the request
     * identifier and `rpc` the network, answering each attempt (to the primary, then
   * to the backup) on its own, since every attempt dials afresh. Returns whether the lock was granted and the
     * calls sent, in order.
     */
    method Lock(lockname: string, draw: nat, rpc: (Server, Call<LockArgs>) -> Outcome<LockReply>)
      returns (granted: bool, sent: seq<Call<LockArgs>>)
      requires Valid() && draw < RandBound
      modifies this`primaryActive
      ensures Valid() && servers == old(servers) && uuid == old(uuid)
      ensures !old(primaryActive) ==> !primaryActive
      ensures var args := LockArgs(lockname, ReqUuid(uuid, draw));
              var s := Failover(old(primaryActive), rpc(Primary, Call(servers[0], LockRpc, args)),
                                rpc(Backup, Call(servers[1], LockRpc, args)));
              && primaryActive == s.primaryActive
              && granted == (s.answer.Replied? && s.answer.reply.ok)
              && |sent| == |s.contacted|
              && forall i :: 0 <= i < |sent| ==> sent[i] == Call(Address(servers, s.contacted[i]), LockRpc, args)
    {
      var args := LockArgs(lockname, ReqUuid(uuid, draw));
      var outcome: Outcome<LockReply> := Failed;
      var ok := false;
      sent := [];
      if primaryActive {
        var c := Call(servers[0], LockRpc, args);
        outcome := rpc(Primary, c);
        sent := sent + [c];
        ok := outcome.Replied?;
        primaryActive := ok;
      }
      if !ok {
        var c := Call(servers[1], LockRpc, args);
        outcome := rpc(Backup, c);
        sent := sent + [c];
        ok := outcome.Replied?;
      }
      if !ok {
        return false, sent;
      }
      granted := outcome.reply.ok;
    }

    /**
     * Asks to release the lock `lockname`. Returns whether the lock was held and the
     * calls sent, in order.
     */
    method Unlock(lockname: string, draw: nat, rpc: (Server, Call<UnlockArgs>) -> Outcome<UnlockReply>)
      returns (wasHeld: bool, sent: seq<Call<UnlockArgs>>)
      requires Valid() && draw < RandBound
      modifies this`primaryActive
      ensures Valid() && servers == old(servers) && uuid == old(uuid)
      ensures !old(primaryActive) ==> !primaryActive
      ensures var args := UnlockArgs(lockname, ReqUuid(uuid, draw));
              var s := Failover(old(primaryActive), rpc(Primary, Call(servers[0], UnlockRpc, args)),
                                rpc(Backup, Call(servers[1], UnlockRpc, args)));
              && primaryActive == s.primaryActive
              && wasHeld == (s.answer.Replied? && s.answer.reply.ok)
              && |sent| == |s.contacted|
              && forall i :: 0 <= i < |sent| ==> sent[i] == Call(Address(servers, s.contacted[i]), UnlockRpc, args)
    {
      var args := UnlockArgs(lockname, ReqUuid(uuid, draw));
      var outcome: Outcome<UnlockReply> := Failed;
      var ok := false;
      sent := [];
      if primaryActive {
        var c := Call(servers[0], UnlockRpc, args);
        outcome := rpc(Primary, c);
        sent := sent + [c];
        ok := outcome.Replied?;
        primaryActive := ok;
      }
      if !ok {
        var c := Call(servers[1], UnlockRpc, args);
        outcome := rpc(Backup, c);
        sent := sent + [c];
        ok := outcome.Replied?;
      }
      if !ok {
        return false, sent;
      }
      wasHeld := outcome.reply.ok;
    }
  }

  /**
   * A clerk on ("A", "B") whose primary is unreachable and whose backup grants
   * everything: the first Lock tries A, then B, is granted and demotes A; the
   * second Lock goes to B alone.
   */
  method FailoverScenario()
  {
    var ck := new Clerk.MakeClerk("A", "B", 7);
    var network := (attempt: Server, c: Call<LockArgs>) =>
      if c.server == "A" then Failed else Replied(LockReply(true, c.args.uuid));
    var granted, sent := ck.Lock("file1", 11, network);
    assert granted && !ck.primaryActive;
    assert |sent| == 2 && sent[0].server == "A" && sent[1].server == "B";
    granted, sent := ck.Lock("file2", 12, network);
    assert granted && |sent| == 1 && sent[0].server == "B";
  }

  /**
   * A clerk whose primary and backup share one address: the primary attempt fails,
   * the backup attempt to the same address answers, and the lock is granted.
   */
  method SameAddressScenario()
  {
    var ck := new Clerk.MakeClerk("A", "A", 7);
    var network := (attempt: Server, c: Call<LockArgs>) =>
      if attempt == Primary then Failed else Replied(LockReply(true, c.args.uuid));
    var granted, sent := ck.Lock("file1", 11, network);
    assert granted && !ck.primaryActive && |sent| == 2 && sent[0] == sent[1];
  }
}
