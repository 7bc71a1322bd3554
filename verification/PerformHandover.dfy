/**
 * pkg/daemon/takeover.go performHandover and pkg/host/handover.go PauseReader/ResumeReader over the
 * old daemon's own objects, with every outcome the environment decides as an input. The children,
 * the new daemon and their interleavings are in module Handover.
 */
module PerformHandover {
  import opened Bytes
  import opened RingBuffer
  import H = Handover

  const ACK: byte := 0x41 // 'A', ctrlAck

  /** What the environment answers: per session, whether each SetReadDeadline and each send works. */
  datatype Answers = Answers(
    pauseOk: nat -> bool, dialOk: bool, sendOk: nat -> bool, finOk: bool, ack: Option<byte>,
    resumeOk: nat -> bool, relistenOk: bool)

  class PtySession {
    const ring: Ring
    var exited: bool
    var paused: bool
    var deadline: bool
    /** How many readPump goroutines are running. */
    var pumps: nat

    constructor (ring: Ring)
      ensures this.ring == ring && !exited && !paused && !deadline && pumps == 1
    {
      this.ring, exited, paused, deadline, pumps := ring, false, false, false, 1;
    }

    /** Serving: a running session has its one pump. */
    predicate Serving()
      reads this
    {
      !exited ==> !paused && !deadline && pumps == 1
    }

    /** The old daemon's part of a session of module Handover. */
    ghost function State(): H.Sess
      reads this, ring, ring.buf
    {
      H.Sess(ring.buf.Length, [], false, [], [], if ring.Valid() then ring.Abs() else Empty,
             seq(pumps, _ => []), exited, paused, deadline, None, [], false, false)
    }

    /** Its wait included, so there is one pump to wait for, or it has left in an earlier pause. */
    method PauseReader(deadlineOk: bool) returns (ok: bool)
      requires !exited ==> pumps == 1 || (pumps == 0 && paused)
      modifies this
      ensures ok == (old(exited) || deadlineOk)
      ensures State() ==
        var s := H.Paused(old(State()), deadlineOk); if !old(exited) && deadlineOk then H.Stopped(s, 0) else s
      ensures exited == old(exited) && pumps == (if !exited && deadlineOk then 0 else old(pumps))
    {
      if exited {
        return true;
      }
      paused := true;
      if !deadlineOk {
        return false;
      }
      deadline := true;
      pumps := 0; // the pump sees the deadline and the flag, and leaves
      return true;
    }

    method ResumeReader(deadlineOk: bool) returns (ok: bool)
      modifies this
      ensures ok == (old(exited) || !old(paused) || deadlineOk)
      ensures State() == H.Resumed(old(State()), deadlineOk)
      ensures exited == old(exited) && pumps == old(pumps) + (if !exited && old(paused) && deadlineOk then 1 else 0)
    {
      if exited || !paused {
        return true;
      }
      paused := false;
      if !deadlineOk {
        return false;
      }
      deadline := false;
      pumps := pumps + 1;
      assert State().oldPumps == old(State()).oldPumps + [[]];
      return true;
    }

    method HandoverState() returns (s: H.Snap)
      requires ring.Valid()
      ensures s == H.SnapOf(State())
    {
      var data, endSeq := ring.Snapshot();
      return H.Snap(data, endSeq, ring.buf.Length, !exited);
    }
  }

  /** Session i when pausing has stopped at session k: frozen before it, untouched after it. */
  predicate PausedUpTo(s: PtySession, i: nat, k: nat)
    reads s
  {
    s.exited
    || (i < k && s.paused && s.deadline && s.pumps == 0)
    || (i == k && s.paused && !s.deadline && s.pumps == 1)
    || (i > k && s.Serving())
  }

  /** Session i after the rollback of pauses that stopped at session k. */
  predicate RolledBack(s: PtySession, i: nat, k: nat, resumeOk: bool)
    reads s
  {
    s.exited || (!s.paused && s.pumps == (if i < k then 0 else 1) + (if i <= k && resumeOk then 1 else 0))
  }

  class Server {
    const sessions: seq<PtySession>
    var closed: bool
    var listening: bool
    var handedOver: bool
    /** What went onto the takeover stream. */
    var sent: seq<H.Snap>

    ghost predicate Distinct() {
      forall i, j :: 0 <= i < j < |sessions| ==> sessions[i] != sessions[j]
    }

    /** Step 2: freeze every reader, stopping at the first that cannot be. */
    method PauseAll(a: Answers) returns (k: nat)
      requires Distinct() && forall i :: 0 <= i < |sessions| ==> sessions[i].Serving()
      modifies sessions
      ensures k <= |sessions|
      ensures k < |sessions| ==> !a.pauseOk(k) && !sessions[k].exited
      ensures forall i :: 0 <= i < |sessions| ==> sessions[i].exited == old(sessions[i].exited)
      ensures forall i :: 0 <= i < |sessions| ==> PausedUpTo(sessions[i], i, k)
      ensures forall i :: 0 <= i < k ==> sessions[i].exited || a.pauseOk(i)
    {
      k := 0;
      while k < |sessions|
        invariant 0 <= k <= |sessions|
        invariant forall j :: 0 <= j < |sessions| ==> sessions[j].exited == old(sessions[j].exited)
        invariant forall j :: 0 <= j < k ==> PausedUpTo(sessions[j], j, k) && (sessions[j].exited || a.pauseOk(j))
        invariant forall j :: k <= j < |sessions| ==> sessions[j].Serving()
      {
        var ok := sessions[k].PauseReader(a.pauseOk(k));
        if !ok {
          return;
        }
        k := k + 1;
      }
    }

    /** rollback: resume every reader, whatever came of the others, then listen again. */
    method Rollback(a: Answers, ghost k: nat)
      requires Distinct() && forall i :: 0 <= i < |sessions| ==> PausedUpTo(sessions[i], i, k)
      modifies this`closed, this`listening, sessions
      ensures forall i :: 0 <= i < |sessions| ==> sessions[i].exited == old(sessions[i].exited)
      ensures forall i :: 0 <= i < |sessions| ==> RolledBack(sessions[i], i, k, a.resumeOk(i))
      ensures a.relistenOk ==> !closed && listening
      ensures !a.relistenOk ==> closed == old(closed) && listening == old(listening)
    {
      var i := 0;
      while i < |sessions|
        invariant 0 <= i <= |sessions|
        invariant forall j :: 0 <= j < |sessions| ==> sessions[j].exited == old(sessions[j].exited)
        invariant forall j :: 0 <= j < i ==> RolledBack(sessions[j], j, k, a.resumeOk(j))
        invariant forall j :: i <= j < |sessions| ==> PausedUpTo(sessions[j], j, k)
        invariant closed == old(closed) && listening == old(listening)
      {
        var ok := sessions[i].ResumeReader(a.resumeOk(i));
        i := i + 1;
      }
      if a.relistenOk {
        closed, listening := false, true;
      }
    }

    /** Step 3: the sessions in order, stopping at the first that cannot be sent. */
    method StreamAll(a: Answers) returns (ok: bool)
      requires forall i :: 0 <= i < |sessions| ==> sessions[i].ring.Valid()
      modifies this`sent
      ensures ok ==> |sent| == |sessions| && forall i :: 0 <= i < |sessions| ==> a.sendOk(i) && sent[i] == H.SnapOf(sessions[i].State())
      ensures !ok ==> exists i :: 0 <= i < |sessions| && !a.sendOk(i)
    {
      sent := [];
      var i := 0;
      while i < |sessions|
        invariant 0 <= i <= |sessions| && |sent| == i
        invariant forall j :: 0 <= j < i ==> a.sendOk(j) && sent[j] == H.SnapOf(sessions[j].State())
      {
        var s := sessions[i].HandoverState();
        if !a.sendOk(i) {
          return false;
        }
        sent := sent + [s];
        i := i + 1;
      }
      return true;
    }

    /** Did every stage up to and including the ACK work? */
    ghost predicate Completes(a: Answers)
      reads sessions
    {
      && (forall i :: 0 <= i < |sessions| ==> sessions[i].exited || a.pauseOk(i))
      && a.dialOk && (forall i :: 0 <= i < |sessions| ==> a.sendOk(i)) && a.finOk && a.ack == Some(ACK)
    }

    /**
     * The handover happens exactly when every stage works. Then this daemon has sent the snapshot
     * of every session, in order, and pumps none of them. Otherwise it has rolled back: with
     * deadlines that work, every running session has its one pump again, and the daemon listens.
     */
    method Run(a: Answers)
      requires Distinct() && forall i :: 0 <= i < |sessions| ==> sessions[i].Serving() && sessions[i].ring.Valid()
      requires !handedOver
      modifies this, sessions
      ensures handedOver == old(Completes(a))
      ensures forall i :: 0 <= i < |sessions| ==> sessions[i].exited == old(sessions[i].exited)
      ensures handedOver ==> closed && !listening && |sent| == |sessions|
      ensures handedOver ==> forall i :: 0 <= i < |sessions| ==>
        sessions[i].ring.Valid() && sent[i] == H.SnapOf(sessions[i].State()) && (!sessions[i].exited ==> sessions[i].pumps == 0)
      ensures !handedOver && a.relistenOk ==> !closed && listening
      ensures !handedOver && (forall i :: a.pauseOk(i) && a.resumeOk(i)) ==>
        forall i :: 0 <= i < |sessions| && !sessions[i].exited ==> !sessions[i].paused && sessions[i].pumps == 1
    {
      closed, listening := true, false;
      var k := PauseAll(a);
      if k < |sessions| || !a.dialOk {
        Rollback(a, k);
        return;
      }
      var ok := StreamAll(a);
      if !ok || !a.finOk || a.ack != Some(ACK) {
        Rollback(a, k);
        return;
      }
      handedOver := true;
    }
  }
}
