/**
 * The takeover protocol of pkg/daemon/takeover.go and pkg/host/handover.go, as steps of the old
 * daemon's takeover goroutines, of the new daemons, of their read pumps, and of the children writing
 * into kernel PTY buffers. The bytes on the private stream are TakeoverStream's business; here a
 * session arrives or does not.
 */
module Handover {
  import opened Bytes
  import opened RingBuffer

  /**
   * One session. `oldPumps` and `newPumps` hold one entry per read pump in the old and in a new
   * daemon: the bytes it has read and not yet written to its ring. `exited`, `paused` and `deadline`
   * are the old daemon's, `newExited`, `newRing` and `newPty` (it was given the PTY) the last adopter's. `axis` records everything ever
   * written to the session's ring, and `child` everything the child ever wrote.
   */
  datatype Sess = Sess(
    cap: nat, child: seq<byte>, childGone: bool, kernel: seq<byte>,
    axis: seq<byte>, oldRing: View, oldPumps: seq<seq<byte>>, exited: bool, paused: bool, deadline: bool,
    newRing: Option<View>, newPumps: seq<seq<byte>>, newExited: bool, newPty: bool)

  /** What the takeover stream says of a session; with a live one goes its PTY. */
  datatype Snap = Snap(held: seq<byte>, endSeq: nat, cap: nat, live: bool)

  /** performHandover's place: after a rollback it has yet to close its connection, and then is gone. */
  datatype Pc =
    | Pausing(i: nat)
    | PauseWait(i: nat)
    | Streaming(i: nat)
    | AwaitingAck
    | RollingBack(i: nat)
    | Leaving
    | Gone
    | Retired

  /** One takeover: a performHandover goroutine, its connection, and the daemon that asked for it. */
  datatype Attempt = Attempt(
    pc: Pc, sent: seq<Snap>, finSent: bool, received: nat, newGone: bool, acked: bool, adopted: nat)

  const Begun := Attempt(Pausing(0), [], false, 0, false, false, 0)
  const Over := Attempt(Gone, [], false, 0, false, false, 0)

  /** `pending` requests have been dispatched whose goroutines have not begun. */
  datatype World = World(ss: seq<Sess>, listening: bool, pending: nat, ts: seq<Attempt>)

  datatype Move =
    // performHandover
    | PauseCall(ok: bool) | PauseReturns | Dial(ok: bool) | SendSession(ok: bool) | SendFinale(ok: bool)
    | ReadAck | AckFails | ResumeCall(ok: bool) | Relisten(ok: bool) | Return
    // RequestTakeover and the new daemon's boot
    | Receive | NewFails | WriteAck | Adopt

  datatype Event =
    // the children
    | ChildWrites(i: nat, p: seq<byte>) | ChildGone(i: nat)
    // read pump k of session i, in the old or a new daemon
    | PumpReads(i: nat, inNew: bool, k: nat, n: nat) | PumpWrites(i: nat, inNew: bool, k: nat)
    | PumpStops(i: nat, k: nat) | PumpSeesEof(i: nat, inNew: bool)
    // a HANDOVER_REQ comes in; its goroutine begins, some time later; a takeover moves
    | Dispatch | Start | Of(t: nat, m: Move)

  // ── Pieces ──────────────────────────────────────────────────────────

  /** PauseReader up to its wait; ok says that SetReadDeadline worked. */
  function Paused(s: Sess, ok: bool): Sess {
    if s.exited then s else s.(paused := true, deadline := s.deadline || ok)
  }

  /** ResumeReader. */
  function Resumed(s: Sess, ok: bool): Sess {
    if s.exited || !s.paused then s
    else if !ok then s.(paused := false)
    else s.(paused := false, deadline := false, oldPumps := s.oldPumps + [[]])
  }

  function SnapOf(s: Sess): Snap { Snap(s.oldRing.held, s.oldRing.end, s.cap, !s.exited) }

  /**
   * AdoptSession. It declares every session running and starts its pump; one that was not live comes
   * without its PTY, so that its pump's first read fails and ends it again.
   */
  function Adopted(s: Sess, snap: Snap): Sess {
    s.(newRing := Some(Written(Empty, snap.cap, snap.held).(end := snap.endSeq)), newPumps := s.newPumps + [[]],
       newExited := false, newPty := snap.live)
  }

  function Without(hs: seq<seq<byte>>, k: nat): seq<seq<byte>>
    requires k < |hs|
  {
    hs[..k] + hs[k + 1..]
  }

  function ReadInto(s: Sess, inNew: bool, k: nat, n: nat): Sess {
    var hs := if inNew then s.newPumps else s.oldPumps;
    if k >= |hs| || hs[k] != [] || n == 0 || n > |s.kernel| || (if inNew then !s.newPty else s.deadline) then s
    else
      var hs' := hs[k := s.kernel[..n]];
      s.(kernel := s.kernel[n..], oldPumps := if inNew then s.oldPumps else hs', newPumps := if inNew then hs' else s.newPumps)
  }

  function WriteOut(s: Sess, inNew: bool, k: nat): Sess {
    var hs := if inNew then s.newPumps else s.oldPumps;
    if k >= |hs| || (inNew && s.newRing.None?) then s
    else
      var p, hs' := hs[k], hs[k := []];
      if inNew then s.(axis := s.axis + p, newRing := Some(Written(s.newRing.value, s.cap, p)), newPumps := hs')
      else s.(axis := s.axis + p, oldRing := Written(s.oldRing, s.cap, p), oldPumps := hs')
  }

  /** A pump whose read missed its deadline leaves without finishing the session. */
  function Stopped(s: Sess, k: nat): Sess {
    if k >= |s.oldPumps| || s.oldPumps[k] != [] || !s.deadline || !s.paused then s else s.(oldPumps := Without(s.oldPumps, k))
  }

  /**
   * The child is gone and its last byte is read, or there is no PTY to read: finish. A pausing pump leaves
   * by its deadline instead.
   */
  function SawEof(s: Sess, inNew: bool): Sess {
    if (!s.childGone || s.kernel != []) && !(inNew && !s.newPty) then s
    else if inNew then (if s.newPumps != [[]] || s.newExited then s else s.(newExited := true, newPumps := []))
    else if s.oldPumps != [[]] || s.exited || s.paused then s
    else s.(exited := true, oldPumps := [])
  }

  /** What a takeover does to the sessions and to itself, if it can happen now; otherwise nothing. */
  function Act(ss: seq<Sess>, a: Attempt, m: Move): (r: (seq<Sess>, Attempt))
    ensures |r.0| == |ss|
  {
    match m
    case PauseCall(ok) =>
      if !a.pc.Pausing? || a.pc.i >= |ss| then (ss, a)
      else
        (ss[a.pc.i := Paused(ss[a.pc.i], ok)],
         a.(pc := if ss[a.pc.i].exited then Pausing(a.pc.i + 1) else if ok then PauseWait(a.pc.i) else RollingBack(0)))
    case PauseReturns =>
      (ss, if a.pc.PauseWait? && a.pc.i < |ss| && ss[a.pc.i].oldPumps == [] then a.(pc := Pausing(a.pc.i + 1)) else a)
    case Dial(ok) =>
      (ss, if a.pc.Pausing? && a.pc.i >= |ss| then a.(pc := if ok then Streaming(0) else RollingBack(0)) else a)
    case SendSession(ok) =>
      (ss, if !a.pc.Streaming? || a.pc.i >= |ss| then a
           else if ok then a.(sent := a.sent + [SnapOf(ss[a.pc.i])], pc := Streaming(a.pc.i + 1))
           else a.(pc := RollingBack(0)))
    case SendFinale(ok) =>
      (ss, if !a.pc.Streaming? || a.pc.i < |ss| then a
           else if ok then a.(finSent := true, pc := AwaitingAck) else a.(pc := RollingBack(0)))
    case ReadAck => (ss, if a.pc.AwaitingAck? && a.acked then a.(pc := Retired) else a)
    case AckFails => (ss, if a.pc.AwaitingAck? then a.(pc := RollingBack(0)) else a)
    case ResumeCall(ok) =>
      if a.pc.RollingBack? && a.pc.i < |ss| then (ss[a.pc.i := Resumed(ss[a.pc.i], ok)], a.(pc := RollingBack(a.pc.i + 1)))
      else (ss, a)
    case Relisten(_) => (ss, if a.pc.RollingBack? && a.pc.i >= |ss| then a.(pc := Leaving) else a)
    case Return => (ss, if a.pc.Leaving? then a.(pc := Gone) else a)
    case Receive => (ss, if a.newGone || a.acked || a.received >= |a.sent| then a else a.(received := a.received + 1))
    case NewFails => (ss, if a.acked then a else a.(newGone := true))
    case WriteAck => (ss, if CanAck(|ss|, a) then a.(acked := true) else a)
    case Adopt =>
      if a.acked && a.adopted < |ss| && a.adopted < |a.sent| then
        (ss[a.adopted := Adopted(ss[a.adopted], a.sent[a.adopted])], a.(adopted := a.adopted + 1))
      else (ss, a)
  }

  /**
   * The new daemon has all n sessions and the finale, whose count matches, and its connection takes
   * the ACK: performHandover closes it only when it returns, after any rollback.
   */
  predicate CanAck(n: nat, a: Attempt) {
    !a.newGone && !a.acked && a.finSent && a.received == n && (a.pc.AwaitingAck? || a.pc.RollingBack? || a.pc.Leaving?)
  }

  function At(w: World, i: nat, s: Sess): World
    requires i < |w.ss|
  {
    w.(ss := w.ss[i := s])
  }

  /** One step of a child or of a pump on its session. */
  function Stepped(s: Sess, e: Event): Sess {
    match e
    case ChildWrites(_, p) => if s.childGone then s else s.(child := s.child + p, kernel := s.kernel + p)
    case ChildGone(_) => s.(childGone := true)
    case PumpReads(_, inNew, k, n) => ReadInto(s, inNew, k, n)
    case PumpWrites(_, inNew, k) => WriteOut(s, inNew, k)
    case PumpStops(_, k) => Stopped(s, k)
    case PumpSeesEof(_, inNew) => SawEof(s, inNew)
    case _ => s
  }

  predicate OnSession(e: Event) { !e.Dispatch? && !e.Start? && !e.Of? }

  /** What happens if e can happen now; otherwise nothing. */
  function Do(w: World, e: Event): World {
    match e
    case Dispatch => if w.listening then w.(pending := w.pending + 1) else w
    case Start => if w.pending > 0 then w.(pending := w.pending - 1, listening := false, ts := w.ts + [Begun]) else w
    case Of(t, m) =>
      if t >= |w.ts| then w
      else
        var (ss, a) := Act(w.ss, w.ts[t], m);
        w.(ss := ss, ts := w.ts[t := a], listening := if a.pc.Leaving? && m.Relisten? && w.ts[t] != a then m.ok else w.listening)
    case _ => if e.i < |w.ss| then At(w, e.i, Stepped(w.ss[e.i], e)) else w
  }

  function Exec(w: World, es: seq<Event>): World {
    if es == [] then w else Do(Exec(w, es[..|es| - 1]), es[|es| - 1])
  }

  // ── The invariant ───────────────────────────────────────────────────

  /** Who may be pumping a session. */
  datatype Role = Live | Stopping | Frozen | Moved

  function RoleOf(a: Attempt, i: nat): Role {
    if a.acked then (if i < a.adopted then Moved else Frozen)
    else
      match a.pc
      case Pausing(k) => if i < k then Frozen else Live
      case PauseWait(k) => if i < k then Frozen else if i == k then Stopping else Live
      case Streaming(_) => Frozen
      case AwaitingAck => Frozen
      case RollingBack(k) => if i < k then Live else Frozen
      case Leaving => Live
      case Gone => Live
      case Retired => Frozen
  }

  function InHand(s: Sess): seq<byte> {
    if |s.oldPumps| == 1 then s.oldPumps[0] else if |s.newPumps| == 1 then s.newPumps[0] else []
  }

  ghost predicate SessOk(s: Sess, r: Role) {
    // what the child wrote is on the axis, in the one pump's hand, or in the kernel: in that order
    && s.cap > 0 && s.child == s.axis + InHand(s) + s.kernel
    && |s.oldPumps| + |s.newPumps| <= 1
    && (s.exited ==> s.childGone && s.kernel == [] && !s.paused && !s.deadline && s.oldPumps == [])
    && (s.newExited ==> s.childGone && s.kernel == [] && s.newPumps == [])
    && match r
       case Live =>
         && !s.paused && !s.deadline && s.newPumps == [] && |s.oldPumps| == (if s.exited then 0 else 1)
         && Mirrors(s.oldRing, s.cap, s.axis)
       case Stopping =>
         && s.paused && s.deadline && s.newPumps == []
         && Mirrors(s.oldRing, s.cap, s.axis)
       case Frozen =>
         && (!s.exited ==> s.paused && s.deadline)
         && s.oldPumps == [] && s.newPumps == []
         && Mirrors(s.oldRing, s.cap, s.axis)
       case Moved =>
         && (!s.exited ==> s.paused && s.deadline)
         && s.oldPumps == [] && |s.newPumps| == (if s.newExited then 0 else 1) && s.newPty == !s.exited
         && s.newRing.Some? && Mirrors(s.newRing.value, s.cap, s.axis)
  }

  ghost predicate SessionsOk(ss: seq<Sess>, a: Attempt) { forall i :: 0 <= i < |ss| ==> SessOk(ss[i], RoleOf(a, i)) }

  /** What was sent and not yet adopted is still true of the frozen sessions. */
  ghost predicate SentOk(ss: seq<Sess>, a: Attempt) {
    a.pc.Streaming? || a.pc.AwaitingAck? || a.pc.Retired? ==>
      forall i :: a.adopted <= i < |a.sent| ==> i < |ss| && a.sent[i] == SnapOf(ss[i])
  }

  predicate AttemptOk(n: nat, a: Attempt) {
    && (a.pc.Pausing? || a.pc.PauseWait? || a.pc.RollingBack? || a.pc.Streaming? ==> a.pc.i <= n)
    && (a.pc.PauseWait? ==> a.pc.i < n)
    && (a.acked ==> a.pc.AwaitingAck? || a.pc.Retired?) && (a.pc.Retired? ==> a.acked)
    && a.received <= |a.sent| && (!a.acked ==> a.adopted == 0) && a.adopted <= n
    && (a.pc.Streaming? ==> |a.sent| == a.pc.i && !a.finSent)
    && (a.pc.AwaitingAck? || a.pc.Retired? ==> |a.sent| == n)
    && (a.pc.Pausing? || a.pc.PauseWait? ==> a.sent == [] && !a.finSent)
  }

  ghost predicate Ok(ss: seq<Sess>, a: Attempt) { SessionsOk(ss, a) && SentOk(ss, a) && AttemptOk(|ss|, a) }

  /** A takeover that has nothing left to do to a running session. */
  predicate Spent(ss: seq<Sess>, a: Attempt) {
    && !a.acked && a.adopted == 0 && a.received <= |a.sent|
    && (a.pc.Gone? || a.pc.Leaving? || (a.pc.RollingBack? && forall i :: a.pc.i <= i < |ss| ==> ss[i].exited))
  }

  predicate AllSpent(ss: seq<Sess>, ts: seq<Attempt>) { forall t :: 0 <= t < |ts| ==> Spent(ss, ts[t]) }

  /** The latest takeover. */
  function Latest(w: World): Attempt { if w.ts == [] then Over else w.ts[|w.ts| - 1] }

  function Earlier(w: World): seq<Attempt> { if w.ts == [] then [] else w.ts[..|w.ts| - 1] }

  ghost predicate Inv(w: World) { Ok(w.ss, Latest(w)) && AllSpent(w.ss, Earlier(w)) }

  // ── What is assumed ─────────────────────────────────────────────────

  /** An ACK that was written, and the read fails all the same. */
  predicate LostAck(w: World, e: Event) {
    e.Of? && e.m.AckFails? && e.t < |w.ts| && w.ts[e.t].pc.AwaitingAck? && w.ts[e.t].acked
  }

  /** An ACK that is written when its read has failed already. */
  predicate LateAck(w: World, e: Event) {
    e.Of? && e.m.WriteAck? && e.t < |w.ts| && CanAck(|w.ss|, w.ts[e.t]) && !w.ts[e.t].pc.AwaitingAck?
  }

  /** A takeover that begins while an earlier one still has running sessions in its hands. */
  predicate Overlap(w: World, e: Event) { e.Start? && w.pending > 0 && !AllSpent(w.ss, w.ts) }

  predicate Breaks(w: World, e: Event) { LostAck(w, e) || LateAck(w, e) || Overlap(w, e) }

  predicate DeadlineWorks(e: Event) { e.Of? ==> (e.m.PauseCall? ==> e.m.ok) && (e.m.ResumeCall? ==> e.m.ok) }

  /** SetReadDeadline succeeds, an ACK that is written is read, and takeovers do not overlap. */
  predicate Assumed(w: World, e: Event) { DeadlineWorks(e) && !Breaks(w, e) }

  predicate AllAssumed(w: World, es: seq<Event>) {
    es == [] || (AllAssumed(w, es[..|es| - 1]) && Assumed(Exec(w, es[..|es| - 1]), es[|es| - 1]))
  }

  // ── One session under each step ─────────────────────────────────────

  lemma ChildKeeps(s: Sess, r: Role, p: seq<byte>)
    requires SessOk(s, r) && !s.childGone
    ensures SessOk(s.(child := s.child + p, kernel := s.kernel + p), r)
  {
  }

  lemma ReadKeeps(s: Sess, r: Role, inNew: bool, k: nat, n: nat)
    requires SessOk(s, r)
    ensures SessOk(ReadInto(s, inNew, k, n), r)
    ensures r.Frozen? ==> ReadInto(s, inNew, k, n) == s
  {
    if 0 < n <= |s.kernel| {
      TakeFrom(s.axis, s.kernel, n);
    }
  }

  lemma TakeFrom(axis: seq<byte>, kernel: seq<byte>, n: nat)
    requires n <= |kernel|
    ensures axis + [] + kernel == axis + kernel[..n] + kernel[n..]
  {
  }

  lemma WriteKeeps(s: Sess, r: Role, inNew: bool, k: nat)
    requires SessOk(s, r)
    ensures SessOk(WriteOut(s, inNew, k), r)
    ensures r.Frozen? ==> WriteOut(s, inNew, k) == s
  {
    var hs := if inNew then s.newPumps else s.oldPumps;
    if k < |hs| {
      assert InHand(s) == hs[k];
      if inNew {
        if s.newRing.Some? && r.Moved? {
          WrittenMirrors(s.newRing.value, s.cap, s.axis, hs[k]);
        }
      } else {
        WrittenMirrors(s.oldRing, s.cap, s.axis, hs[k]);
      }
      assert s.axis + hs[k] + s.kernel == s.axis + hs[k] + [] + s.kernel;
    }
  }

  lemma StopKeeps(s: Sess, r: Role, k: nat)
    requires SessOk(s, r)
    ensures SessOk(Stopped(s, k), r)
    ensures r.Frozen? ==> Stopped(s, k) == s
  {
  }

  lemma EofKeeps(s: Sess, r: Role, inNew: bool)
    requires SessOk(s, r)
    ensures SessOk(SawEof(s, inNew), r)
    ensures r.Frozen? ==> SawEof(s, inNew) == s
  {
  }

  lemma PauseKeeps(s: Sess)
    requires SessOk(s, Live)
    ensures SessOk(Paused(s, true), if s.exited then Frozen else Stopping)
  {
  }

  lemma ResumeKeeps(s: Sess)
    requires SessOk(s, Frozen)
    ensures SessOk(Resumed(s, true), Live)
  {
  }

  lemma AdoptKeeps(s: Sess)
    requires SessOk(s, Frozen)
    ensures SessOk(Adopted(s, SnapOf(s)), Moved)
  {
    AdoptedIsOriginal(s.cap, s.oldRing, s.axis);
  }

  lemma SteppedKeeps(s: Sess, r: Role, e: Event)
    requires SessOk(s, r) && OnSession(e)
    ensures SessOk(Stepped(s, e), r)
    ensures r.Frozen? ==> SnapOf(Stepped(s, e)) == SnapOf(s)
    ensures s.exited ==> Stepped(s, e).exited
  {
    match e {
      case ChildWrites(_, p) => if !s.childGone { ChildKeeps(s, r, p); }
      case ChildGone(_) =>
      case PumpReads(_, inNew, k, n) => ReadKeeps(s, r, inNew, k, n);
      case PumpWrites(_, inNew, k) => WriteKeeps(s, r, inNew, k);
      case PumpStops(_, k) => StopKeeps(s, r, k);
      case PumpSeesEof(_, inNew) => EofKeeps(s, r, inNew);
      case _ =>
    }
  }

  // ── A takeover's own moves ──────────────────────────────────────────

  lemma PauseMove(ss: seq<Sess>, a: Attempt, m: Move)
    requires Ok(ss, a) && ((m.PauseCall? && m.ok) || m.PauseReturns?)
    ensures Ok(Act(ss, a, m).0, Act(ss, a, m).1)
  {
    if m.PauseCall? && a.pc.Pausing? && a.pc.i < |ss| {
      PauseKeeps(ss[a.pc.i]);
    }
  }

  lemma DialMove(ss: seq<Sess>, a: Attempt, ok: bool)
    requires Ok(ss, a)
    ensures Ok(ss, Act(ss, a, Dial(ok)).1)
  {
  }

  lemma SendMove(ss: seq<Sess>, a: Attempt, ok: bool)
    requires Ok(ss, a)
    ensures Ok(ss, Act(ss, a, SendSession(ok)).1)
  {
  }

  lemma FinaleMove(ss: seq<Sess>, a: Attempt, ok: bool)
    requires Ok(ss, a)
    ensures Ok(ss, Act(ss, a, SendFinale(ok)).1)
  {
  }

  lemma AckMove(ss: seq<Sess>, a: Attempt, m: Move)
    requires Ok(ss, a) && (m.ReadAck? || m.AckFails? || m.WriteAck?)
    requires m.AckFails? ==> !(a.pc.AwaitingAck? && a.acked)
    requires m.WriteAck? ==> CanAck(|ss|, a) ==> a.pc.AwaitingAck?
    ensures Ok(ss, Act(ss, a, m).1)
  {
  }

  lemma ResumeMove(ss: seq<Sess>, a: Attempt)
    requires Ok(ss, a)
    ensures Ok(Act(ss, a, ResumeCall(true)).0, Act(ss, a, ResumeCall(true)).1)
  {
    if a.pc.RollingBack? && a.pc.i < |ss| {
      ResumeKeeps(ss[a.pc.i]);
    }
  }

  lemma LeaveMove(ss: seq<Sess>, a: Attempt, m: Move)
    requires Ok(ss, a) && (m.Relisten? || m.Return?)
    ensures Ok(ss, Act(ss, a, m).1)
  {
  }

  lemma NewDaemonMove(ss: seq<Sess>, a: Attempt, m: Move)
    requires Ok(ss, a) && (m.Receive? || m.NewFails?)
    ensures Ok(ss, Act(ss, a, m).1)
  {
  }

  lemma AdoptMove(ss: seq<Sess>, a: Attempt)
    requires Ok(ss, a)
    ensures Ok(Act(ss, a, Adopt).0, Act(ss, a, Adopt).1)
  {
    if a.acked && a.adopted < |ss| && a.adopted < |a.sent| {
      AdoptKeeps(ss[a.adopted]);
    }
  }

  /** The latest takeover moves as assumed. */
  lemma LatestMoves(ss: seq<Sess>, a: Attempt, m: Move)
    requires Ok(ss, a) && ((m.PauseCall? || m.ResumeCall?) ==> m.ok)
    requires m.AckFails? ==> !(a.pc.AwaitingAck? && a.acked)
    requires m.WriteAck? ==> CanAck(|ss|, a) ==> a.pc.AwaitingAck?
    ensures Ok(Act(ss, a, m).0, Act(ss, a, m).1)
  {
    if m.PauseCall? || m.PauseReturns? {
      PauseMove(ss, a, m);
    } else if m.Dial? || m.SendSession? || m.SendFinale? {
      StreamMove(ss, a, m);
    } else if m.ReadAck? || m.AckFails? || m.WriteAck? {
      AckMove(ss, a, m);
    } else if m.ResumeCall? {
      ResumeMove(ss, a);
    } else if m.Relisten? || m.Return? {
      LeaveMove(ss, a, m);
    } else if m.Adopt? {
      AdoptMove(ss, a);
    } else {
      NewDaemonMove(ss, a, m);
    }
  }

  lemma StreamMove(ss: seq<Sess>, a: Attempt, m: Move)
    requires Ok(ss, a) && (m.Dial? || m.SendSession? || m.SendFinale?)
    ensures Ok(Act(ss, a, m).0, Act(ss, a, m).1)
  {
    match m {
      case Dial(ok) => DialMove(ss, a, ok);
      case SendSession(ok) => SendMove(ss, a, ok);
      case SendFinale(ok) => FinaleMove(ss, a, ok);
    }
  }

  /** No move makes the old daemon take back an exit. */
  lemma ExitsStay(ss: seq<Sess>, a: Attempt, m: Move, i: nat)
    requires i < |ss|
    ensures ss[i].exited ==> Act(ss, a, m).0[i].exited
  {
  }

  /** A spent takeover's moves leave the sessions as they are, and it spent. */
  lemma SpentMoves(ss: seq<Sess>, a: Attempt, m: Move)
    requires Spent(ss, a) && (m.WriteAck? ==> !CanAck(|ss|, a))
    ensures Act(ss, a, m).0 == ss && Spent(ss, Act(ss, a, m).1)
  {
  }

  // ── The run ─────────────────────────────────────────────────────────

  lemma SessionStep(w: World, e: Event)
    requires Inv(w) && OnSession(e)
    ensures Inv(Do(w, e))
  {
    if e.i < |w.ss| {
      var a, s := Latest(w), Stepped(w.ss[e.i], e);
      assert SessOk(w.ss[e.i], RoleOf(a, e.i));
      SteppedKeeps(w.ss[e.i], RoleOf(a, e.i), e);
      SessionPut(w, e.i, s);
      assert Do(w, e) == At(w, e.i, s);
    }
  }

  lemma SessionPut(w: World, i: nat, s: Sess)
    requires Inv(w) && i < |w.ss| && SessOk(s, RoleOf(Latest(w), i)) && (w.ss[i].exited ==> s.exited)
    requires RoleOf(Latest(w), i).Frozen? ==> SnapOf(s) == SnapOf(w.ss[i])
    ensures Inv(At(w, i, s))
  {
    SessionStepOk(w.ss, Latest(w), i, s);
    StillSpent(w.ss, At(w, i, s).ss, Earlier(w));
  }

  lemma SessionStepOk(ss: seq<Sess>, a: Attempt, i: nat, s: Sess)
    requires Ok(ss, a) && i < |ss| && SessOk(s, RoleOf(a, i))
    requires RoleOf(a, i).Frozen? ==> SnapOf(s) == SnapOf(ss[i])
    ensures Ok(ss[i := s], a)
  {
  }

  lemma StillSpent(ss: seq<Sess>, ss': seq<Sess>, ts: seq<Attempt>)
    requires AllSpent(ss, ts) && |ss'| == |ss| && forall i :: 0 <= i < |ss| ==> ss[i].exited ==> ss'[i].exited
    ensures AllSpent(ss', ts)
  {
  }

  lemma StartStep(w: World)
    requires Inv(w) && !Overlap(w, Start)
    ensures Inv(Do(w, Start))
  {
    if w.pending > 0 {
      var w' := Do(w, Start);
      assert Earlier(w') == w.ts && Latest(w') == Begun;
      assert w.ts != [] ==> Spent(w.ss, w.ts[|w.ts| - 1]);
      AllLive(w.ss, Latest(w));
    }
  }

  lemma AllLive(ss: seq<Sess>, a: Attempt)
    requires Ok(ss, a) && Spent(ss, a)
    ensures Ok(ss, Begun)
  {
    forall i | 0 <= i < |ss|
      ensures SessOk(ss[i], Live)
    {
      assert SessOk(ss[i], RoleOf(a, i));
    }
  }

  lemma MoveStep(w: World, t: nat, m: Move)
    requires Inv(w) && Assumed(w, Of(t, m)) && t < |w.ts|
    ensures Inv(Do(w, Of(t, m)))
  {
    var w', last := Do(w, Of(t, m)), |w.ts| - 1;
    if t == last {
      LatestMoves(w.ss, w.ts[t], m);
      assert Earlier(w') == Earlier(w);
      forall i | 0 <= i < |w.ss|
        ensures w.ss[i].exited ==> w'.ss[i].exited
      {
        ExitsStay(w.ss, w.ts[t], m, i);
      }
      StillSpent(w.ss, w'.ss, Earlier(w));
    } else {
      assert Earlier(w)[t] == w.ts[t];
      SpentMoves(w.ss, w.ts[t], m);
      assert Latest(w') == Latest(w) && Earlier(w') == Earlier(w)[t := w'.ts[t]];
    }
  }

  lemma DoKeeps(w: World, e: Event)
    requires Inv(w) && Assumed(w, e)
    ensures Inv(Do(w, e))
  {
    if OnSession(e) {
      SessionStep(w, e);
    } else if e.Start? {
      StartStep(w);
    } else if e.Of? && e.t < |w.ts| {
      MoveStep(w, e.t, e.m);
    }
  }

  lemma {:induction false} ExecKeeps(w: World, es: seq<Event>)
    requires Inv(w) && AllAssumed(w, es)
    ensures Inv(Exec(w, es))
  {
    if es != [] {
      ExecKeeps(w, es[..|es| - 1]);
      DoKeeps(Exec(w, es[..|es| - 1]), es[|es| - 1]);
    }
  }

  /** A daemon serving sessions, each with its pump, nothing written yet. */
  function Boot(caps: seq<nat>): World {
    World(seq(|caps|, i requires 0 <= i < |caps| => Sess(caps[i], [], false, [], [], Empty, [[]], false, false, false, None, [], false, false)),
          true, 0, [])
  }

  lemma BootHolds(caps: seq<nat>)
    requires forall i :: 0 <= i < |caps| ==> caps[i] > 0
    ensures Inv(Boot(caps))
  {
  }

  /** No takeover is under way in the old daemon, and none has succeeded. */
  predicate Serves(w: World) { !Latest(w).acked && (Latest(w).pc.Gone? || Latest(w).pc.Leaving?) }

  /** What the takeover promises of one session. */
  ghost predicate Promise(w: World, s: Sess) {
    && |s.oldPumps| + |s.newPumps| <= 1
    && s.child == s.axis + InHand(s) + s.kernel
    && (Serves(w) ==> s.newPumps == [] && |s.oldPumps| == (if s.exited then 0 else 1) && Mirrors(s.oldRing, s.cap, s.axis))
    && ((s.exited || s.newExited) && s.oldPumps == [] && s.newPumps == [] ==> s.childGone && s.axis == s.child)
    && (Latest(w).acked ==> s.oldPumps == [])
    && (Latest(w).acked && Latest(w).adopted == |w.ss| ==>
          && |s.newPumps| == (if s.newExited then 0 else 1) && s.newPty == !s.exited
          && s.newRing.Some? && Mirrors(s.newRing.value, s.cap, s.axis))
  }

  lemma InvMeansPromise(w: World)
    requires Inv(w)
    ensures forall i :: 0 <= i < |w.ss| ==> Promise(w, w.ss[i])
  {
    forall i | 0 <= i < |w.ss|
      ensures Promise(w, w.ss[i])
    {
      assert SessOk(w.ss[i], RoleOf(Latest(w), i));
      assert w.ss[i].axis + [] + [] == w.ss[i].axis;
    }
  }

  /**
   * In every run of the daemons, the children and the kernel that keeps to the assumptions, with any
   * number of takeovers one after another: never two pumps on one PTY; what a child wrote is on the
   * ring's axis, then in its pump's hand, then in the kernel, in that order; whenever the old daemon
   * serves (at first, and after every rollback) each running session has its pump in it; after the
   * ACK only the new daemon pumps, on a ring that mirrors the same axis, and with the PTY of exactly
   * the sessions that were running. An exit shows only when the child is gone and all it wrote is on
   * the axis.
   */
  lemma TakeoverIsSafe(caps: seq<nat>, es: seq<Event>)
    requires forall i :: 0 <= i < |caps| ==> caps[i] > 0
    requires AllAssumed(Boot(caps), es)
    ensures var w := Exec(Boot(caps), es);
      forall i :: 0 <= i < |w.ss| ==> Promise(w, w.ss[i])
  {
    BootHolds(caps);
    ExecKeeps(Boot(caps), es);
    InvMeansPromise(Exec(Boot(caps), es));
  }

  // ── A pump delivers ─────────────────────────────────────────────────

  function OldOrNew(s: Sess, inNew: bool): seq<seq<byte>> { if inNew then s.newPumps else s.oldPumps }

  /** What the one pump of a session does on its own: it writes what it holds, reads all there is, and writes that. */
  function PumpsAll(s: Sess, inNew: bool): Sess {
    WriteOut(ReadInto(WriteOut(s, inNew, 0), inNew, 0, |s.kernel|), inNew, 0)
  }

  /** The same as steps of a run. */
  function Pumped(w: World, i: nat, inNew: bool): (v: World)
    requires i < |w.ss|
    ensures v == At(w, i, PumpsAll(w.ss[i], inNew))
  {
    var v := Do(w, PumpWrites(i, inNew, 0));
    var v' := Do(v, PumpReads(i, inNew, 0, |w.ss[i].kernel|));
    Do(v', PumpWrites(i, inNew, 0))
  }

  /** s' differs from s only in where the child's bytes are. */
  predicate SameButBytes(s: Sess, s': Sess) {
    s'.child == s.child && s'.childGone == s.childGone && s'.paused == s.paused && s'.deadline == s.deadline
    && s'.exited == s.exited && s'.newExited == s.newExited
  }

  lemma HandEmptied(s: Sess, r: Role, inNew: bool)
    requires SessOk(s, r) && |OldOrNew(s, inNew)| == 1
    ensures var t := WriteOut(s, inNew, 0);
      SessOk(t, r) && SameButBytes(s, t) && OldOrNew(t, inNew) == [[]] && t.kernel == s.kernel && t.axis + t.kernel == t.child
  {
    WriteKeeps(s, r, inNew, 0);
    var t := WriteOut(s, inNew, 0);
    assert OldOrNew(t, inNew) == [[]];
    assert t.axis + [] + t.kernel == t.axis + t.kernel;
  }

  lemma KernelEmptied(s: Sess, r: Role, inNew: bool)
    requires SessOk(s, r) && OldOrNew(s, inNew) == [[]] && (!inNew ==> !s.deadline)
    ensures var t := ReadInto(s, inNew, 0, |s.kernel|);
      SessOk(t, r) && SameButBytes(s, t) && |OldOrNew(t, inNew)| == 1 && t.kernel == []
  {
    ReadKeeps(s, r, inNew, 0, |s.kernel|);
    assert s.kernel[|s.kernel|..] == [];
  }

  lemma PumpEmptiesAll(s: Sess, r: Role, inNew: bool)
    requires SessOk(s, r) && |OldOrNew(s, inNew)| == 1 && (!inNew ==> !s.deadline)
    ensures var t := PumpsAll(s, inNew);
      SessOk(t, r) && SameButBytes(s, t) && OldOrNew(t, inNew) == [[]] && t.kernel == [] && t.axis == t.child
  {
    var s1 := WriteOut(s, inNew, 0);
    HandEmptied(s, r, inNew);
    KernelEmptied(s1, r, inNew);
    HandEmptied(ReadInto(s1, inNew, 0, |s.kernel|), r, inNew);
    var t := PumpsAll(s, inNew);
    assert t.axis + [] == t.axis;
  }

  /** All the child wrote is on the axis, in the ring of the daemon that pumps. */
  ghost predicate AllDelivered(s: Sess, inNew: bool) {
    s.axis == s.child && (if inNew then s.newRing.Some? && Mirrors(s.newRing.value, s.cap, s.child) else Mirrors(s.oldRing, s.cap, s.child))
  }

  /** The exit shows, once the child is gone. */
  predicate Finishes(s: Sess, inNew: bool) {
    s.childGone ==> (if inNew then SawEof(s, inNew).newExited else SawEof(s, inNew).exited)
  }

  lemma PumpDelivers(s: Sess, r: Role, inNew: bool)
    requires SessOk(s, r) && |OldOrNew(s, inNew)| == 1 && (!inNew ==> !s.deadline)
    ensures AllDelivered(PumpsAll(s, inNew), inNew) && Finishes(PumpsAll(s, inNew), inNew)
    ensures PumpsAll(s, inNew).child == s.child && PumpsAll(s, inNew).childGone == s.childGone
  {
    PumpEmptiesAll(s, r, inNew);
  }

  /**
   * Nothing a child wrote is lost: in every state of a run that kept to the assumptions, a pump that
   * has not been told to stop brings all that was written so far to the axis, in its daemon's ring;
   * and if the child is gone, the session's exit then shows.
   */
  lemma PumpsDeliver(caps: seq<nat>, es: seq<Event>, w: World, i: nat, inNew: bool)
    requires forall j :: 0 <= j < |caps| ==> caps[j] > 0
    requires AllAssumed(Boot(caps), es) && w == Exec(Boot(caps), es)
    requires i < |w.ss| && |OldOrNew(w.ss[i], inNew)| == 1 && (!inNew ==> !w.ss[i].deadline)
    ensures var t := Pumped(w, i, inNew).ss[i];
      AllDelivered(t, inNew) && Finishes(t, inNew) && t.child == w.ss[i].child && t.childGone == w.ss[i].childGone
  {
    BootHolds(caps);
    ExecKeeps(Boot(caps), es);
    assert SessOk(w.ss[i], RoleOf(Latest(w), i));
    PumpDelivers(w.ss[i], RoleOf(Latest(w), i), inNew);
  }

  // ── Failures lead to rollback, and rollback ends ────────────────────

  /** How often takeover t has called ResumeReader. */
  function Resumes(es: seq<Event>, t: nat): nat {
    if es == [] then 0
    else Resumes(es[..|es| - 1], t) + (if Resuming(es[|es| - 1], t) then 1 else 0)
  }

  predicate Resuming(e: Event, t: nat) { e.Of? && e.t == t && e.m.ResumeCall? }

  /** Neither the end of takeover t's rollback nor the beginning of another takeover. */
  predicate Amid(e: Event, t: nat) { !e.Start? && !(e.Of? && e.t == t && e.m.Relisten?) }

  predicate RolledTo(w: World, t: nat, n: nat, k: nat) {
    |w.ss| == n && |w.ts| == t + 1 && w.ts[t].pc == RollingBack(Min(k, n))
  }

  lemma RollbackMove(w: World, e: Event, t: nat, n: nat, k: nat, k': nat)
    requires RolledTo(w, t, n, k) && Amid(e, t) && k' == k + (if Resuming(e, t) then 1 else 0)
    ensures RolledTo(Do(w, e), t, n, k')
  {
  }

  /** Nothing but rollback's own resumes moves it on. */
  lemma {:induction false} RollbackMoves(w: World, es: seq<Event>, t: nat)
    requires RolledTo(w, t, |w.ss|, 0) && forall i :: 0 <= i < |es| ==> Amid(es[i], t)
    ensures RolledTo(Exec(w, es), t, |w.ss|, Resumes(es, t))
  {
    if es != [] {
      var init, e := es[..|es| - 1], es[|es| - 1];
      RollbackMoves(w, init, t);
      RollbackMove(Exec(w, init), e, t, |w.ss|, Resumes(init, t), Resumes(es, t));
    }
  }

  predicate Failure(m: Move) { m == Dial(false) || m == SendSession(false) || m == SendFinale(false) || m == AckFails }

  lemma SpentStays(w: World, t: nat, m: Move)
    requires Inv(w) && t < |w.ts| - 1 && Failure(m)
    ensures Do(w, Of(t, m)) == w
  {
    assert Earlier(w)[t] == w.ts[t];
    assert w.ts[t := w.ts[t]] == w.ts && Spent(w.ss, w.ts[t]);
  }

  lemma FailureRollsBack(w: World, t: nat, m: Move)
    requires Inv(w) && t < |w.ts| && Failure(m) && Do(w, Of(t, m)) != w
    ensures RolledTo(Do(w, Of(t, m)), t, |w.ss|, 0)
  {
    if t < |w.ts| - 1 {
      SpentStays(w, t, m);
    }
  }

  /**
   * A failure at dial, at any session's stream, at the finale, or an ACK that never comes, puts the
   * old daemon into rollback; and whatever children, pumps and new daemons do in between, once it
   * has resumed its sessions and listens again it serves, with every running session pumped once by
   * the old daemon and by no other.
   */
  lemma FailureEndsServing(caps: seq<nat>, es: seq<Event>, t: nat, m: Move, after: seq<Event>, w0: World, w: World)
    requires forall i :: 0 <= i < |caps| ==> caps[i] > 0
    requires AllAssumed(Boot(caps), es) && w0 == Exec(Boot(caps), es)
    requires t < |w0.ts| && Failure(m) && Assumed(w0, Of(t, m)) && w == Do(w0, Of(t, m)) != w0
    requires AllAssumed(w, after) && (forall i :: 0 <= i < |after| ==> Amid(after[i], t)) && Resumes(after, t) >= |w.ss|
    ensures w.ts[t].pc == RollingBack(0)
    ensures var v := Do(Exec(w, after), Of(t, Relisten(true)));
      Serves(v) && v.listening && forall i :: 0 <= i < |v.ss| ==> Promise(v, v.ss[i])
  {
    BootHolds(caps);
    ExecKeeps(Boot(caps), es);
    FailureRollsBack(w0, t, m);
    DoKeeps(w0, Of(t, m));
    ExecKeeps(w, after);
    RollbackMoves(w, after, t);
    RollbackServes(Exec(w, after), t);
  }

  lemma RollbackServes(w: World, t: nat)
    requires Inv(w) && RolledTo(w, t, |w.ss|, |w.ss|)
    ensures var v := Do(w, Of(t, Relisten(true)));
      Serves(v) && v.listening && forall i :: 0 <= i < |v.ss| ==> Promise(v, v.ss[i])
  {
    DoKeeps(w, Of(t, Relisten(true)));
    InvMeansPromise(Do(w, Of(t, Relisten(true))));
  }

  // ── What each assumption is for ─────────────────────────────────────

  /** Two pumps read the PTY of a session that was running when it was last frozen. */
  ghost predicate TwoPumps(w: World) {
    exists i :: 0 <= i < |w.ss| && !w.ss[i].exited && |w.ss[i].oldPumps| + |w.ss[i].newPumps| >= 2
  }

  /** Some run from w that keeps to the assumptions leads to v. */
  ghost predicate Reach(w: World, v: World) { exists es :: AllAssumed(w, es) && Exec(w, es) == v }

  lemma ReachSelf(w: World)
    ensures Reach(w, w)
  {
    assert AllAssumed(w, []) && Exec(w, []) == w;
  }

  lemma ReachOn(w: World, v: World, e: Event)
    requires Reach(w, v) && Assumed(v, e)
    ensures Reach(w, Do(v, e))
  {
    var es :| AllAssumed(w, es) && Exec(w, es) == v;
    assert (es + [e])[..|es|] == es && (es + [e])[|es|] == e;
    assert AllAssumed(w, es + [e]) && Exec(w, es + [e]) == Do(v, e);
  }

  lemma ReachMove(w: World, v: World, t: nat, m: Move, ss: seq<Sess>, a: Attempt) returns (v': World)
    requires Reach(w, v) && t < |v.ts| && Act(v.ss, v.ts[t], m) == (ss, a) && Assumed(v, Of(t, m))
    ensures Reach(w, v') && v'.ss == ss && v'.ts == v.ts[t := a]
  {
    v' := Do(v, Of(t, m));
    ReachOn(w, v, Of(t, m));
  }

  lemma ReachStep(w: World, v: World, e: Event, s: Sess) returns (v': World)
    requires Reach(w, v) && OnSession(e) && e.i < |v.ss| && s == Stepped(v.ss[e.i], e)
    ensures Reach(w, v') && v'.ss == v.ss[e.i := s] && v'.ts == v.ts
  {
    v' := Do(v, e);
    ReachOn(w, v, e);
  }

  /** Nothing in the old daemon pumps s, and it can be resumed if it runs. */
  predicate Halted(s: Sess) { s.oldPumps == [] && (!s.exited ==> s.paused && s.deadline) }

  /** At most one pump in the old daemon, and none once it has exited. */
  predicate Tame(s: Sess) { |s.oldPumps| <= 1 && (s.exited ==> s.oldPumps == []) }

  predicate AllTame(ss: seq<Sess>) { forall i :: 0 <= i < |ss| ==> Tame(ss[i]) }

  /** s' differs from s only in what the old daemon's pump has done. */
  predicate SameNew(s: Sess, s': Sess) { s'.exited == s.exited && s'.newPumps == s.newPumps && s'.newExited == s.newExited }

  predicate AllSameNew(ss: seq<Sess>, ss': seq<Sess>) { |ss'| == |ss| && forall i :: 0 <= i < |ss| ==> SameNew(ss[i], ss'[i]) }

  /** s' differs from s only in what a new daemon has done. */
  predicate SameOld(s: Sess, s': Sess) {
    s'.exited == s.exited && s'.oldPumps == s.oldPumps && s'.paused == s.paused && s'.deadline == s.deadline
  }

  /** A pump told to stop hands on what it holds and leaves, and the pause returns. */
  lemma PumpLeaves(w: World, v: World, t: nat, k: nat) returns (v': World)
    requires Reach(w, v) && t < |v.ts| && v.ts[t].pc == PauseWait(k) && k < |v.ss|
    requires Tame(v.ss[k]) && !v.ss[k].exited && v.ss[k].paused && v.ss[k].deadline
    ensures Reach(w, v') && v'.ts == v.ts[t := v.ts[t].(pc := Pausing(k + 1))]
    ensures |v'.ss| == |v.ss| && v'.ss == v.ss[k := v'.ss[k]] && Halted(v'.ss[k]) && SameNew(v.ss[k], v'.ss[k])
  {
    var v1 := PumpEmpties(w, v, k);
    v' := PauseReturned(w, v1, t, k);
  }

  lemma PauseReturned(w: World, v: World, t: nat, k: nat) returns (v': World)
    requires Reach(w, v) && t < |v.ts| && v.ts[t].pc == PauseWait(k) && k < |v.ss| && v.ss[k].oldPumps == []
    ensures Reach(w, v') && v'.ts == v.ts[t := v.ts[t].(pc := Pausing(k + 1))] && v'.ss == v.ss
  {
    v' := ReachMove(w, v, t, PauseReturns, v.ss, v.ts[t].(pc := Pausing(k + 1)));
  }

  lemma PumpEmpties(w: World, v: World, k: nat) returns (v': World)
    requires Reach(w, v) && k < |v.ss|
    requires Tame(v.ss[k]) && !v.ss[k].exited && v.ss[k].paused && v.ss[k].deadline
    ensures Reach(w, v') && v'.ts == v.ts
    ensures |v'.ss| == |v.ss| && v'.ss == v.ss[k := v'.ss[k]] && Halted(v'.ss[k]) && SameNew(v.ss[k], v'.ss[k])
  {
    var s1 := WriteOut(v.ss[k], false, 0);
    var v1 := ReachStep(w, v, PumpWrites(k, false, 0), s1);
    v' := ReachStep(w, v1, PumpStops(k, 0), Stopped(s1, 0));
    Emptied(v.ss[k], s1, Stopped(s1, 0));
  }

  lemma Emptied(s: Sess, s1: Sess, s2: Sess)
    requires Tame(s) && !s.exited && s.paused && s.deadline && s1 == WriteOut(s, false, 0) && s2 == Stopped(s1, 0)
    ensures Halted(s2) && SameNew(s, s2)
  {
  }

  /** Takeover t pauses session k, whatever state it is in. */
  lemma PauseOne(w: World, v: World, t: nat, k: nat) returns (v': World)
    requires Reach(w, v) && t < |v.ts| && v.ts[t].pc == Pausing(k) && k < |v.ss| && Tame(v.ss[k])
    ensures Reach(w, v') && v'.ts == v.ts[t := v.ts[t].(pc := Pausing(k + 1))]
    ensures |v'.ss| == |v.ss| && v'.ss == v.ss[k := v'.ss[k]] && Halted(v'.ss[k]) && SameNew(v.ss[k], v'.ss[k])
  {
    var s, a := v.ss[k], v.ts[t];
    if s.exited {
      v' := ReachMove(w, v, t, PauseCall(true), v.ss[k := s], a.(pc := Pausing(k + 1)));
    } else {
      var s1 := Paused(s, true);
      var v1 := ReachMove(w, v, t, PauseCall(true), v.ss[k := s1], a.(pc := PauseWait(k)));
      v' := PumpLeaves(w, v1, t, k);
    }
  }

  /** And all the sessions it has left. */
  lemma {:induction false} PauseRest(w: World, v: World, t: nat, k: nat) returns (v': World)
    requires Reach(w, v) && t < |v.ts| && v.ts[t].pc == Pausing(k) && k <= |v.ss| && AllTame(v.ss)
    requires forall i :: 0 <= i < k ==> Halted(v.ss[i])
    ensures Reach(w, v') && v'.ts == v.ts[t := v.ts[t].(pc := Pausing(|v.ss|))]
    ensures AllSameNew(v.ss, v'.ss) && forall i :: 0 <= i < |v'.ss| ==> Halted(v'.ss[i])
    decreases |v.ss| - k
  {
    if k == |v.ss| {
      v' := v;
      assert v.ts[t := v.ts[t].(pc := Pausing(k))] == v.ts;
    } else {
      var v1 := PauseOne(w, v, t, k);
      v' := PauseRest(w, v1, t, k + 1);
    }
  }

  /** Takeover t, with every session halted, sends them all, and the new daemon receives them. */
  lemma HandOver(w: World, v: World, t: nat) returns (v': World)
    requires Reach(w, v) && t < |v.ts| && v.ts[t] == Begun.(pc := Pausing(|v.ss|))
    ensures Reach(w, v') && v'.ss == v.ss && |v'.ts| == |v.ts|
    ensures v'.ts == v.ts[t := Attempt(AwaitingAck, v'.ts[t].sent, true, |v.ss|, false, false, 0)] && |v'.ts[t].sent| == |v.ss|
  {
    var v1 := ReachMove(w, v, t, Dial(true), v.ss, Begun.(pc := Streaming(0)));
    var v2 := SendRest(w, v1, t, 0);
    var a := v2.ts[t].(finSent := true, pc := AwaitingAck);
    var v3 := ReachMove(w, v2, t, SendFinale(true), v2.ss, a);
    v' := ReceiveRest(w, v3, t, 0);
  }

  lemma {:induction false} SendRest(w: World, v: World, t: nat, k: nat) returns (v': World)
    requires Reach(w, v) && t < |v.ts| && k <= |v.ss|
    requires v.ts[t] == Begun.(pc := Streaming(k), sent := v.ts[t].sent) && |v.ts[t].sent| == k
    ensures Reach(w, v') && v'.ss == v.ss && |v'.ts| == |v.ts|
    ensures v'.ts == v.ts[t := Begun.(pc := Streaming(|v.ss|), sent := v'.ts[t].sent)] && |v'.ts[t].sent| == |v.ss|
    decreases |v.ss| - k
  {
    if k == |v.ss| {
      v' := v;
    } else {
      var a := v.ts[t].(sent := v.ts[t].sent + [SnapOf(v.ss[k])], pc := Streaming(k + 1));
      var v1 := ReachMove(w, v, t, SendSession(true), v.ss, a);
      v' := SendRest(w, v1, t, k + 1);
    }
  }

  lemma {:induction false} ReceiveRest(w: World, v: World, t: nat, k: nat) returns (v': World)
    requires Reach(w, v) && t < |v.ts| && k <= |v.ts[t].sent|
    requires v.ts[t].received == k && !v.ts[t].newGone && !v.ts[t].acked
    ensures Reach(w, v') && v'.ss == v.ss && v'.ts == v.ts[t := v.ts[t].(received := |v.ts[t].sent|)]
    decreases |v.ts[t].sent| - k
  {
    if k == |v.ts[t].sent| {
      v' := v;
      assert v.ts[t := v.ts[t].(received := k)] == v.ts;
    } else {
      var v1 := ReachMove(w, v, t, Receive, v.ss, v.ts[t].(received := k + 1));
      v' := ReceiveRest(w, v1, t, k + 1);
    }
  }

  /** An ACKed takeover's new daemon adopts up to session i, which it has not adopted yet. */
  lemma {:induction false} AdoptUpTo(w: World, v: World, t: nat, i: nat) returns (v': World)
    requires Reach(w, v) && t < |v.ts| && v.ts[t].acked && v.ts[t].adopted <= i < |v.ss| <= |v.ts[t].sent|
    ensures Reach(w, v') && |v'.ss| == |v.ss| && v'.ts == v.ts[t := v.ts[t].(adopted := i + 1)]
    ensures forall j :: 0 <= j < |v.ss| ==> SameOld(v.ss[j], v'.ss[j])
    ensures |v'.ss[i].newPumps| == |v.ss[i].newPumps| + 1
    decreases i - v.ts[t].adopted
  {
    var k, a := v.ts[t].adopted, v.ts[t];
    var v1 := ReachMove(w, v, t, Adopt, v.ss[k := Adopted(v.ss[k], a.sent[k])], a.(adopted := k + 1));
    if k == i {
      v' := v1;
    } else {
      v' := AdoptUpTo(w, v1, t, i);
    }
  }

  /** A takeover that rolls back resumes session i, which it has not resumed yet. */
  lemma {:induction false} ResumeUpTo(w: World, v: World, t: nat, k: nat, i: nat) returns (v': World)
    requires Reach(w, v) && t < |v.ts| && v.ts[t].pc == RollingBack(k) && k <= i < |v.ss|
    requires Halted(v.ss[i]) && !v.ss[i].exited
    ensures Reach(w, v') && v'.ts == v.ts[t := v.ts[t].(pc := RollingBack(i + 1))]
    ensures AllSameNew(v.ss, v'.ss) && |v'.ss[i].oldPumps| == 1
    decreases i - k
  {
    var v1 := ReachMove(w, v, t, ResumeCall(true), v.ss[k := Resumed(v.ss[k], true)], v.ts[t].(pc := RollingBack(k + 1)));
    if k == i {
      v' := v1;
    } else {
      v' := ResumeUpTo(w, v1, t, k + 1, i);
    }
  }

  /** A takeover under way, with n sessions, that has no ACK. */
  predicate Underway(n: nat, a: Attempt) {
    !a.acked && (a.pc.AwaitingAck? || ((a.pc.Pausing? || a.pc.Streaming?) && a.pc.i <= n) || (a.pc.PauseWait? && a.pc.i < n))
  }

  /** The sessions it has in its hands. */
  predicate InHands(s: Sess, a: Attempt, i: nat) {
    match a.pc
    case Pausing(k) => i < k ==> Halted(s)
    case PauseWait(k) => (i < k ==> Halted(s)) && (i == k ==> !s.exited && s.paused && s.deadline)
    case _ => Halted(s)
  }

  /** It can fail, whatever it is doing. */
  lemma FailIt(w: World, v: World, t: nat) returns (v': World)
    requires Reach(w, v) && t < |v.ts| && Underway(|v.ss|, v.ts[t]) && AllTame(v.ss)
    requires forall i :: 0 <= i < |v.ss| ==> InHands(v.ss[i], v.ts[t], i)
    ensures Reach(w, v') && v'.ts == v.ts[t := v.ts[t].(pc := RollingBack(0))]
    ensures AllSameNew(v.ss, v'.ss) && forall i :: 0 <= i < |v'.ss| ==> Halted(v'.ss[i])
  {
    var a := v.ts[t];
    match a.pc {
      case Pausing(k) =>
        var v1 := PauseRest(w, v, t, k);
        v' := ReachMove(w, v1, t, Dial(false), v1.ss, a.(pc := RollingBack(0)));
      case PauseWait(k) =>
        var v1 := PumpLeaves(w, v, t, k);
        var v2 := PauseRest(w, v1, t, k + 1);
        v' := ReachMove(w, v2, t, Dial(false), v2.ss, a.(pc := RollingBack(0)));
      case Streaming(k) =>
        v' := ReachMove(w, v, t, if k < |v.ss| then SendSession(false) else SendFinale(false), v.ss, a.(pc := RollingBack(0)));
      case AwaitingAck =>
        v' := ReachMove(w, v, t, AckFails, v.ss, a.(pc := RollingBack(0)));
    }
  }

  // Each way to break an assumption, and what it can lead to.

  /** A takeover whose ACK is written can put a new pump on session i, unless it has already. */
  lemma NewPump(w: World, v: World, t: nat, i: nat) returns (v': World)
    requires Reach(w, v) && t < |v.ts| && v.ts[t].acked && i < |v.ss| <= |v.ts[t].sent|
    requires i < v.ts[t].adopted ==> |v.ss[i].newPumps| >= 1
    ensures Reach(w, v') && |v'.ss| == |v.ss| && SameOld(v.ss[i], v'.ss[i]) && |v'.ss[i].newPumps| >= 1
    ensures |v'.ts| == |v.ts| && forall u :: 0 <= u < |v.ts| && u != t ==> v'.ts[u] == v.ts[u]
    ensures v'.ts[t] == v.ts[t].(adopted := v'.ts[t].adopted)
    ensures (forall j :: 0 <= j < |v.ss| ==> SameOld(v.ss[j], v'.ss[j]))
  {
    if i < v.ts[t].adopted {
      v' := v;
    } else {
      v' := AdoptUpTo(w, v, t, i);
    }
  }

  lemma Two(w: World, v: World, i: nat)
    requires Reach(w, v) && i < |v.ss| && !v.ss[i].exited && |v.ss[i].oldPumps| + |v.ss[i].newPumps| >= 2
    ensures exists u :: Reach(w, u) && TwoPumps(u)
  {
    assert TwoPumps(v);
  }

  /** From a takeover that rolls back with an ACK out: the old daemon resumes i, and the new one adopts it. */
  lemma BothPump(w: World, v: World, t: nat, i: nat)
    requires Reach(w, v) && t < |v.ts| && v.ts[t].acked && i < |v.ss| <= |v.ts[t].sent| && !v.ss[i].exited
    requires i < v.ts[t].adopted ==> |v.ss[i].newPumps| >= 1
    requires |v.ss[i].oldPumps| >= 1 || (v.ts[t].pc.RollingBack? && v.ts[t].pc.i <= i && Halted(v.ss[i]))
    ensures exists u :: Reach(w, u) && TwoPumps(u)
  {
    var v1 := v;
    if |v.ss[i].oldPumps| == 0 {
      v1 := ResumeUpTo(w, v, t, v.ts[t].pc.i, i);
    }
    var v2 := NewPump(w, v1, t, i);
    Two(w, v2, i);
  }

  lemma SpentTakes(w: World, t: nat)
    requires Inv(w) && t < |w.ts| - 1
    ensures Spent(w.ss, w.ts[t])
  {
    assert Earlier(w)[t] == w.ts[t];
  }

  lemma OkMeans(w: World, i: nat)
    requires Inv(w) && i < |w.ss|
    ensures SessOk(w.ss[i], RoleOf(Latest(w), i)) && Tame(w.ss[i])
    ensures InHands(w.ss[i], Latest(w), i) || !Underway(|w.ss|, Latest(w))
  {
    assert SessOk(w.ss[i], RoleOf(Latest(w), i));
  }

  lemma OkMeansAll(w: World)
    requires Inv(w)
    ensures AllTame(w.ss)
    ensures Underway(|w.ss|, Latest(w)) ==> forall i :: 0 <= i < |w.ss| ==> InHands(w.ss[i], Latest(w), i)
  {
    forall i | 0 <= i < |w.ss|
      ensures Tame(w.ss[i]) && (Underway(|w.ss|, Latest(w)) ==> InHands(w.ss[i], Latest(w), i))
    {
      OkMeans(w, i);
    }
  }

  lemma LostAckDoubles(w: World, e: Event, i: nat)
    requires Inv(w) && LostAck(w, e) && i < |w.ss| && !w.ss[i].exited && !w.ss[i].newExited
    ensures exists u :: Reach(Do(w, e), u) && TwoPumps(u)
  {
    if e.t < |w.ts| - 1 {
      SpentTakes(w, e.t);
    } else {
      OkMeans(w, i);
      ReachSelf(Do(w, e));
      BothPump(Do(w, e), Do(w, e), e.t, i);
    }
  }

  /** Takeover t is rolling back or under way without an ACK: it can come to resume session i. */
  lemma OldPump(w: World, v: World, t: nat, i: nat) returns (v': World)
    requires Reach(w, v) && t < |v.ts| && i < |v.ss| && !v.ss[i].exited && AllTame(v.ss)
    requires if v.ts[t].pc.RollingBack? then v.ts[t].pc.i <= i && Halted(v.ss[i])
      else Underway(|v.ss|, v.ts[t]) && forall j :: 0 <= j < |v.ss| ==> InHands(v.ss[j], v.ts[t], j)
    ensures Reach(w, v') && AllSameNew(v.ss, v'.ss) && |v'.ss[i].oldPumps| == 1
    ensures |v'.ts| == |v.ts| && forall u :: 0 <= u < |v.ts| && u != t ==> v'.ts[u] == v.ts[u]
    ensures v'.ts[t] == v.ts[t].(pc := v'.ts[t].pc)
  {
    if v.ts[t].pc.RollingBack? {
      v' := ResumeUpTo(w, v, t, v.ts[t].pc.i, i);
    } else {
      var v1 := FailIt(w, v, t);
      v' := ResumeUpTo(w, v1, t, 0, i);
    }
  }

  /** Takeover t, whose ACK is out, adopts session i a first time, beside whoever pumps it already. */
  lemma Joins(w: World, v: World, t: nat, i: nat)
    requires Reach(w, v) && t < |v.ts| && v.ts[t].acked && v.ts[t].adopted <= i < |v.ss| <= |v.ts[t].sent|
    requires !v.ss[i].exited && |v.ss[i].oldPumps| + |v.ss[i].newPumps| >= 1
    ensures exists u :: Reach(w, u) && TwoPumps(u)
  {
    var v1 := AdoptUpTo(w, v, t, i);
    Two(w, v1, i);
  }

  lemma LateAckDoubles(w: World, e: Event, i: nat)
    requires Inv(w) && LateAck(w, e) && i < |w.ss| && !w.ss[i].exited && !w.ss[i].newExited
    ensures exists u :: Reach(Do(w, e), u) && TwoPumps(u)
  {
    var w1, last := Do(w, e), |w.ts| - 1;
    var a := w.ts[last];
    OkMeans(w, i);
    OkMeansAll(w);
    ReachSelf(w1);
    if e.t < last {
      SpentTakes(w, e.t);
    }
    if |w.ss[i].oldPumps| + |w.ss[i].newPumps| >= 1 {
      Joins(w1, w1, e.t, i);
    } else if a.acked {
      var v := NewPump(w1, w1, last, i);
      Joins(w1, v, e.t, i);
    } else {
      var v := OldPump(w1, w1, last, i);
      Joins(w1, v, e.t, i);
    }
  }

  /** Whatever the sessions look like, takeover u, which has just begun, can bring the new daemon to the point of its ACK. */
  lemma ReadyToAck(w: World, v: World, u: nat) returns (v': World)
    requires Reach(w, v) && u < |v.ts| && v.ts[u] == Begun && AllTame(v.ss)
    ensures Reach(w, v') && AllSameNew(v.ss, v'.ss) && forall i :: 0 <= i < |v'.ss| ==> Halted(v'.ss[i])
    ensures |v'.ts| == |v.ts| && forall t :: 0 <= t < |v.ts| && t != u ==> v'.ts[t] == v.ts[t]
    ensures v'.ts[u] == Attempt(AwaitingAck, v'.ts[u].sent, true, |v.ss|, false, false, 0) && |v'.ts[u].sent| == |v.ss|
  {
    var v1 := PauseRest(w, v, u, 0);
    v' := HandOver(w, v1, u);
  }

  /** Begun beside a takeover with an ACK: that one's new daemon pumps, and the second rolls back and resumes. */
  lemma OverlapAcked(w: World, v: World, t: nat, u: nat, i: nat)
    requires Reach(w, v) && t < u < |v.ts| && v.ts[u] == Begun && AllTame(v.ss)
    requires v.ts[t].acked && i < |v.ss| <= |v.ts[t].sent| && !v.ss[i].exited
    requires i < v.ts[t].adopted ==> |v.ss[i].newPumps| >= 1
    ensures exists x :: Reach(w, x) && TwoPumps(x)
  {
    var v1 := NewPump(w, v, t, i);
    assert forall j :: 0 <= j < |v1.ss| ==> SameOld(v.ss[j], v1.ss[j]);
    var v2 := OldPump(w, v1, u, i);
    Two(w, v2, i);
  }

  /** Begun beside one without: the second hands over, and the first rolls back and resumes what it froze. */
  lemma OverlapUnacked(w: World, v: World, t: nat, u: nat, i: nat)
    requires Reach(w, v) && t < u < |v.ts| && v.ts[u] == Begun && AllTame(v.ss) && i < |v.ss| && !v.ss[i].exited
    requires (v.ts[t].pc.RollingBack? && v.ts[t].pc.i <= i) || Underway(|v.ss|, v.ts[t])
    requires v.ts[t].pc.PauseWait? ==> !v.ss[v.ts[t].pc.i].exited
    ensures exists x :: Reach(w, x) && TwoPumps(x)
  {
    var v1 := ReadyToAck(w, v, u);
    assert SameNew(v.ss[i], v1.ss[i]);
    if v.ts[t].pc.PauseWait? {
      assert SameNew(v.ss[v.ts[t].pc.i], v1.ss[v.ts[t].pc.i]);
    }
    var v2 := OldPump(w, v1, t, i);
    assert SameNew(v1.ss[i], v2.ss[i]);
    AckAndJoin(w, v2, u, i);
  }

  lemma AckAndJoin(w: World, v: World, u: nat, i: nat)
    requires Reach(w, v) && u < |v.ts| && i < |v.ss| && !v.ss[i].exited && |v.ss[i].oldPumps| == 1
    requires v.ts[u] == Attempt(AwaitingAck, v.ts[u].sent, true, |v.ss|, false, false, 0) && |v.ts[u].sent| == |v.ss|
    ensures exists x :: Reach(w, x) && TwoPumps(x)
  {
    var v1 := ReachMove(w, v, u, WriteAck, v.ss, v.ts[u].(acked := true));
    Joins(w, v1, u, i);
  }

  lemma OverlapDoubles(w: World, i: nat)
    requires Inv(w) && Overlap(w, Start) && i < |w.ss| && !w.ss[i].exited && !w.ss[i].newExited
    ensures exists u :: Reach(Do(w, Start), u) && TwoPumps(u)
  {
    var w1, u := Do(w, Start), |w.ts|;
    ReachSelf(w1);
    OkMeansAll(w);
    LatestUnspent(w);
    var t, a := u - 1, Latest(w);
    OkMeans(w, i);
    if a.acked {
      OverlapAcked(w1, w1, t, u, i);
    } else if a.pc.RollingBack? {
      var j :| a.pc.i <= j < |w.ss| && !w.ss[j].exited;
      OverlapUnacked(w1, w1, t, u, j);
    } else {
      if a.pc.PauseWait? {
        OkMeans(w, a.pc.i);
      }
      OverlapUnacked(w1, w1, t, u, i);
    }
  }

  lemma LatestUnspent(w: World)
    requires Inv(w) && !AllSpent(w.ss, w.ts)
    ensures w.ts != [] && !Spent(w.ss, Latest(w))
  {
    if w.ts == [] || Spent(w.ss, Latest(w)) {
      forall t | 0 <= t < |w.ts|
        ensures Spent(w.ss, w.ts[t])
      {
        if t < |w.ts| - 1 {
          SpentTakes(w, t);
        }
      }
    }
  }

  /**
   * What the assumptions are for, exactly. Take any state of any run that kept to them, a session that
   * runs, and any next step (with working deadlines). Two pumps can come to read one PTY, though
   * everything after that step keeps to the assumptions again, if and only if the step is one of
   * three: the read of an ACK fails after the ACK was written; an ACK is written after its read has
   * failed; or a takeover begins while an earlier one still has a running session in its hands.
   */
  lemma TwoPumpsIffBroken(w: World, e: Event, i: nat)
    requires Inv(w) && DeadlineWorks(e) && i < |w.ss| && !w.ss[i].exited && !w.ss[i].newExited
    ensures (exists v :: Reach(Do(w, e), v) && TwoPumps(v)) <==> Breaks(w, e)
  {
    if LostAck(w, e) {
      LostAckDoubles(w, e, i);
    } else if LateAck(w, e) {
      LateAckDoubles(w, e, i);
    } else if Overlap(w, e) {
      OverlapDoubles(w, i);
    } else {
      DoKeeps(w, e);
      forall v | Reach(Do(w, e), v)
        ensures !TwoPumps(v)
      {
        var es :| AllAssumed(Do(w, e), es) && Exec(Do(w, e), es) == v;
        ExecKeeps(Do(w, e), es);
        InvMeansPromise(v);
      }
    }
  }

  // ── The three, each in a run ────────────────────────────────────────

  lemma GoOn(w: World, es: seq<Event>, v: World, e: Event, u: World) returns (es': seq<Event>)
    requires Exec(w, es) == v && Do(v, e) == u
    ensures es' == es + [e] && Exec(w, es') == u
  {
    es' := es + [e];
    assert es'[..|es|] == es;
  }

  /** One session under one takeover, with p more requests pending. */
  function One(s: Sess, a: Attempt, p: nat): World { World([s], false, p, [a]) }

  const Running := Sess(1, [], false, [], [], Empty, [[]], false, false, false, None, [], false, false)
  const Asleep := Running.(paused := true, deadline := true, oldPumps := [])

  /** The new daemon has everything, and the old one waits for the ACK. */
  const Waiting := Attempt(AwaitingAck, [SnapOf(Asleep)], true, 1, false, false, 0)

  /** A takeover of one session, from its beginning to that point. */
  const Handing := [Of(0, PauseCall(true)), PumpStops(0, 0), Of(0, PauseReturns), Of(0, Dial(true)),
                    Of(0, SendSession(true)), Of(0, SendFinale(true)), Of(0, Receive)]

  lemma WakeUp()
    ensures Resumed(Asleep, true) == Running && Stopped(Running.(paused := true, deadline := true), 0) == Asleep
    ensures var s := Adopted(Running, SnapOf(Asleep)); |s.newPumps| == 1 && |s.oldPumps| == 1 && !s.exited
  {
    assert Asleep.oldPumps + [[]] == Running.oldPumps;
  }

  lemma HandedOver(w0: World, es: seq<Event>, p: nat)
    requires Exec(w0, es) == One(Running, Begun, p)
    ensures Exec(w0, es + Handing) == One(Asleep, Waiting, p)
  {
    var es1 := PausedOne(w0, es, p);
    var es2 := SentOne(w0, es1, p);
    assert es2 == es + Handing;
  }

  lemma PausedOne(w0: World, es: seq<Event>, p: nat) returns (es': seq<Event>)
    requires Exec(w0, es) == One(Running, Begun, p)
    ensures es' == es + Handing[..3]
    ensures Exec(w0, es') == One(Asleep, Begun.(pc := Pausing(1)), p)
  {
    var s1, a := Running.(paused := true, deadline := true), Begun.(pc := PauseWait(0));
    WakeUp();
    es' := GoOn(w0, es, One(Running, Begun, p), Of(0, PauseCall(true)), One(s1, a, p));
    es' := GoOn(w0, es', One(s1, a, p), PumpStops(0, 0), One(Asleep, a, p));
    es' := GoOn(w0, es', One(Asleep, a, p), Of(0, PauseReturns), One(Asleep, Begun.(pc := Pausing(1)), p));
  }

  lemma SentOne(w0: World, es: seq<Event>, p: nat) returns (es': seq<Event>)
    requires Exec(w0, es) == One(Asleep, Begun.(pc := Pausing(1)), p)
    ensures es' == es + Handing[3..]
    ensures Exec(w0, es') == One(Asleep, Waiting, p)
  {
    var a, b, c := Begun.(pc := Pausing(1)), Begun.(pc := Streaming(0)), Waiting.(pc := Streaming(1), finSent := false, received := 0);
    assert b.sent + [SnapOf(Asleep)] == c.sent;
    es' := GoOn(w0, es, One(Asleep, a, p), Of(0, Dial(true)), One(Asleep, b, p));
    es' := GoOn(w0, es', One(Asleep, b, p), Of(0, SendSession(true)), One(Asleep, c, p));
    es' := FinishedOne(w0, es', c, p);
  }

  lemma FinishedOne(w0: World, es: seq<Event>, c: Attempt, p: nat) returns (es': seq<Event>)
    requires c == Waiting.(pc := Streaming(1), finSent := false, received := 0) && Exec(w0, es) == One(Asleep, c, p)
    ensures es' == es + Handing[5..] && Exec(w0, es') == One(Asleep, Waiting, p)
  {
    var d := Waiting.(received := 0);
    es' := GoOn(w0, es, One(Asleep, c, p), Of(0, SendFinale(true)), One(Asleep, d, p));
    es' := GoOn(w0, es', One(Asleep, d, p), Of(0, Receive), One(Asleep, Waiting, p));
  }

  lemma FirstBegins()
    ensures Exec(Boot([1]), [Dispatch, Start]) == One(Running, Begun, 0)
    ensures Exec(Boot([1]), [Dispatch, Dispatch, Start]) == One(Running, Begun, 1)
  {
    var w0 := World([Running], true, 0, []);
    assert Boot([1]) == w0 && Exec(w0, []) == w0;
    var es := GoOn(w0, [], w0, Dispatch, w0.(pending := 1));
    var es1 := GoOn(w0, es, w0.(pending := 1), Start, One(Running, Begun, 0));
    assert es1 == [Dispatch, Start];
    var es2 := GoOn(w0, es, w0.(pending := 1), Dispatch, w0.(pending := 2));
    es2 := GoOn(w0, es2, w0.(pending := 2), Start, One(Running, Begun, 1));
    assert es2 == [Dispatch, Dispatch, Start];
  }

  /**
   * The late ACK, with one running session: the read of the ACK fails, the rollback begins, the ACK is
   * written all the same, the old daemon resumes the session, and the new one adopts it.
   */
  lemma LateAckRun(es: seq<Event>)
    requires es == [Dispatch, Start] + Handing + [Of(0, AckFails), Of(0, WriteAck), Of(0, ResumeCall(true)), Of(0, Adopt)]
    ensures TwoPumps(Exec(Boot([1]), es))
  {
    var w0, a := Boot([1]), Waiting.(pc := RollingBack(0));
    FirstBegins();
    HandedOver(w0, [Dispatch, Start], 0);
    var es1 := GoOn(w0, [Dispatch, Start] + Handing, One(Asleep, Waiting, 0), Of(0, AckFails), One(Asleep, a, 0));
    es1 := GoOn(w0, es1, One(Asleep, a, 0), Of(0, WriteAck), One(Asleep, a.(acked := true), 0));
    es1 := EndInBoth(w0, es1, a.(acked := true));
    assert es1 == es;
  }

  /** The lost ACK: it is written first, and then the read fails. */
  lemma LostAckRun(es: seq<Event>)
    requires es == [Dispatch, Start] + Handing + [Of(0, WriteAck), Of(0, AckFails), Of(0, ResumeCall(true)), Of(0, Adopt)]
    ensures TwoPumps(Exec(Boot([1]), es))
  {
    var w0, a := Boot([1]), Waiting.(acked := true);
    FirstBegins();
    HandedOver(w0, [Dispatch, Start], 0);
    var es1 := GoOn(w0, [Dispatch, Start] + Handing, One(Asleep, Waiting, 0), Of(0, WriteAck), One(Asleep, a, 0));
    es1 := GoOn(w0, es1, One(Asleep, a, 0), Of(0, AckFails), One(Asleep, a.(pc := RollingBack(0)), 0));
    es1 := EndInBoth(w0, es1, a.(pc := RollingBack(0)));
    assert es1 == es;
  }

  lemma EndInBoth(w0: World, es: seq<Event>, a: Attempt) returns (es': seq<Event>)
    requires a == Waiting.(pc := RollingBack(0), acked := true) && Exec(w0, es) == One(Asleep, a, 0)
    ensures es' == es + [Of(0, ResumeCall(true)), Of(0, Adopt)] && TwoPumps(Exec(w0, es'))
  {
    var b := a.(pc := RollingBack(1));
    WakeUp();
    es' := GoOn(w0, es, One(Asleep, a, 0), Of(0, ResumeCall(true)), One(Running, b, 0));
    var s := Adopted(Running, SnapOf(Asleep));
    var last := One(s, b.(adopted := 1), 0);
    es' := GoOn(w0, es', One(Running, b, 0), Of(0, Adopt), last);
    assert last.ss[0] == s;
  }

  function Both(s: Sess, a: Attempt, b: Attempt): World { World([s], false, 0, [a, b]) }

  /**
   * The overlap: two requests come in before the first one's goroutine closes the listener. The second
   * begins when the first waits for its ACK, finds the session paused, cannot reach its own new daemon,
   * and rolls back, which resumes the session that the first is handing over. No ACK is lost or late.
   */
  lemma OverlapRun(es: seq<Event>)
    requires es == [Dispatch, Dispatch, Start] + Handing
      + [Start, Of(1, PauseCall(true)), Of(1, PauseReturns), Of(1, Dial(false)), Of(1, ResumeCall(true))]
      + [Of(0, WriteAck), Of(0, Adopt)]
    ensures TwoPumps(Exec(Boot([1]), es))
  {
    var w0, es0 := Boot([1]), [Dispatch, Dispatch, Start] + Handing;
    FirstBegins();
    HandedOver(w0, [Dispatch, Dispatch, Start], 1);
    var es1 := GoOn(w0, es0, One(Asleep, Waiting, 1), Start, Both(Asleep, Waiting, Begun));
    var es2 := SecondRollsBack(w0, es1);
    var es3 := FirstAdopts(w0, es2);
    assert es3 == es;
  }

  lemma SecondRollsBack(w: World, es: seq<Event>) returns (es': seq<Event>)
    requires Exec(w, es) == Both(Asleep, Waiting, Begun)
    ensures es' == es + [Of(1, PauseCall(true)), Of(1, PauseReturns), Of(1, Dial(false)), Of(1, ResumeCall(true))]
    ensures Exec(w, es') == Both(Running, Waiting, Begun.(pc := RollingBack(1)))
  {
    var p, q, r := Begun.(pc := PauseWait(0)), Begun.(pc := Pausing(1)), Begun.(pc := RollingBack(0));
    WakeUp();
    es' := GoOn(w, es, Both(Asleep, Waiting, Begun), Of(1, PauseCall(true)), Both(Asleep, Waiting, p));
    es' := GoOn(w, es', Both(Asleep, Waiting, p), Of(1, PauseReturns), Both(Asleep, Waiting, q));
    es' := GoOn(w, es', Both(Asleep, Waiting, q), Of(1, Dial(false)), Both(Asleep, Waiting, r));
    es' := GoOn(w, es', Both(Asleep, Waiting, r), Of(1, ResumeCall(true)), Both(Running, Waiting, Begun.(pc := RollingBack(1))));
  }

  lemma FirstAdopts(w: World, es: seq<Event>) returns (es': seq<Event>)
    requires Exec(w, es) == Both(Running, Waiting, Begun.(pc := RollingBack(1)))
    ensures es' == es + [Of(0, WriteAck), Of(0, Adopt)] && TwoPumps(Exec(w, es'))
  {
    var b, c, s := Begun.(pc := RollingBack(1)), Waiting.(acked := true), Adopted(Running, SnapOf(Asleep));
    WakeUp();
    es' := GoOn(w, es, Both(Running, Waiting, b), Of(0, WriteAck), Both(Running, c, b));
    var last := Both(s, c.(adopted := 1), b);
    es' := GoOn(w, es', Both(Running, c, b), Of(0, Adopt), last);
    assert last.ss[0] == s;
  }

  // ── When SetReadDeadline fails ──────────────────────────────────────

  /** A running session with its one pump, after a pause (whose pump, if told to, has left) and a resume. */
  function PausedAndResumed(s: Sess, pauseOk: bool, resumeOk: bool): Sess
    requires s.oldPumps == [[]]
  {
    var p := Paused(s, pauseOk);
    Resumed(if pauseOk then Stopped(p, 0) else p, resumeOk)
  }

  /**
   * Rollback leaves exactly one pump precisely when SetReadDeadline worked both times or failed
   * both times: if only the pause failed there are two, and if only the resume failed there is none.
   */
  lemma OnePumpIffDeadlinesAgree(s: Sess, pauseOk: bool, resumeOk: bool)
    requires s.oldPumps == [[]] && !s.exited && !s.paused && !s.deadline
    ensures |PausedAndResumed(s, pauseOk, resumeOk).oldPumps| == (if pauseOk then 0 else 1) + (if resumeOk then 1 else 0)
    ensures |PausedAndResumed(s, pauseOk, resumeOk).oldPumps| == 1 <==> pauseOk == resumeOk
  {
  }
}
