/**
 * pkg/daemon/conn.go pumpOutput, against the writer in pkg/host/session.go: replay, send in
 * chunks, wait, repeat, and EXIT once the session is over and drained.
 */
module OutputPump {
  import opened Bytes
  import opened RingBuffer

  const CHUNK := 64 * 1024 // outputChunkBytes

  datatype Frame = Output(at: nat, payload: seq<byte>) | RingGone(from: nat, to: nat) | Exit

  /** What a subscriber sees of a session: its ring, and whether `finish` has flipped the state. */
  datatype Session = Session(ring: View, exited: bool)

  datatype Phase = Replaying | Sending | Waiting | Done

  datatype Pump = Pump(lastSeen: nat, phase: Phase, data: seq<byte>, fromSeq: nat, off: nat)

  function Attached(since: nat): Pump { Pump(since, Replaying, [], since, 0) }

  /** One atomic step of pumpOutput: a ring read, one frame written, or one look under the session lock. */
  function PumpStep(s: Session, p: Pump): (Pump, seq<Frame>)
    requires s.ring.Ok()
  {
    match p.phase
    case Replaying =>
      var r := ReplayOf(s.ring, p.lastSeen);
      (p.(phase := Sending, data := r.data, fromSeq := r.fromSeq, off := 0),
       if r.truncated && p.lastSeen > 0 then [RingGone(p.lastSeen, r.fromSeq)] else [])
    case Sending =>
      if p.off < |p.data| then
        (p.(off := p.off + CHUNK), [Output(p.fromSeq + p.off, p.data[p.off..Min(p.off + CHUNK, |p.data|)])])
      else
        (p.(phase := Waiting, lastSeen := if |p.data| > 0 then p.fromSeq + |p.data| else p.lastSeen), [])
    case Waiting =>
      if s.ring.end <= p.lastSeen && !s.exited then (p, []) // WaitOutput blocks
      else if s.exited && s.ring.end == p.lastSeen then (p.(phase := Done), [Exit])
      else (p.(phase := Replaying), [])
    case Done => (p, [])
  }

  /** A session, one subscriber's pump, the whole output so far, and every frame the pump has sent. */
  datatype System = System(stream: seq<byte>, sess: Session, pump: Pump, sent: seq<Frame>)

  datatype Event = Write(p: seq<byte>) | Finish | Turn

  /** The reader writes only while the session runs; `finish` comes after its last write. */
  function Do(cap: nat, s: System, e: Event): System
    requires s.sess.ring.Ok()
  {
    match e
    case Write(p) =>
      if s.sess.exited then s
      else s.(stream := s.stream + p, sess := s.sess.(ring := Written(s.sess.ring, cap, p)))
    case Finish => s.(sess := s.sess.(exited := true))
    case Turn =>
      var (p, out) := PumpStep(s.sess, s.pump);
      s.(pump := p, sent := s.sent + out)
  }

  function Exec(cap: nat, s: System, es: seq<Event>): (r: System)
    requires s.sess.ring.Ok()
    ensures r.sess.ring.Ok()
  {
    if es == [] then s else Do(cap, Exec(cap, s, es[..|es| - 1]), es[|es| - 1])
  }

  /** The position a receiver has reached after these frames. */
  function Cursor(sent: seq<Frame>, since: nat): nat {
    if sent == [] then since
    else match sent[|sent| - 1]
      case Output(q, d) => q + |d|
      case RingGone(_, to) => to
      case Exit => Cursor(sent[..|sent| - 1], since)
  }

  /** EXIT was the last frame. */
  predicate Over(sent: seq<Frame>) { sent != [] && sent[|sent| - 1] == Exit }

  /** When f may be sent to a receiver that has reached position c. */
  ghost predicate MayFollow(f: Frame, c: nat, stream: seq<byte>, oldest: nat) {
    match f
    case Output(q, d) =>
      && 0 < |d| <= CHUNK
      && q + |d| <= |stream| && d == stream[q..q + |d|]
      && (q == c || (c == 0 && q <= oldest))
    case RingGone(a, b) => a == c && 0 < a < b <= oldest
    case Exit => c == |stream|
  }

  /**
   * What every subscriber is promised: bounded non-empty frames of true bytes, each starting where
   * the last stopped; positions skipped only when the ring no longer holds them, and announced
   * unless nothing had been seen yet; EXIT last, and only at the end of the stream.
   */
  ghost predicate WellSent(sent: seq<Frame>, since: nat, stream: seq<byte>, oldest: nat) {
    sent == [] ||
    (var init := sent[..|sent| - 1];
     WellSent(init, since, stream, oldest) && !Over(init)
     && MayFollow(sent[|sent| - 1], Cursor(init, since), stream, oldest))
  }

  /** A pump whose frames have brought its receiver to c; over says that EXIT was sent. */
  ghost predicate PumpOk(p: Pump, c: nat, over: bool, exited: bool, stream: seq<byte>, oldest: nat) {
    && c <= |stream|
    && (over <==> p.phase.Done?)
    && (over ==> exited && c == |stream|)
    && (p.phase.Replaying? || p.phase.Waiting? ==> p.lastSeen == c)
    && (p.phase.Sending? ==>
          && p.fromSeq + |p.data| <= |stream|
          && p.data == stream[p.fromSeq..p.fromSeq + |p.data|]
          && (p.data == [] ==> p.lastSeen == c)
          && (0 < p.off ==> c == p.fromSeq + Min(p.off, |p.data|))
          && (p.off == 0 ==> c == p.fromSeq || (c == 0 && p.fromSeq <= oldest)))
  }

  ghost predicate Inv(cap: nat, since: nat, s: System) {
    var oldest := Max(0, |s.stream| - cap);
    && cap > 0 && Mirrors(s.sess.ring, cap, s.stream)
    && WellSent(s.sent, since, s.stream, oldest)
    && PumpOk(s.pump, Cursor(s.sent, since), Over(s.sent), s.sess.exited, s.stream, oldest)
  }

  lemma {:induction false} StreamGrows(sent: seq<Frame>, since: nat, stream: seq<byte>, oldest: nat, p: seq<byte>, oldest': nat)
    requires WellSent(sent, since, stream, oldest) && !Over(sent) && oldest <= oldest'
    ensures WellSent(sent, since, stream + p, oldest')
  {
    if sent != [] {
      StreamGrows(sent[..|sent| - 1], since, stream, oldest, p, oldest');
    }
  }

  function CursorAfter(f: Frame, c: nat): nat {
    match f case Output(q, d) => q + |d| case RingGone(_, b) => b case Exit => c
  }

  lemma Extend(sent: seq<Frame>, f: Frame, since: nat, stream: seq<byte>, oldest: nat)
    requires WellSent(sent, since, stream, oldest) && !Over(sent) && MayFollow(f, Cursor(sent, since), stream, oldest)
    ensures WellSent(sent + [f], since, stream, oldest)
    ensures Cursor(sent + [f], since) == CursorAfter(f, Cursor(sent, since))
    ensures Over(sent + [f]) <==> f == Exit
  {
    assert (sent + [f])[..|sent + [f]| - 1] == sent;
  }

  lemma Replayed(cap: nat, v: View, stream: seq<byte>, lastSeen: nat) returns (r: Replay)
    requires cap > 0 && Mirrors(v, cap, stream) && lastSeen <= |stream|
    ensures v.Ok() && r == ReplayOf(v, lastSeen)
    ensures r.fromSeq == Max(lastSeen, Max(0, |stream| - cap)) && r.fromSeq + |r.data| == |stream|
    ensures r.data == stream[r.fromSeq..r.fromSeq + |r.data|]
    ensures r.truncated <==> lastSeen < Max(0, |stream| - cap)
  {
    MirroredReplay(v, cap, stream, lastSeen);
    r := ReplayOf(v, lastSeen);
  }

  /**
   * What one step of a pump amounts to: at most one frame, and one that may follow; unless there is
   * nothing to do, it uses up one of the steps left.
   */
  ghost predicate StepOk(s: Session, p: Pump, c: nat, over: bool, stream: seq<byte>, oldest: nat)
    requires s.ring.Ok()
  {
    var (p', out) := PumpStep(s, p);
    && (out == [] ==> PumpOk(p', c, over, s.exited, stream, oldest))
    && (out != [] ==>
          && out == [out[0]] && !over && MayFollow(out[0], c, stream, oldest)
          && PumpOk(p', CursorAfter(out[0], c), out[0] == Exit, s.exited, stream, oldest))
    && (!AtRest(p, s.exited, |stream|) ==> 0 <= StepsLeft(p', |stream|) < StepsLeft(p, |stream|))
  }

  lemma ReplayOk(cap: nat, s: Session, p: Pump, c: nat, stream: seq<byte>)
    requires cap > 0 && Mirrors(s.ring, cap, stream) && p.phase.Replaying?
    requires PumpOk(p, c, false, s.exited, stream, Max(0, |stream| - cap))
    ensures s.ring.Ok() && StepOk(s, p, c, false, stream, Max(0, |stream| - cap))
  {
    var r := Replayed(cap, s.ring, stream, p.lastSeen);
    TakenUp(s, p, c, stream, Max(0, |stream| - cap), r);
  }

  lemma TakenUp(s: Session, p: Pump, c: nat, stream: seq<byte>, oldest: nat, r: Replay)
    requires s.ring.Ok() && p.phase.Replaying? && PumpOk(p, c, false, s.exited, stream, oldest)
    requires r == ReplayOf(s.ring, p.lastSeen) && (oldest < |stream| || oldest == 0)
    requires r.fromSeq == Max(p.lastSeen, oldest) && r.fromSeq + |r.data| == |stream|
    requires r.data == stream[r.fromSeq..r.fromSeq + |r.data|] && (r.truncated <==> p.lastSeen < oldest)
    ensures StepOk(s, p, c, false, stream, oldest)
  {
    TakenOk(p, PumpStep(s, p).0, c, s.exited, stream, oldest, r);
  }

  lemma TakenOk(p: Pump, p': Pump, c: nat, exited: bool, stream: seq<byte>, oldest: nat, r: Replay)
    requires p.phase.Replaying? && p.lastSeen == c <= |stream| && (oldest < |stream| || oldest == 0)
    requires p' == p.(phase := Sending, data := r.data, fromSeq := r.fromSeq, off := 0)
    requires r.fromSeq == Max(c, oldest) && r.fromSeq + |r.data| == |stream|
    requires r.data == stream[r.fromSeq..r.fromSeq + |r.data|] && (r.truncated <==> c < oldest)
    ensures PumpOk(p', if r.truncated && c > 0 then r.fromSeq else c, false, exited, stream, oldest)
    ensures 0 <= StepsLeft(p', |stream|) < StepsLeft(p, |stream|)
  {
  }

  lemma ChunkFollows(data: seq<byte>, fromSeq: nat, off: nat, end: nat, c: nat, stream: seq<byte>, oldest: nat)
    requires fromSeq + |data| <= |stream| && data == stream[fromSeq..fromSeq + |data|]
    requires off < |data| && end == Min(off + CHUNK, |data|)
    requires c == fromSeq + off || (off == 0 && c == 0 && fromSeq <= oldest)
    ensures MayFollow(Output(fromSeq + off, data[off..end]), c, stream, oldest)
  {
    SliceOfSlice(stream, fromSeq, fromSeq + |data|, off, end);
  }

  lemma SendOk(cap: nat, s: Session, p: Pump, c: nat, stream: seq<byte>)
    requires s.ring.Ok() && p.phase.Sending?
    requires PumpOk(p, c, false, s.exited, stream, Max(0, |stream| - cap))
    ensures StepOk(s, p, c, false, stream, Max(0, |stream| - cap))
  {
    var p', oldest := PumpStep(s, p).0, Max(0, |stream| - cap);
    if p.off < |p.data| {
      ChunkFollows(p.data, p.fromSeq, p.off, Min(p.off + CHUNK, |p.data|), c, stream, oldest);
      ChunkSent(p, p', c, s.exited, stream, oldest);
    } else {
      AllChunksSent(p, p', c, s.exited, stream, oldest);
    }
  }

  lemma ChunkSent(p: Pump, p': Pump, c: nat, exited: bool, stream: seq<byte>, oldest: nat)
    requires p.phase.Sending? && PumpOk(p, c, false, exited, stream, oldest)
    requires p.off < |p.data| && p' == p.(off := p.off + CHUNK)
    ensures PumpOk(p', p.fromSeq + Min(p.off + CHUNK, |p.data|), false, exited, stream, oldest)
    ensures 0 <= StepsLeft(p', |stream|) < StepsLeft(p, |stream|)
  {
  }

  lemma AllChunksSent(p: Pump, p': Pump, c: nat, exited: bool, stream: seq<byte>, oldest: nat)
    requires p.phase.Sending? && PumpOk(p, c, false, exited, stream, oldest) && p.off >= |p.data|
    requires p' == p.(phase := Waiting, lastSeen := if |p.data| > 0 then p.fromSeq + |p.data| else p.lastSeen)
    ensures PumpOk(p', c, false, exited, stream, oldest)
    ensures 0 <= StepsLeft(p', |stream|) < StepsLeft(p, |stream|)
  {
  }

  lemma PumpStepOk(cap: nat, s: Session, p: Pump, c: nat, over: bool, stream: seq<byte>)
    requires cap > 0 && Mirrors(s.ring, cap, stream)
    requires PumpOk(p, c, over, s.exited, stream, Max(0, |stream| - cap))
    ensures s.ring.Ok() && StepOk(s, p, c, over, stream, Max(0, |stream| - cap))
  {
    MirrorsOk(s.ring, cap, stream);
    match p.phase {
      case Replaying => ReplayOk(cap, s, p, c, stream);
      case Sending => SendOk(cap, s, p, c, stream);
      case Waiting =>
      case Done =>
    }
  }

  lemma TurnKeepsInv(cap: nat, since: nat, s: System)
    requires Inv(cap, since, s)
    ensures s.sess.ring.Ok() && Inv(cap, since, Do(cap, s, Turn))
    ensures !AtRest(s.pump, s.sess.exited, |s.stream|) ==>
      0 <= StepsLeft(Do(cap, s, Turn).pump, |s.stream|) < StepsLeft(s.pump, |s.stream|)
  {
    PumpStepOk(cap, s.sess, s.pump, Cursor(s.sent, since), Over(s.sent), s.stream);
    var out := PumpStep(s.sess, s.pump).1;
    if out == [] {
      assert s.sent + out == s.sent;
    } else {
      Extend(s.sent, out[0], since, s.stream, Max(0, |s.stream| - cap));
    }
  }

  lemma DoKeepsInv(cap: nat, since: nat, s: System, e: Event)
    requires Inv(cap, since, s)
    ensures s.sess.ring.Ok() && Inv(cap, since, Do(cap, s, e))
  {
    match e {
      case Write(p) =>
        if !s.sess.exited {
          WrittenMirrors(s.sess.ring, cap, s.stream, p);
          StreamGrows(s.sent, since, s.stream, Max(0, |s.stream| - cap), p, Max(0, |s.stream + p| - cap));
        }
      case Finish =>
      case Turn => TurnKeepsInv(cap, since, s);
    }
  }

  function Subscribed(cap: nat, stream: seq<byte>, exited: bool, since: nat): System {
    System(stream, Session(View(|stream|, LastN(stream, cap)), exited), Attached(since), [])
  }

  lemma {:induction false} ExecKeepsInv(cap: nat, since: nat, s: System, es: seq<Event>)
    requires Inv(cap, since, s)
    ensures s.sess.ring.Ok() && Inv(cap, since, Exec(cap, s, es))
  {
    if es != [] {
      ExecKeepsInv(cap, since, s, es[..|es| - 1]);
      DoKeepsInv(cap, since, Exec(cap, s, es[..|es| - 1]), es[|es| - 1]);
    }
  }

  /** Safety of one subscription under every interleaving with the writer. */
  lemma PumpIsSound(cap: nat, stream: seq<byte>, exited: bool, since: nat, es: seq<Event>)
    requires cap > 0 && since <= |stream|
    ensures var s := Exec(cap, Subscribed(cap, stream, exited, since), es);
      && WellSent(s.sent, since, s.stream, Max(0, |s.stream| - cap))
      && (forall i :: 0 <= i < |s.sent| && s.sent[i] == Exit ==>
            i == |s.sent| - 1 && s.sess.exited && Cursor(s.sent, since) == |s.stream|)
  {
    var s0 := Subscribed(cap, stream, exited, since);
    ExecKeepsInv(cap, since, s0, es);
    var s := Exec(cap, s0, es);
    forall i | 0 <= i < |s.sent| && s.sent[i] == Exit
      ensures i == |s.sent| - 1
    {
      ExitIsLast(s.sent, since, s.stream, Max(0, |s.stream| - cap), i);
    }
  }

  lemma {:induction false} ExitIsLast(sent: seq<Frame>, since: nat, stream: seq<byte>, oldest: nat, i: nat)
    requires WellSent(sent, since, stream, oldest) && i < |sent| && sent[i] == Exit
    ensures i == |sent| - 1
  {
    if i < |sent| - 1 {
      ExitIsLast(sent[..|sent| - 1], since, stream, oldest, i);
    }
  }

  // ── Where a jump lands ──────────────────────────────────────────────

  /** After events xs, with n frames sent, the pump is about to read a ring whose oldest byte is at b. */
  ghost predicate LooksAt(cap: nat, s0: System, xs: seq<Event>, n: nat, b: nat)
    requires s0.sess.ring.Ok()
  {
    var s := Exec(cap, s0, xs);
    s.pump.phase.Replaying? && |s.sent| == n && s.sess.ring.Oldest() == b
  }

  /** At some moment of the run, and in a turn of the pump. */
  ghost predicate Looked(cap: nat, s0: System, es: seq<Event>, n: nat, b: nat)
    requires s0.sess.ring.Ok()
  {
    exists k :: 0 <= k < |es| && es[k] == Turn && LooksAt(cap, s0, es[..k], n, b)
  }

  lemma LookedBefore(cap: nat, s0: System, es: seq<Event>, e: Event, n: nat, b: nat)
    requires s0.sess.ring.Ok()
    ensures Looked(cap, s0, es, n, b) ==> Looked(cap, s0, es + [e], n, b)
    ensures e == Turn && LooksAt(cap, s0, es, n, b) ==> Looked(cap, s0, es + [e], n, b)
  {
    if Looked(cap, s0, es, n, b) {
      var k :| 0 <= k < |es| && es[k] == Turn && LooksAt(cap, s0, es[..k], n, b);
      assert (es + [e])[..k] == es[..k] && (es + [e])[k] == Turn;
    }
    if e == Turn && LooksAt(cap, s0, es, n, b) {
      assert (es + [e])[..|es|] == es && (es + [e])[|es|] == Turn;
    }
  }

  /** Frame i starts where the frames before it stopped, or at what was the ring's oldest byte when it was read for them. */
  ghost predicate Lands(cap: nat, since: nat, s0: System, es: seq<Event>, sent: seq<Frame>, i: nat)
    requires s0.sess.ring.Ok() && i < |sent|
  {
    match sent[i]
    case RingGone(_, b) => Looked(cap, s0, es, i, b)
    case Output(q, _) => q == Cursor(sent[..i], since) || Looked(cap, s0, es, i, q)
    case Exit => true
  }

  /** And so will the data the pump has read and not begun to send. */
  ghost predicate WillLand(cap: nat, since: nat, s0: System, es: seq<Event>, s: System)
    requires s0.sess.ring.Ok()
  {
    s.pump.phase.Sending? && s.pump.off == 0 && s.pump.data != [] ==>
      s.pump.fromSeq == Cursor(s.sent, since) || Looked(cap, s0, es, |s.sent|, s.pump.fromSeq)
  }

  lemma StillLands(cap: nat, since: nat, s0: System, es: seq<Event>, e: Event, sent: seq<Frame>, out: seq<Frame>, i: nat)
    requires s0.sess.ring.Ok() && i < |sent| && Lands(cap, since, s0, es, sent, i)
    ensures Lands(cap, since, s0, es + [e], sent + out, i)
  {
    assert (sent + out)[..i] == sent[..i];
    match sent[i] {
      case RingGone(_, b) => LookedBefore(cap, s0, es, e, i, b);
      case Output(q, _) => LookedBefore(cap, s0, es, e, i, q);
      case Exit =>
    }
  }

  /** One turn: its frame lands, and what it reads will. */
  lemma TurnLands(cap: nat, since: nat, s0: System, es: seq<Event>, s: System, out: seq<Frame>)
    requires s0.sess.ring.Ok() && s == Exec(cap, s0, es) && Inv(cap, since, s) && WillLand(cap, since, s0, es, s)
    requires out == PumpStep(s.sess, s.pump).1
    ensures |out| <= 1 && (out != [] ==> Lands(cap, since, s0, es + [Turn], s.sent + out, |s.sent|))
    ensures WillLand(cap, since, s0, es + [Turn], Do(cap, s, Turn))
  {
    MirrorsOk(s.sess.ring, cap, s.stream);
    assert (s.sent + out)[..|s.sent|] == s.sent;
    match s.pump.phase {
      case Replaying =>
        LookedBefore(cap, s0, es, Turn, |s.sent|, s.sess.ring.Oldest());
        ReadLands(cap, since, s, out);
      case Sending => LookedBefore(cap, s0, es, Turn, |s.sent|, s.pump.fromSeq);
      case Waiting =>
      case Done =>
    }
  }

  /** A replay starts at the position reached or at the ring's oldest byte; a skip announced goes there. */
  lemma ReadLands(cap: nat, since: nat, s: System, out: seq<Frame>)
    requires Inv(cap, since, s) && s.sess.ring.Ok() && s.pump.phase.Replaying? && out == PumpStep(s.sess, s.pump).1
    ensures var s', oldest := Do(cap, s, Turn), s.sess.ring.Oldest();
      && (out == [] || out == [RingGone(s.pump.lastSeen, oldest)])
      && s'.sent == s.sent + out && s'.pump.phase.Sending? && s'.pump.off == 0
      && (s'.pump.data == [] || s'.pump.fromSeq == Cursor(s'.sent, since) || (out == [] && s'.pump.fromSeq == oldest))
  {
    var r := Replayed(cap, s.sess.ring, s.stream, s.pump.lastSeen);
    if out != [] {
      Extend(s.sent, out[0], since, s.stream, Max(0, |s.stream| - cap));
    }
  }

  lemma {:induction false} RunLands(cap: nat, since: nat, s0: System, es: seq<Event>)
    requires Inv(cap, since, s0) && s0.sent == [] && !s0.pump.phase.Sending?
    ensures s0.sess.ring.Ok()
    ensures forall i :: 0 <= i < |Exec(cap, s0, es).sent| ==> Lands(cap, since, s0, es, Exec(cap, s0, es).sent, i)
    ensures WillLand(cap, since, s0, es, Exec(cap, s0, es))
  {
    MirrorsOk(s0.sess.ring, cap, s0.stream);
    if es != [] {
      var init, e := es[..|es| - 1], es[|es| - 1];
      assert init + [e] == es;
      RunLands(cap, since, s0, init);
      ExecKeepsInv(cap, since, s0, init);
      NextLands(cap, since, s0, init, e, Exec(cap, s0, init));
    }
  }

  /**
   * Over every run from an attach: every frame starts where the receiver is, and a jump, announced or
   * not, lands exactly on what was the ring's oldest byte at the moment the pump read it.
   */
  lemma JumpsLandOnOldest(cap: nat, stream: seq<byte>, exited: bool, since: nat, es: seq<Event>, s0: System)
    requires cap > 0 && since <= |stream| && s0 == Subscribed(cap, stream, exited, since)
    ensures s0.sess.ring.Ok()
    ensures forall i :: 0 <= i < |Exec(cap, s0, es).sent| ==> Lands(cap, since, s0, es, Exec(cap, s0, es).sent, i)
  {
    RunLands(cap, since, s0, es);
  }

  lemma NextLands(cap: nat, since: nat, s0: System, es: seq<Event>, e: Event, s: System)
    requires s0.sess.ring.Ok() && s == Exec(cap, s0, es) && Inv(cap, since, s) && WillLand(cap, since, s0, es, s)
    requires forall i :: 0 <= i < |s.sent| ==> Lands(cap, since, s0, es, s.sent, i)
    ensures s.sess.ring.Ok()
    ensures forall i :: 0 <= i < |Do(cap, s, e).sent| ==> Lands(cap, since, s0, es + [e], Do(cap, s, e).sent, i)
    ensures WillLand(cap, since, s0, es + [e], Do(cap, s, e))
  {
    MirrorsOk(s.sess.ring, cap, s.stream);
    if e.Turn? {
      AllStillLand(cap, since, s0, es, e, s.sent, PumpStep(s.sess, s.pump).1);
      TurnLands(cap, since, s0, es, s, PumpStep(s.sess, s.pump).1);
    } else {
      AllStillLand(cap, since, s0, es, e, s.sent, []);
      assert s.sent + [] == s.sent == Do(cap, s, e).sent;
      LookedBefore(cap, s0, es, e, |s.sent|, s.pump.fromSeq);
    }
  }

  lemma AllStillLand(cap: nat, since: nat, s0: System, es: seq<Event>, e: Event, sent: seq<Frame>, out: seq<Frame>)
    requires s0.sess.ring.Ok() && forall i :: 0 <= i < |sent| ==> Lands(cap, since, s0, es, sent, i)
    ensures forall i :: 0 <= i < |sent| ==> Lands(cap, since, s0, es + [e], sent + out, i)
  {
    forall i | 0 <= i < |sent|
      ensures Lands(cap, since, s0, es + [e], sent + out, i)
    {
      StillLands(cap, since, s0, es, e, sent, out, i);
    }
  }

  function Payloads(sent: seq<Frame>): seq<byte> {
    if sent == [] then []
    else Payloads(sent[..|sent| - 1]) + (if sent[|sent| - 1].Output? then sent[|sent| - 1].payload else [])
  }

  /** No skip was announced. */
  predicate NoGone(fs: seq<Frame>) {
    fs == [] || (NoGone(fs[..|fs| - 1]) && !fs[|fs| - 1].RingGone?)
  }

  /** Nothing skipped, nothing lost: the payloads are the one slice from `since` to the cursor. */
  lemma {:induction false} NoSkipMeansContiguous(sent: seq<Frame>, since: nat, stream: seq<byte>, oldest: nat)
    requires WellSent(sent, since, stream, oldest) && since <= |stream|
    requires NoGone(sent)
    requires since > 0 || oldest == 0
    ensures since <= Cursor(sent, since) <= |stream|
    ensures Payloads(sent) == stream[since..Cursor(sent, since)]
  {
    if sent != [] {
      var init, f := sent[..|sent| - 1], sent[|sent| - 1];
      NoSkipMeansContiguous(init, since, stream, oldest);
      if f.Output? {
        JoinSlices(stream, since, f.at, f.at + |f.payload|);
      }
    }
  }

  lemma JoinSlices(stream: seq<byte>, a: nat, b: nat, c: nat)
    requires a <= b <= c <= |stream|
    ensures stream[a..b] + stream[b..c] == stream[a..c]
  {
  }

  // ── Live delivery, and termination after exit ───────────────────────

  /** Sent EXIT; or, while the session runs, waiting with everything sent. */
  predicate AtRest(p: Pump, exited: bool, end: nat) { p.phase.Done? || (p.phase.Waiting? && p.lastSeen == end && !exited) }

  function WaitSteps(rem: nat): nat { if rem == 0 then 1 else rem + 4 }

  /** Steps a pump may still take before it is at rest, when nothing is written past position end. */
  function StepsLeft(p: Pump, end: nat): int {
    match p.phase
    case Done => 0
    case Waiting => WaitSteps(Max(0, end - p.lastSeen))
    case Replaying => Max(0, end - p.lastSeen) + 3
    case Sending =>
      Max(0, |p.data| - p.off) + 1
      + WaitSteps(Max(0, end - (if |p.data| > 0 then p.fromSeq + |p.data| else p.lastSeen)))
  }

  function Turns(cap: nat, s: System, n: nat): (r: System)
    requires s.sess.ring.Ok()
    ensures r.sess.ring.Ok()
    decreases n
  {
    if n == 0 then s else Turns(cap, Do(cap, s, Turn), n - 1)
  }

  /** From every state, as many turns of the pump alone as the measure counts send everything there is. */
  lemma {:induction false} CatchesUp(cap: nat, since: nat, s: System, n: nat)
    requires Inv(cap, since, s) && n >= StepsLeft(s.pump, |s.stream|)
    ensures s.sess.ring.Ok()
    ensures var t := Turns(cap, s, n);
      && t.stream == s.stream && t.sess == s.sess && Inv(cap, since, t)
      && Cursor(t.sent, since) == |t.stream| && (Over(t.sent) <==> t.sess.exited)
    decreases n
  {
    TurnKeepsInv(cap, since, s);
    var t := Do(cap, s, Turn);
    if AtRest(s.pump, s.sess.exited, |s.stream|) {
      StaysAtRest(cap, s, n);
    } else {
      assert n > 0 && t.sess == s.sess && t.stream == s.stream;
      CatchesUp(cap, since, t, n - 1);
    }
  }

  lemma {:induction false} StaysAtRest(cap: nat, s: System, n: nat)
    requires s.sess.ring.Ok() && s.sess.ring.end == |s.stream| && AtRest(s.pump, s.sess.exited, |s.stream|)
    ensures Turns(cap, s, n) == s
    decreases n
  {
    if n > 0 {
      assert s.sent + [] == s.sent;
      StaysAtRest(cap, s, n - 1);
    }
  }

  lemma Drains(cap: nat, since: nat, s: System, n: nat)
    requires Inv(cap, since, s) && s.sess.exited && n >= StepsLeft(s.pump, |s.stream|)
    ensures s.sess.ring.Ok() && Over(Turns(cap, s, n).sent)
  {
    CatchesUp(cap, since, s, n);
  }

  /** Position p is in the payload of frame i. */
  predicate SentAt(sent: seq<Frame>, i: nat, p: nat) {
    i < |sent| && sent[i].Output? && sent[i].at <= p < sent[i].at + |sent[i].payload|
  }

  /** Frame i jumps over position p: it begins, or announces a skip, further on than where the frames before it stopped. */
  predicate JumpedAt(sent: seq<Frame>, since: nat, i: nat, p: nat) {
    i < |sent| && Cursor(sent[..i], since) <= p
    && match sent[i]
       case Output(q, _) => p < q
       case RingGone(_, b) => p < b
       case Exit => false
  }

  /** Some frame carries position p, or jumps over it. */
  ghost predicate Accounted(sent: seq<Frame>, since: nat, p: nat) {
    exists i :: SentAt(sent, i, p) || JumpedAt(sent, since, i, p)
  }

  /** Every position up to the cursor was sent or jumped over, by one frame. */
  lemma {:induction false} SentOrJumped(sent: seq<Frame>, since: nat, stream: seq<byte>, oldest: nat, p: nat) returns (i: nat)
    requires WellSent(sent, since, stream, oldest) && since <= p < Cursor(sent, since)
    ensures SentAt(sent, i, p) || JumpedAt(sent, since, i, p)
    ensures SentAt(sent, i, p) ==> p < |stream| && sent[i].payload[p - sent[i].at] == stream[p]
  {
    var init, last := sent[..|sent| - 1], |sent| - 1;
    if p < Cursor(init, since) {
      i := SentOrJumped(init, since, stream, oldest, p);
      assert sent[i] == init[i] && sent[..i] == init[..i];
    } else {
      i := last;
      assert sent[..i] == init;
    }
  }

  /** Everything from `since` on was sent or jumped over; if the ring dropped nothing, sent, as one piece. */
  ghost predicate AllSent(cap: nat, since: nat, t: System) {
    && Cursor(t.sent, since) == |t.stream|
    && (forall p :: since <= p < |t.stream| ==> Accounted(t.sent, since, p))
    && (|t.stream| <= cap ==> since <= |t.stream| && Payloads(t.sent) == t.stream[since..])
  }

  /**
   * Live delivery, over every run and at every moment of it, whether or not the session still runs:
   * left to itself the pump comes, within StepsLeft of its own turns, to have sent every byte written
   * so far at its position, except those it jumped over.
   */
  lemma LiveDelivery(cap: nat, stream: seq<byte>, exited: bool, since: nat, es: seq<Event>, s: System, n: nat)
    requires cap > 0 && since <= |stream| && s == Exec(cap, Subscribed(cap, stream, exited, since), es)
    requires n >= StepsLeft(s.pump, |s.stream|)
    ensures var t := Turns(cap, s, n);
      AllSent(cap, since, t) && t.stream == s.stream && (Over(t.sent) <==> s.sess.exited)
  {
    var s0 := Subscribed(cap, stream, exited, since);
    ExecKeepsInv(cap, since, s0, es);
    StreamKept(cap, s0, es);
    CatchesUp(cap, since, s, n);
    CaughtUp(cap, since, Turns(cap, s, n));
  }

  lemma CaughtUp(cap: nat, since: nat, t: System)
    requires Inv(cap, since, t) && Cursor(t.sent, since) == |t.stream| && since <= |t.stream|
    ensures AllSent(cap, since, t)
  {
    AllAccounted(t.sent, since, t.stream, Max(0, |t.stream| - cap));
    if |t.stream| <= cap {
      NothingGone(t.sent, since, t.stream);
      NoSkipMeansContiguous(t.sent, since, t.stream, 0);
    }
  }

  lemma AllAccounted(sent: seq<Frame>, since: nat, stream: seq<byte>, oldest: nat)
    requires WellSent(sent, since, stream, oldest)
    ensures forall p :: since <= p < Cursor(sent, since) ==> Accounted(sent, since, p)
  {
    forall p | since <= p < Cursor(sent, since)
      ensures Accounted(sent, since, p)
    {
      var i := SentOrJumped(sent, since, stream, oldest, p);
    }
  }

  lemma {:induction false} NothingGone(sent: seq<Frame>, since: nat, stream: seq<byte>)
    requires WellSent(sent, since, stream, 0)
    ensures NoGone(sent)
  {
    if sent != [] {
      NothingGone(sent[..|sent| - 1], since, stream);
    }
  }

  lemma {:induction false} StreamKept(cap: nat, s: System, es: seq<Event>)
    requires s.sess.ring.Ok()
    ensures s.stream <= Exec(cap, s, es).stream
  {
    if es != [] {
      StreamKept(cap, s, es[..|es| - 1]);
    }
  }

  ghost predicate Beyond(s: System, since: nat) {
    && s.sess.ring.Ok() && s.sess.exited && s.sess.ring.end < since
    && s.pump.lastSeen == since && s.sent == [] && !s.pump.phase.Done?
    && (s.pump.phase.Sending? ==> s.pump.data == [])
  }

  lemma {:induction false} BeyondForever(cap: nat, s: System, since: nat, n: nat)
    requires Beyond(s, since)
    ensures Beyond(Turns(cap, s, n), since)
    decreases n
  {
    if n > 0 {
      BeyondForever(cap, Do(cap, s, Turn), since, n - 1);
    }
  }

  /**
   * On a session that is over, the pump delivers EXIT within |stream| + 3 of its own steps exactly
   * when it was attached at a position the stream reached. Attached beyond the end it spins for
   * ever and sends nothing.
   */
  lemma ExitIffAttachedWithin(cap: nat, stream: seq<byte>, since: nat)
    requires cap > 0
    ensures var s := Subscribed(cap, stream, true, since);
      && (since <= |stream| ==> Over(Turns(cap, s, |stream| + 3).sent))
      && (since > |stream| ==> forall n: nat :: Turns(cap, s, n).sent == [])
  {
    var s := Subscribed(cap, stream, true, since);
    if since <= |stream| {
      Drains(cap, since, s, |stream| + 3);
    } else {
      forall n: nat
        ensures Turns(cap, s, n).sent == []
      {
        BeyondForever(cap, s, since, n);
      }
    }
  }

  /** Whenever the session has exited, every state a pump can be in still leads to EXIT. */
  lemma ExitIsAlwaysReached(cap: nat, stream: seq<byte>, since: nat, es: seq<Event>)
    requires cap > 0 && since <= |stream|
    ensures var s := Exec(cap, Subscribed(cap, stream, false, since), es);
      s.sess.exited ==>
        && StepsLeft(s.pump, |s.stream|) >= 0
        && Over(Turns(cap, s, StepsLeft(s.pump, |s.stream|)).sent)
  {
    var s0 := Subscribed(cap, stream, false, since);
    ExecKeepsInv(cap, since, s0, es);
    var s := Exec(cap, s0, es);
    if s.sess.exited {
      Drains(cap, since, s, StepsLeft(s.pump, |s.stream|));
    }
  }

  /** One replay sent in chunks: the inner loop of pumpOutput. */
  method SendChunks(sent: seq<Frame>, data: seq<byte>, fromSeq: nat, ghost since: nat, ghost stream: seq<byte>,
                    ghost oldest: nat) returns (out: seq<Frame>)
    requires WellSent(sent, since, stream, oldest) && !Over(sent) && Cursor(sent, since) <= |stream|
    requires fromSeq + |data| <= |stream| && data == stream[fromSeq..fromSeq + |data|]
    requires fromSeq == Cursor(sent, since) || (Cursor(sent, since) == 0 && fromSeq <= oldest)
    ensures WellSent(out, since, stream, oldest) && !Over(out)
    ensures Cursor(out, since) == if data == [] then Cursor(sent, since) else fromSeq + |data|
  {
    var off := 0;
    out := sent;
    while off < |data|
      invariant WellSent(out, since, stream, oldest) && !Over(out)
      invariant off == 0 ==> out == sent
      invariant data == [] ==> off == 0
      invariant off > 0 ==> Cursor(out, since) == fromSeq + Min(off, |data|)
    {
      var end := Min(off + CHUNK, |data|);
      ChunkFollows(data, fromSeq, off, end, Cursor(out, since), stream, oldest);
      Extend(out, Output(fromSeq + off, data[off..end]), since, stream, oldest);
      out := out + [Output(fromSeq + off, data[off..end])];
      off := off + CHUNK;
    }
  }

  /** Session.ReplayFrom by a subscriber that is within the stream. */
  method ReadRing(r: Ring, lastSeen: nat, ghost stream: seq<byte>) returns (data: seq<byte>, fromSeq: nat, truncated: bool)
    requires r.Valid() && Mirrors(r.Abs(), r.buf.Length, stream) && lastSeen <= |stream|
    ensures fromSeq == Max(lastSeen, Max(0, |stream| - r.buf.Length)) && fromSeq + |data| == |stream|
    ensures data == stream[fromSeq..fromSeq + |data|]
    ensures truncated <==> lastSeen < Max(0, |stream| - r.buf.Length)
  {
    ghost var replay := Replayed(r.buf.Length, r.Abs(), stream, lastSeen);
    data, fromSeq, truncated := r.ReplayFrom(lastSeen);
    assert Replay(data, fromSeq, truncated) == replay;
  }

  /** pumpOutput as written, on a session that has already exited. */
  method DrainExited(r: Ring, since: nat, ghost stream: seq<byte>) returns (sent: seq<Frame>)
    requires r.Valid() && Mirrors(r.Abs(), r.buf.Length, stream) && since <= |stream|
    ensures WellSent(sent, since, stream, Max(0, |stream| - r.buf.Length))
    ensures Over(sent)
  {
    var lastSeen := since;
    sent := [];
    ghost var oldest := Max(0, |stream| - r.buf.Length);
    var last := r.end; // what WaitOutput answers at once: the session has exited
    while true
      invariant WellSent(sent, since, stream, oldest) && !Over(sent)
      invariant lastSeen == Cursor(sent, since) <= |stream|
      decreases |stream| - lastSeen
    {
      var data, fromSeq, truncated := ReadRing(r, lastSeen, stream);
      if truncated && lastSeen > 0 {
        Extend(sent, RingGone(lastSeen, fromSeq), since, stream, oldest);
        sent := sent + [RingGone(lastSeen, fromSeq)];
      }
      sent := SendChunks(sent, data, fromSeq, since, stream, oldest);
      if |data| > 0 {
        lastSeen := fromSeq + |data|;
      }
      if last == lastSeen {
        Extend(sent, Exit, since, stream, oldest);
        sent := sent + [Exit];
        return;
      }
    }
  }
}
