/**
 * pkg/client/stream.go and pkg/client/follow.go on top of the daemon's pump: a consumer that reads
 * through connection losses, reconnects and daemon replacement.
 */
module ZeroGapFollow {
  import opened Bytes
  import opened RingBuffer
  import opened OutputPump

  /** client.Stream: the bytes buffered, the position after the last buffered byte, and how it ended. */
  datatype StreamState = StreamState(buf: seq<byte>, pos: nat, closed: bool, lost: bool, exitSeen: bool)

  function Fresh(since: nat): StreamState { StreamState([], since, false, false, false) }

  function Delivered(st: StreamState, f: Frame): StreamState {
    match f
    case Output(q, d) => if st.closed then st else st.(buf := st.buf + d, pos := q + |d|)
    case RingGone(_, _) => st
    case Exit => st.(closed := true, exitSeen := true)
  }

  function Lost(st: StreamState): StreamState {
    if st.closed then st else st.(closed := true, lost := true)
  }

  datatype Taken = Blocked | Bytes(data: seq<byte>) | EndOfFile | ConnectionLost

  /** Stream.Read into a buffer of `room` bytes. */
  function TakenBy(st: StreamState, room: nat): Taken {
    if st.buf != [] then Bytes(st.buf[..Min(room, |st.buf|)])
    else if !st.closed then Blocked
    else if st.lost then ConnectionLost
    else EndOfFile
  }

  /** Follower.Read: waiting in Stream.Read, between it and LastSeq, or in the reconnect loop. */
  datatype Mode = Idle | JustRead | Reconnecting | AtEof | Failed

  /**
   * The session and its pump for the current connection; the wire; the client. `sent`, `recvd`,
   * `pastPos`, `read` and `gone` only record history: all frames of this connection, those that
   * arrived, the positions of the bytes read on earlier connections, how many bytes were read on
   * this one, and whether any pump ever announced a skip.
   */
  datatype World = World(
    stream: seq<byte>, sess: Session, pump: Pump, wire: seq<Frame>, alive: bool,
    st: StreamState, lastSeq: nat, mode: Mode, got: seq<byte>,
    since: nat, sent: seq<Frame>, recvd: seq<Frame>, pastGot: seq<byte>, pastPos: seq<nat>,
    read: nat, gone: bool)

  datatype Happening =
    | Daemon(e: Event)
    | Arrive
    | Drop
    | Replace
    | Read(room: nat)
    | NoteSeq
    | Reattach
    | Refused

  function Start(cap: nat, stream: seq<byte>, exited: bool): World {
    World(stream, Session(View(|stream|, LastN(stream, cap)), exited), Attached(0), [], true,
          Fresh(0), 0, Idle, [], 0, [], [], [], [], 0, false)
  }

  function Side(w: World): System { System(w.stream, w.sess, w.pump, w.sent) }

  function DaemonStep(cap: nat, w: World, e: Event): World
    requires w.sess.ring.Ok()
  {
    if e.Turn? && !w.alive then w
    else
      var s := Do(cap, Side(w), e);
      var out := if e.Turn? then PumpStep(w.sess, w.pump).1 else [];
      w.(stream := s.stream, sess := s.sess, pump := s.pump, sent := s.sent, wire := w.wire + out,
         gone := w.gone || (out != [] && out[0].RingGone?))
  }

  function ReadStep(w: World, room: nat): World {
    match TakenBy(w.st, room)
    case Bytes(d) => w.(st := w.st.(buf := w.st.buf[|d|..]), got := w.got + d, mode := JustRead, read := w.read + |d|)
    case Blocked => w
    case EndOfFile => w.(mode := AtEof)
    case ConnectionLost => w.(mode := Reconnecting)
  }

  /** reconnect: attach again at lastSeq, with a new Stream and a new pump. */
  function ReattachStep(w: World): World {
    w.(pump := Attached(w.lastSeq), wire := [], alive := true, st := Fresh(w.lastSeq), mode := Idle,
       since := w.lastSeq, sent := [], recvd := [], pastGot := w.got, pastPos := GotPos(w), read := 0)
  }

  /** What happens if e can happen now; otherwise nothing. */
  function Happen(cap: nat, w: World, e: Happening): (r: World)
    requires w.sess.ring.Ok()
  {
    match e
    case Daemon(ev) => DaemonStep(cap, w, ev)
    case Arrive =>
      if w.alive && w.wire != [] then
        w.(wire := w.wire[1..], recvd := w.recvd + [w.wire[0]], st := Delivered(w.st, w.wire[0]))
      else w
    case Drop => w.(alive := false, wire := [], st := Lost(w.st))
    case Replace => // handover closes every connection first; the new daemon rebuilds the ring
      if w.alive then w
      else w.(sess := w.sess.(ring := Written(Empty, cap, w.sess.ring.held).(end := w.sess.ring.end)))
    case Read(room) => if w.mode.Idle? && room > 0 then ReadStep(w, room) else w
    case NoteSeq => if w.mode.JustRead? then w.(mode := Idle, lastSeq := w.st.pos) else w
    case Reattach => if w.mode.Reconnecting? then ReattachStep(w) else w
    case Refused => if w.mode.Reconnecting? then w.(mode := Failed) else w
  }

  // ── Positions ───────────────────────────────────────────────────────

  /** The stream position of every byte in Payloads(fs). */
  function Positions(fs: seq<Frame>): seq<nat> {
    if fs == [] then []
    else Positions(fs[..|fs| - 1]) + (match fs[|fs| - 1] case Output(q, d) => Range(q, |d|) case _ => [])
  }

  function PosAfter(fs: seq<Frame>, since: nat): nat {
    if fs == [] then since
    else match fs[|fs| - 1]
      case Output(q, d) => q + |d|
      case _ => PosAfter(fs[..|fs| - 1], since)
  }

  function NextPos(ps: seq<nat>): nat { if ps == [] then 0 else ps[|ps| - 1] + 1 }

  ghost predicate Increasing(ps: seq<nat>) {
    forall i, j :: 0 <= i < j < |ps| ==> ps[i] < ps[j]
  }

  ghost predicate OneRun(ps: seq<nat>) {
    forall i :: 0 <= i < |ps| ==> ps[i] == ps[0] + i
  }

  ghost predicate TrueBytes(bs: seq<byte>, ps: seq<nat>, stream: seq<byte>) {
    |bs| == |ps| && forall i :: 0 <= i < |ps| ==> ps[i] < |stream| && stream[ps[i]] == bs[i]
  }

  /** The positions of everything the consumer has read. */
  function GotPos(w: World): seq<nat> {
    w.pastPos + Positions(w.recvd)[..Min(w.read, |Positions(w.recvd)|)]
  }

  /** What ps says about a receiver that attached at `since` and has reached `pos`. */
  ghost predicate PosFacts(bs: seq<byte>, ps: seq<nat>, since: nat, pos: nat, stream: seq<byte>) {
    && TrueBytes(bs, ps, stream) && Increasing(ps)
    && since <= pos <= |stream|
    && (ps == [] ==> pos == since)
    && (ps != [] ==> since <= ps[0] && ps[|ps| - 1] + 1 == pos)
  }

  lemma AppendRange(bs: seq<byte>, ps: seq<nat>, since: nat, pos: nat, stream: seq<byte>, q: nat, d: seq<byte>)
    requires PosFacts(bs, ps, since, pos, stream) && pos <= q && d != []
    requires q + |d| <= |stream| && d == stream[q..q + |d|]
    ensures PosFacts(bs + d, ps + Range(q, |d|), since, q + |d|, stream)
    ensures OneRun(ps) && (ps == [] || q == pos) ==> OneRun(ps + Range(q, |d|))
    ensures (ps + Range(q, |d|))[0] == if ps == [] then q else ps[0]
  {
    var bs', ps' := bs + d, ps + Range(q, |d|);
    forall i | 0 <= i < |ps'|
      ensures ps'[i] < |stream| && stream[ps'[i]] == bs'[i]
    {
      if i >= |ps| {
        assert ps'[i] == q + (i - |ps|) && bs'[i] == d[i - |ps|];
      }
    }
    forall i, j | 0 <= i < j < |ps'|
      ensures ps'[i] < ps'[j]
    {
      assert i < |ps| ==> ps[i] < pos by {
        if i < |ps| - 1 { assert ps[i] < ps[|ps| - 1]; }
      }
      assert j >= |ps| ==> ps'[j] == q + (j - |ps|);
      assert i >= |ps| ==> ps'[i] == q + (i - |ps|);
    }
  }

  /** FrameFacts' conclusion, on the numbers alone. */
  ghost predicate Received(bs: seq<byte>, ps: seq<nat>, since: nat, pos: nat, c: nat, quiet: bool, stream: seq<byte>) {
    && PosFacts(bs, ps, since, pos, stream)
    && pos <= c <= |stream|
    && (quiet ==> pos == c && OneRun(ps) && (since > 0 && ps != [] ==> ps[0] == since))
  }

  lemma ReceivedOne(bs: seq<byte>, ps: seq<nat>, since: nat, pos: nat, c: nat, quiet: bool, stream: seq<byte>,
                    oldest: nat, q: nat, d: seq<byte>)
    requires Received(bs, ps, since, pos, c, quiet, stream)
    requires MayFollow(Output(q, d), c, stream, oldest)
    ensures Received(bs + d, ps + Range(q, |d|), since, q + |d|, q + |d|, quiet, stream)
  {
    AppendRange(bs, ps, since, pos, stream, q, d);
  }

  lemma ReceivedNone(bs: seq<byte>, ps: seq<nat>, since: nat, pos: nat, c: nat, quiet: bool, stream: seq<byte>, c': nat)
    requires Received(bs, ps, since, pos, c, quiet, stream) && c <= c' <= |stream|
    ensures Received(bs + [], ps + [], since, pos, c', quiet && c == c', stream)
  {
    assert bs + [] == bs && ps + [] == ps;
  }

  function DataOf(f: Frame): seq<byte> { match f case Output(_, d) => d case _ => [] }

  function PosOf(f: Frame): seq<nat> { match f case Output(q, d) => Range(q, |d|) case _ => [] }

  lemma Snoc(init: seq<Frame>, f: Frame, since: nat)
    ensures var fs := init + [f];
      && Payloads(fs) == Payloads(init) + DataOf(f)
      && Positions(fs) == Positions(init) + PosOf(f)
      && PosAfter(fs, since) == (match f case Output(q, d) => q + |d| case _ => PosAfter(init, since))
      && Cursor(fs, since) == CursorAfter(f, Cursor(init, since))
      && (NoGone(fs) <==> NoGone(init) && !f.RingGone?)
  {
    assert (init + [f])[..|init + [f]| - 1] == init;
  }

  lemma ReceivedStep(bs: seq<byte>, ps: seq<nat>, since: nat, pos: nat, c: nat, quiet: bool, f: Frame,
                     stream: seq<byte>, oldest: nat)
    requires Received(bs, ps, since, pos, c, quiet, stream)
    requires MayFollow(f, c, stream, oldest) && oldest <= |stream|
    ensures Received(bs + DataOf(f), ps + PosOf(f), since, match f case Output(q, d) => q + |d| case _ => pos,
                     CursorAfter(f, c), quiet && !f.RingGone?, stream)
  {
    match f {
      case Output(q, d) => ReceivedOne(bs, ps, since, pos, c, quiet, stream, oldest, q, d);
      case RingGone(_, b) => ReceivedNone(bs, ps, since, pos, c, quiet, stream, b);
      case Exit => ReceivedNone(bs, ps, since, pos, c, quiet, stream, c);
    }
  }

  lemma {:induction false} FrameFacts(fs: seq<Frame>, since: nat, stream: seq<byte>, oldest: nat)
    requires WellSent(fs, since, stream, oldest) && since <= |stream| && oldest <= |stream|
    ensures Received(Payloads(fs), Positions(fs), since, PosAfter(fs, since), Cursor(fs, since), NoGone(fs), stream)
  {
    if fs != [] {
      var init, f := fs[..|fs| - 1], fs[|fs| - 1];
      FrameFacts(init, since, stream, oldest);
      ReceivedStep(Payloads(init), Positions(init), since, PosAfter(init, since), Cursor(init, since), NoGone(init), f,
                   stream, oldest);
      Snoc(init, f, since);
      assert fs == init + [f];
    }
  }

  lemma {:induction false} Prefix(fs: seq<Frame>, gs: seq<Frame>, since: nat, stream: seq<byte>, oldest: nat)
    requires WellSent(fs + gs, since, stream, oldest)
    ensures WellSent(fs, since, stream, oldest)
    ensures NoGone(fs + gs) ==> NoGone(fs)
  {
    if gs == [] {
      assert fs + gs == fs;
    } else {
      assert (fs + gs)[..|fs + gs| - 1] == fs + gs[..|gs| - 1];
      Prefix(fs, gs[..|gs| - 1], since, stream, oldest);
    }
  }

  /** EXIT is only sent to a receiver that has been sent every byte up to the end. */
  lemma OverIsComplete(fs: seq<Frame>, since: nat, stream: seq<byte>, oldest: nat)
    requires WellSent(fs, since, stream, oldest) && Over(fs)
    requires oldest < |stream| || stream == []
    ensures PosAfter(fs, since) == |stream|
  {
    assert Cursor(fs[..|fs| - 1], since) == |stream|;
  }

  // ── The invariant ───────────────────────────────────────────────────

  ghost predicate DaemonOk(cap: nat, w: World) {
    && cap > 0 && Mirrors(w.sess.ring, cap, w.stream)
    && w.since <= |w.stream|
    && WellSent(w.recvd, w.since, w.stream, Max(0, |w.stream| - cap))
    && (Over(w.recvd) ==> w.sess.exited)
    && (w.alive ==> OutputPump.Inv(cap, w.since, Side(w)) && w.sent == w.recvd + w.wire)
  }

  /** How far the client is, given the bytes b that arrived on this connection, up to position pos. */
  ghost predicate ClientOk(w: World, b: seq<byte>, pos: nat) {
    && w.read <= |b| && w.got == w.pastGot + b[..w.read] && w.st.buf == b[w.read..]
    && w.st.pos == pos
    && TrueBytes(w.pastGot, w.pastPos, w.stream) && Increasing(w.pastPos) && w.since == NextPos(w.pastPos)
    && (!w.mode.JustRead? && w.st.buf == [] ==> w.lastSeq == pos)
  }

  ghost predicate ModeOk(w: World) {
    && w.st.exitSeen == Over(w.recvd)
    && (w.st.closed <==> w.st.exitSeen || w.st.lost)
    && (w.st.lost ==> !w.st.exitSeen && !w.alive)
    && (!w.alive ==> w.st.closed)
    && (w.mode.Reconnecting? || w.mode.Failed? ==> w.st.lost && w.st.buf == [])
    && (w.mode.AtEof? ==> w.st.exitSeen && w.st.buf == [])
  }

  ghost predicate QuietOk(w: World) {
    !w.gone ==> OneRun(w.pastPos) && NoGone(w.recvd) && (w.alive ==> NoGone(w.sent))
  }

  ghost predicate Inv(cap: nat, w: World) {
    DaemonOk(cap, w) && ClientOk(w, Payloads(w.recvd), PosAfter(w.recvd, w.since)) && ModeOk(w) && QuietOk(w)
  }

  lemma Facts(cap: nat, w: World)
    requires DaemonOk(cap, w)
    ensures w.sess.ring.Ok()
    ensures Received(Payloads(w.recvd), Positions(w.recvd), w.since, PosAfter(w.recvd, w.since),
                     Cursor(w.recvd, w.since), NoGone(w.recvd), w.stream)
  {
    MirrorsOk(w.sess.ring, cap, w.stream);
    FrameFacts(w.recvd, w.since, w.stream, Max(0, |w.stream| - cap));
  }

  lemma TrueBytesGrow(bs: seq<byte>, ps: seq<nat>, stream: seq<byte>, p: seq<byte>)
    requires TrueBytes(bs, ps, stream)
    ensures TrueBytes(bs, ps, stream + p)
  {
  }

  /** Appending a prefix of what one connection delivered to what earlier ones did. */
  lemma Join(g: seq<byte>, gp: seq<nat>, b: seq<byte>, p: seq<nat>, since: nat, pos: nat, c: nat, quiet: bool,
             stream: seq<byte>, k: nat)
    requires TrueBytes(g, gp, stream) && Increasing(gp) && since == NextPos(gp)
    requires Received(b, p, since, pos, c, quiet, stream) && k <= |p|
    ensures TrueBytes(g + b[..k], gp + p[..k], stream) && Increasing(gp + p[..k])
    ensures k == |p| ==> NextPos(gp + p[..k]) == pos
    ensures quiet && OneRun(gp) ==> OneRun(gp + p[..k])
  {
    var ps := gp + p[..k];
    forall i, j | 0 <= i < j < |ps|
      ensures ps[i] < ps[j]
    {
      if i < |gp| <= j {
        assert gp[i] <= gp[|gp| - 1] < since <= p[0] <= p[j - |gp|];
      }
    }
    if k > 0 && gp != [] && quiet && OneRun(gp) {
      assert p[0] == since == gp[0] + |gp|;
    }
  }

  lemma WriteDaemon(cap: nat, w: World, p: seq<byte>)
    requires DaemonOk(cap, w) && w.sess.ring.Ok() && !w.sess.exited
    ensures DaemonOk(cap, DaemonStep(cap, w, Write(p)))
  {
    WrittenMirrors(w.sess.ring, cap, w.stream, p);
    StreamGrows(w.recvd, w.since, w.stream, Max(0, |w.stream| - cap), p, Max(0, |w.stream + p| - cap));
    assert w.wire + [] == w.wire;
    if w.alive {
      DoKeepsInv(cap, w.since, Side(w), Write(p));
    }
  }

  lemma WriteClient(w: World, w': World, b: seq<byte>, pos: nat, p: seq<byte>)
    requires ClientOk(w, b, pos) && w' == w.(stream := w.stream + p, sess := w'.sess, wire := w'.wire)
    ensures ClientOk(w', b, pos)
  {
    TrueBytesGrow(w.pastGot, w.pastPos, w.stream, p);
  }

  lemma WriteKeeps(cap: nat, w: World, p: seq<byte>)
    requires Inv(cap, w)
    ensures w.sess.ring.Ok() && Inv(cap, Happen(cap, w, Daemon(Write(p))))
  {
    MirrorsOk(w.sess.ring, cap, w.stream);
    var w' := DaemonStep(cap, w, Write(p));
    if w.sess.exited {
      assert w'.wire == w.wire;
      assert w' == w;
    } else {
      WriteDaemon(cap, w, p);
      WriteClient(w, w', Payloads(w.recvd), PosAfter(w.recvd, w.since), p);
    }
  }

  lemma TurnDaemon(cap: nat, w: World)
    requires DaemonOk(cap, w) && w.sess.ring.Ok() && w.alive
    ensures var w', out := DaemonStep(cap, w, Turn), PumpStep(w.sess, w.pump).1;
      && DaemonOk(cap, w')
      && w'.sent == w.sent + out && (out == [] || out == [out[0]])
  {
    TurnKeepsInv(cap, w.since, Side(w));
    OneAtMost(w.sess, w.pump);
    DaemonTurned(cap, w, DaemonStep(cap, w, Turn), PumpStep(w.sess, w.pump).1);
  }

  lemma DaemonTurned(cap: nat, w: World, w': World, out: seq<Frame>)
    requires DaemonOk(cap, w) && w.alive && OutputPump.Inv(cap, w.since, Side(w'))
    requires w' == w.(pump := w'.pump, sent := w.sent + out, wire := w.wire + out, gone := w'.gone)
    ensures DaemonOk(cap, w')
  {
    Onto(w.sent, w.recvd, w.wire, out);
  }

  lemma OneAtMost(s: Session, p: Pump)
    requires s.ring.Ok()
    ensures var out := PumpStep(s, p).1; out == [] || out == [out[0]]
  {
  }

  lemma Onto(sent: seq<Frame>, recvd: seq<Frame>, wire: seq<Frame>, out: seq<Frame>)
    requires sent == recvd + wire
    ensures sent + out == recvd + (wire + out)
  {
  }

  lemma TurnKeeps(cap: nat, w: World)
    requires Inv(cap, w) && w.alive
    ensures w.sess.ring.Ok() && Inv(cap, Happen(cap, w, Daemon(Turn)))
  {
    MirrorsOk(w.sess.ring, cap, w.stream);
    var w' := DaemonStep(cap, w, Turn);
    TurnDaemon(cap, w);
    TurnClient(w, w', Payloads(w.recvd), PosAfter(w.recvd, w.since));
    TurnQuiet(w, w', PumpStep(w.sess, w.pump).1);
  }

  lemma TurnClient(w: World, w': World, b: seq<byte>, pos: nat)
    requires ClientOk(w, b, pos)
    requires w' == w.(pump := w'.pump, sent := w'.sent, wire := w'.wire, gone := w'.gone)
    ensures ClientOk(w', b, pos) && (ModeOk(w) ==> ModeOk(w'))
  {
  }

  lemma TurnQuiet(w: World, w': World, out: seq<Frame>)
    requires QuietOk(w) && w.alive && (out == [] || out == [out[0]])
    requires w' == w.(pump := w'.pump, sent := w.sent + out, wire := w'.wire, gone := w'.gone)
    requires w'.gone == (w.gone || (out != [] && out[0].RingGone?))
    ensures QuietOk(w')
  {
    if out == [] {
      assert w.sent + out == w.sent;
    } else {
      Snoc(w.sent, out[0], w.since);
    }
  }

  lemma ArriveDaemon(cap: nat, w: World)
    requires DaemonOk(cap, w) && w.alive && w.wire != []
    ensures w.sess.ring.Ok() && DaemonOk(cap, Happen(cap, w, Arrive)) && !Over(w.recvd)
  {
    MirrorsOk(w.sess.ring, cap, w.stream);
    ArriveSent(w.sent, w.recvd, w.wire, w.since, w.stream, Max(0, |w.stream| - cap));
    OverNeedsExit(cap, w, w.recvd + [w.wire[0]], w.wire[1..]);
    assert Side(Happen(cap, w, Arrive)) == Side(w);
  }

  lemma ArriveSent(sent: seq<Frame>, recvd: seq<Frame>, wire: seq<Frame>, since: nat, stream: seq<byte>, oldest: nat)
    requires WellSent(sent, since, stream, oldest) && sent == recvd + wire && wire != []
    ensures sent == (recvd + [wire[0]]) + wire[1..]
    ensures WellSent(recvd + [wire[0]], since, stream, oldest) && !Over(recvd)
  {
    var recvd' := recvd + [wire[0]];
    assert sent == recvd' + wire[1..];
    Prefix(recvd', wire[1..], since, stream, oldest);
    assert recvd'[..|recvd'| - 1] == recvd;
  }

  lemma ArriveClient(w: World, w': World, b: seq<byte>, pos: nat, f: Frame)
    requires ClientOk(w, b, pos) && !w.st.closed
    requires w' == w.(wire := w'.wire, recvd := w'.recvd, st := Delivered(w.st, f))
    requires f.Output? ==> f.payload != []
    ensures ClientOk(w', b + DataOf(f), match f case Output(q, d) => q + |d| case _ => pos)
  {
    assert b[..w.read] == (b + DataOf(f))[..w.read];
    assert b[w.read..] + DataOf(f) == (b + DataOf(f))[w.read..];
  }

  lemma ArriveQuiet(cap: nat, w: World)
    requires DaemonOk(cap, w) && QuietOk(w) && w.alive && w.wire != []
    ensures w.sess.ring.Ok() && QuietOk(Happen(cap, w, Arrive))
  {
    MirrorsOk(w.sess.ring, cap, w.stream);
    QuietPrefix(w.sent, w.recvd, w.wire, w.since, w.stream, Max(0, |w.stream| - cap));
  }

  lemma QuietPrefix(sent: seq<Frame>, recvd: seq<Frame>, wire: seq<Frame>, since: nat, stream: seq<byte>, oldest: nat)
    requires WellSent(sent, since, stream, oldest) && sent == recvd + wire && wire != []
    ensures NoGone(sent) ==> NoGone(recvd + [wire[0]])
  {
    assert sent == (recvd + [wire[0]]) + wire[1..];
    Prefix(recvd + [wire[0]], wire[1..], since, stream, oldest);
  }

  lemma ArriveMode(w: World, w': World, f: Frame)
    requires ModeOk(w) && w.alive && !Over(w.recvd)
    requires w' == w.(wire := w'.wire, recvd := w.recvd + [f], st := Delivered(w.st, f))
    ensures ModeOk(w')
  {
    assert w'.recvd[..|w'.recvd| - 1] == w.recvd;
  }

  lemma ArriveKeeps(cap: nat, w: World)
    requires Inv(cap, w) && w.alive && w.wire != []
    ensures w.sess.ring.Ok() && Inv(cap, Happen(cap, w, Arrive))
  {
    ArriveDaemon(cap, w);
    ArriveQuiet(cap, w);
    var f, w' := w.wire[0], Happen(cap, w, Arrive);
    assert w' == w.(wire := w'.wire, recvd := w.recvd + [f], st := Delivered(w.st, f));
    ArriveMode(w, w', f);
    Snoc(w.recvd, f, w.since);
    ArriveClient(w, w', Payloads(w.recvd), PosAfter(w.recvd, w.since), f);
  }

  /** EXIT can only have arrived if it was the last frame sent. */
  lemma OverNeedsExit(cap: nat, w: World, fs: seq<Frame>, gs: seq<Frame>)
    requires OutputPump.Inv(cap, w.since, Side(w)) && w.sent == fs + gs
    ensures Over(fs) ==> w.sess.exited
  {
    if Over(fs) {
      assert w.sent[|fs| - 1] == Exit;
      ExitIsLast(w.sent, w.since, w.stream, Max(0, |w.stream| - cap), |fs| - 1);
    }
  }

  lemma ReadClient(w: World, room: nat, b: seq<byte>, pos: nat)
    requires ClientOk(w, b, pos) && w.mode.Idle? && room > 0 && w.st.buf != []
    ensures ClientOk(ReadStep(w, room), b, pos)
  {
    var n := Min(room, |w.st.buf|);
    assert b[..w.read] + b[w.read..][..n] == b[..w.read + n];
    assert b[w.read..][n..] == b[w.read + n..];
  }

  lemma ReadKeeps(cap: nat, w: World, room: nat)
    requires Inv(cap, w) && w.mode.Idle? && room > 0
    ensures Inv(cap, ReadStep(w, room))
  {
    if w.st.buf != [] {
      ReadClient(w, room, Payloads(w.recvd), PosAfter(w.recvd, w.since));
      var w' := ReadStep(w, room);
      assert w' == w.(st := w'.st, got := w'.got, mode := JustRead, read := w'.read);
      assert DaemonOk(cap, w');
    }
  }

  /** When the follower reconnects, everything that arrived has been read, and lastSeq is what comes next. */
  lemma ReconnectsAtFirstUnread(cap: nat, w: World)
    requires Inv(cap, w) && w.mode.Reconnecting?
    ensures w.got == w.pastGot + Payloads(w.recvd)
    ensures TrueBytes(w.got, GotPos(w), w.stream) && Increasing(GotPos(w))
    ensures w.lastSeq == NextPos(GotPos(w)) <= |w.stream|
    ensures !w.gone ==> OneRun(GotPos(w))
  {
    Facts(cap, w);
    var b := Payloads(w.recvd);
    assert w.read == |b| && b[..|b|] == b;
    Join(w.pastGot, w.pastPos, b, Positions(w.recvd), w.since, PosAfter(w.recvd, w.since), Cursor(w.recvd, w.since),
         NoGone(w.recvd), w.stream, w.read);
  }

  lemma ReattachKeeps(cap: nat, w: World)
    requires Inv(cap, w) && w.mode.Reconnecting?
    ensures w.sess.ring.Ok() && Inv(cap, ReattachStep(w))
  {
    MirrorsOk(w.sess.ring, cap, w.stream);
    ReconnectsAtFirstUnread(cap, w);
    ReattachClient(w, GotPos(w));
    ReattachDaemon(cap, w);
  }

  lemma ReattachDaemon(cap: nat, w: World)
    requires DaemonOk(cap, w) && w.lastSeq <= |w.stream|
    ensures DaemonOk(cap, ReattachStep(w))
  {
  }

  lemma ReattachClient(w: World, ps: seq<nat>)
    requires TrueBytes(w.got, ps, w.stream) && Increasing(ps) && w.lastSeq == NextPos(ps) && ps == GotPos(w)
    ensures ClientOk(ReattachStep(w), [], w.lastSeq)
  {
    assert w.got + [][..0] == w.got;
  }

  lemma FinishKeeps(cap: nat, w: World)
    requires Inv(cap, w) && w.sess.ring.Ok()
    ensures Inv(cap, Happen(cap, w, Daemon(Finish)))
  {
    assert w.wire + [] == w.wire;
    assert Happen(cap, w, Daemon(Finish)) == w.(sess := w.sess.(exited := true));
    FinishDaemon(cap, w);
  }

  lemma FinishDaemon(cap: nat, w: World)
    requires DaemonOk(cap, w)
    ensures DaemonOk(cap, w.(sess := w.sess.(exited := true)))
  {
  }

  lemma DaemonKeeps(cap: nat, w: World, ev: Event)
    requires Inv(cap, w)
    ensures w.sess.ring.Ok() && Inv(cap, Happen(cap, w, Daemon(ev)))
  {
    MirrorsOk(w.sess.ring, cap, w.stream);
    match ev {
      case Write(p) => WriteKeeps(cap, w, p);
      case Finish => FinishKeeps(cap, w);
      case Turn => if w.alive { TurnKeeps(cap, w); }
    }
  }

  lemma ConnectionKeeps(cap: nat, w: World, e: Happening)
    requires Inv(cap, w) && (e.Drop? || e.Replace?)
    ensures w.sess.ring.Ok() && Inv(cap, Happen(cap, w, e))
  {
    MirrorsOk(w.sess.ring, cap, w.stream);
    AdoptedIsOriginal(cap, w.sess.ring, w.stream);
  }

  lemma FollowerKeeps(cap: nat, w: World, e: Happening)
    requires Inv(cap, w) && (e.NoteSeq? || e.Refused?)
    ensures w.sess.ring.Ok() && Inv(cap, Happen(cap, w, e))
  {
    MirrorsOk(w.sess.ring, cap, w.stream);
  }

  lemma HappenKeeps(cap: nat, w: World, e: Happening)
    requires Inv(cap, w)
    ensures w.sess.ring.Ok() && Inv(cap, Happen(cap, w, e))
  {
    MirrorsOk(w.sess.ring, cap, w.stream);
    if e.Daemon? {
      DaemonKeeps(cap, w, e.e);
    } else if e.Arrive? {
      if w.alive && w.wire != [] { ArriveKeeps(cap, w); }
    } else if e.Read? {
      if w.mode.Idle? && e.room > 0 { ReadKeeps(cap, w, e.room); }
    } else if e.Reattach? {
      if w.mode.Reconnecting? { ReattachKeeps(cap, w); }
    } else if e.Drop? || e.Replace? {
      ConnectionKeeps(cap, w, e);
    } else {
      FollowerKeeps(cap, w, e);
    }
  }

  function Exec(cap: nat, w: World, es: seq<Happening>): (r: World)
    requires w.sess.ring.Ok()
    ensures r.sess.ring.Ok()
  {
    if es == [] then w
    else
      var r := Happen(cap, Exec(cap, w, es[..|es| - 1]), es[|es| - 1]);
      assert r.sess.ring.Ok();
      r
  }

  lemma {:induction false} ExecKeeps(cap: nat, w: World, es: seq<Happening>)
    requires Inv(cap, w)
    ensures w.sess.ring.Ok() && Inv(cap, Exec(cap, w, es))
  {
    MirrorsOk(w.sess.ring, cap, w.stream);
    if es != [] {
      ExecKeeps(cap, w, es[..|es| - 1]);
      HappenKeeps(cap, Exec(cap, w, es[..|es| - 1]), es[|es| - 1]);
    }
  }

  lemma StartHolds(cap: nat, stream: seq<byte>, exited: bool)
    requires cap > 0
    ensures Inv(cap, Start(cap, stream, exited))
  {
    var w := Start(cap, stream, exited);
    assert w.sent == w.recvd + w.wire;
    assert w.got == w.pastGot + Payloads(w.recvd)[..0];
  }

  lemma OneRunIsSlice(bs: seq<byte>, ps: seq<nat>, stream: seq<byte>)
    requires TrueBytes(bs, ps, stream) && OneRun(ps) && ps != []
    ensures ps[0] + |bs| <= |stream| && bs == stream[ps[0]..ps[0] + |bs|]
  {
    assert ps[|ps| - 1] == ps[0] + |ps| - 1;
    forall i | 0 <= i < |bs|
      ensures bs[i] == stream[ps[0] + i]
    {
      assert ps[i] == ps[0] + i;
    }
  }

  lemma GotIsTrue(cap: nat, w: World)
    requires Inv(cap, w)
    ensures TrueBytes(w.got, GotPos(w), w.stream) && Increasing(GotPos(w))
    ensures !w.gone ==> OneRun(GotPos(w))
    ensures w.st.buf == [] ==> NextPos(GotPos(w)) == PosAfter(w.recvd, w.since) <= |w.stream|
  {
    Facts(cap, w);
    Join(w.pastGot, w.pastPos, Payloads(w.recvd), Positions(w.recvd), w.since, PosAfter(w.recvd, w.since),
         Cursor(w.recvd, w.since), NoGone(w.recvd), w.stream, w.read);
  }

  lemma EofIsComplete(cap: nat, w: World)
    requires Inv(cap, w) && w.mode.AtEof?
    ensures w.sess.exited && NextPos(GotPos(w)) == |w.stream|
  {
    GotIsTrue(cap, w);
    OverIsComplete(w.recvd, w.since, w.stream, Max(0, |w.stream| - cap));
  }

  /** What the consumer can rely on in one state. */
  ghost predicate ZeroGap(w: World) {
    var ps := GotPos(w);
    && TrueBytes(w.got, ps, w.stream) && Increasing(ps)
    && (!w.gone && ps != [] ==> ps[0] + |w.got| <= |w.stream| && w.got == w.stream[ps[0]..ps[0] + |w.got|])
    && (w.mode.Reconnecting? ==> w.lastSeq == NextPos(ps) <= |w.stream|)
    && (w.mode.AtEof? ==> w.sess.exited && NextPos(ps) == |w.stream|)
  }

  lemma InvMeansZeroGap(cap: nat, w: World)
    requires Inv(cap, w)
    ensures ZeroGap(w)
  {
    GotIsTrue(cap, w);
    if w.mode.AtEof? {
      EofIsComplete(cap, w);
    }
    if w.mode.Reconnecting? {
      ReconnectsAtFirstUnread(cap, w);
    }
    GapFree(cap, w);
  }

  lemma GapFree(cap: nat, w: World)
    requires Inv(cap, w)
    ensures var ps := GotPos(w);
      !w.gone && ps != [] ==> ps[0] + |w.got| <= |w.stream| && w.got == w.stream[ps[0]..ps[0] + |w.got|]
  {
    GotIsTrue(cap, w);
    if !w.gone {
      SliceUnlessEmpty(w.got, GotPos(w), w.stream);
    }
  }

  lemma SliceUnlessEmpty(bs: seq<byte>, ps: seq<nat>, stream: seq<byte>)
    requires TrueBytes(bs, ps, stream) && OneRun(ps)
    ensures ps != [] ==> ps[0] + |bs| <= |stream| && bs == stream[ps[0]..ps[0] + |bs|]
  {
    if ps != [] {
      OneRunIsSlice(bs, ps, stream);
    }
  }

  /**
   * Zero-gap replay, under every interleaving of output, pump steps, frame deliveries, partial
   * reads, connection losses, reconnects and daemon replacement. The consumer's bytes sit at
   * strictly increasing stream positions, each byte true; without an announced skip they are one
   * contiguous slice. When the follower reconnects, lastSeq is the first unread position. When it
   * reports end of file, the session has exited and nothing after the last byte read is missing.
   */
  lemma ZeroGapReplay(cap: nat, stream: seq<byte>, exited: bool, es: seq<Happening>)
    requires cap > 0
    ensures ZeroGap(Exec(cap, Start(cap, stream, exited), es))
  {
    StartHolds(cap, stream, exited);
    ExecKeeps(cap, Start(cap, stream, exited), es);
    InvMeansZeroGap(cap, Exec(cap, Start(cap, stream, exited), es));
  }

  // ── The follower catches up ─────────────────────────────────────────

  /** What the pump, the wire and the follower do on their own, when no connection is lost. */
  predicate Own(e: Happening) { e == Daemon(Turn) || e.Arrive? || e.Read? || e.NoteSeq? || e.Reattach? }

  /** Some of their steps lead from w to v. */
  ghost predicate Reach(cap: nat, w: World, v: World) {
    && w.sess.ring.Ok() && v.sess.ring.Ok()
    && exists es :: (forall i :: 0 <= i < |es| ==> Own(es[i])) && Exec(cap, w, es) == v
  }

  lemma ReachSelf(cap: nat, w: World)
    requires w.sess.ring.Ok()
    ensures Reach(cap, w, w)
  {
    assert Exec(cap, w, []) == w;
  }

  lemma ReachOn(cap: nat, w: World, v: World, e: Happening, v': World)
    requires Reach(cap, w, v) && Own(e) && v' == Happen(cap, v, e)
    ensures Reach(cap, w, v')
  {
    var es :| (forall i :: 0 <= i < |es| ==> Own(es[i])) && Exec(cap, w, es) == v;
    assert (es + [e])[..|es|] == es && (es + [e])[|es|] == e;
    assert Exec(cap, w, es + [e]) == v';
  }

  lemma ReachKeeps(cap: nat, w: World, v: World)
    requires Reach(cap, w, v) && Inv(cap, w)
    ensures Inv(cap, v)
  {
    var es :| (forall i :: 0 <= i < |es| ==> Own(es[i])) && Exec(cap, w, es) == v;
    ExecKeeps(cap, w, es);
  }

  /** v differs from w only in the client. */
  predicate SameDaemon(w: World, v: World) {
    v.stream == w.stream && v.sess == w.sess && v.pump == w.pump && v.wire == w.wire && v.alive == w.alive
    && v.since == w.since && v.sent == w.sent && v.recvd == w.recvd
  }

  lemma Noted(cap: nat, w: World, v: World) returns (v': World)
    requires Reach(cap, w, v) && (v.mode.Idle? || v.mode.JustRead?)
    ensures Reach(cap, w, v') && SameDaemon(v, v') && v'.mode.Idle? && v'.st == v.st
  {
    v' := v;
    if v.mode.JustRead? {
      v' := v.(mode := Idle, lastSeq := v.st.pos);
      ReachOn(cap, w, v, NoteSeq, v');
    }
  }

  /** A read into a buffer with room for all that is buffered returns it all. */
  lemma ReadsAll(cap: nat, v: World)
    requires v.sess.ring.Ok() && v.mode.Idle? && v.st.buf != []
    ensures Happen(cap, v, Read(|v.st.buf|)) ==
      v.(st := v.st.(buf := []), got := v.got + v.st.buf, mode := JustRead, read := v.read + |v.st.buf|)
  {
    assert v.st.buf[..|v.st.buf|] == v.st.buf && v.st.buf[|v.st.buf|..] == [];
  }

  lemma ReadAll(cap: nat, w: World, v: World) returns (v': World)
    requires Reach(cap, w, v) && (v.mode.Idle? || v.mode.JustRead?)
    ensures Reach(cap, w, v') && SameDaemon(v, v') && v'.mode.Idle? && v'.st == v.st.(buf := [])
  {
    v' := Noted(cap, w, v);
    if v.st.buf != [] {
      ReadsAll(cap, v');
      var u := v'.(st := v.st.(buf := []), got := v'.got + v.st.buf, mode := JustRead, read := v'.read + |v.st.buf|);
      ReachOn(cap, w, v', Read(|v.st.buf|), u);
      v' := Noted(cap, w, u);
    }
  }

  lemma SeesLoss(cap: nat, w: World, v: World, u: World)
    requires Reach(cap, w, v) && v.st.lost && v.st.closed && v.st.buf == [] && (v.mode.Idle? || v.mode.Reconnecting?)
    requires u == v.(mode := Reconnecting)
    ensures Reach(cap, w, u)
  {
    if v.mode.Idle? {
      assert TakenBy(v.st, 1) == ConnectionLost;
      ReachOn(cap, w, v, Read(1), u);
    }
  }

  /** v has just attached again, on the session of w. */
  predicate Reattached(w: World, v: World) {
    v.mode.Idle? && v.alive && v.st == Fresh(v.since) && v.stream == w.stream && v.sess == w.sess
  }

  /** With nothing buffered and the connection lost, it attaches again. */
  lemma Reconnects(cap: nat, w: World, v: World) returns (v': World)
    requires Reach(cap, w, v) && v.st.lost && v.st.closed && v.st.buf == [] && (v.mode.Idle? || v.mode.Reconnecting?)
    ensures Reach(cap, w, v') && Reattached(v, v')
  {
    var u := v.(mode := Reconnecting);
    SeesLoss(cap, w, v, u);
    v' := ReattachStep(u);
    JustReattached(u, v');
    ReachOn(cap, w, u, Reattach, v');
  }

  lemma JustReattached(u: World, v: World)
    requires v == ReattachStep(u)
    ensures Reattached(u, v)
  {
  }

  /** In v only the pump has moved, and what it sent is on the wire. */
  predicate PumpMoved(w: World, v: World) {
    && v.stream == w.stream && v.sess == w.sess && v.alive == w.alive && v.mode == w.mode && v.since == w.since
    && v.recvd == w.recvd && v.sent == v.recvd + v.wire
  }

  lemma TurnIsOurs(cap: nat, v: World, v1: World)
    requires v.sess.ring.Ok() && v.alive && v1 == DaemonStep(cap, v, Turn) && v.sent == v.recvd + v.wire
    ensures Side(v1) == Do(cap, Side(v), Turn) && PumpMoved(v, v1)
  {
    Onto(v.sent, v.recvd, v.wire, PumpStep(v.sess, v.pump).1);
  }

  lemma OneTurn(cap: nat, w: World, v: World) returns (v': World)
    requires Reach(cap, w, v) && v.alive && v.sent == v.recvd + v.wire
    ensures Reach(cap, w, v') && PumpMoved(v, v') && Side(v') == Do(cap, Side(v), Turn)
  {
    v' := DaemonStep(cap, v, Turn);
    ReachOn(cap, w, v, Daemon(Turn), v');
    TurnIsOurs(cap, v, v');
  }

  /** What is left for the pump of w to do. */
  function Work(w: World): nat { Max(0, StepsLeft(w.pump, |w.stream|)) }

  ghost predicate PumpInv(cap: nat, w: World) { OutputPump.Inv(cap, w.since, Side(w)) }

  lemma TurnWorks(cap: nat, v: World, v': World)
    requires PumpInv(cap, v) && PumpMoved(v, v') && v.sess.ring.Ok() && Side(v') == Do(cap, Side(v), Turn)
    ensures PumpInv(cap, v')
    ensures !AtRest(v.pump, v.sess.exited, |v.stream|) ==> Work(v') < Work(v)
  {
    TurnKeepsInv(cap, v.since, Side(v));
  }

  /** On a live connection the pump comes to rest. */
  lemma {:induction false} PumpRests(cap: nat, w: World, v: World) returns (v': World)
    requires Reach(cap, w, v) && v.alive && v.sent == v.recvd + v.wire && PumpInv(cap, v)
    ensures Reach(cap, w, v') && PumpMoved(v, v') && PumpInv(cap, v') && AtRest(v'.pump, v'.sess.exited, |v'.stream|)
    decreases Work(v)
  {
    v' := v;
    if !AtRest(v.pump, v.sess.exited, |v.stream|) {
      var v1 := OneTurn(cap, w, v);
      TurnWorks(cap, v, v1);
      v' := PumpRests(cap, w, v1);
    }
  }

  lemma {:induction false} ArriveAll(cap: nat, w: World, v: World) returns (v': World)
    requires Reach(cap, w, v) && v.alive
    ensures Reach(cap, w, v') && v'.recvd == v.recvd + v.wire
    ensures v'.stream == v.stream && v'.sess == v.sess && v'.since == v.since && v'.mode == v.mode
    decreases |v.wire|
  {
    v' := v;
    if v.wire != [] {
      var v1 := v.(wire := v.wire[1..], recvd := v.recvd + [v.wire[0]], st := Delivered(v.st, v.wire[0]));
      ReachOn(cap, w, v, Arrive, v1);
      v' := ArriveAll(cap, w, v1);
      Shift(v.recvd, v.wire);
    } else {
      assert v.recvd + [] == v.recvd;
    }
  }

  lemma Shift(recvd: seq<Frame>, wire: seq<Frame>)
    requires wire != []
    ensures (recvd + [wire[0]]) + wire[1..] == recvd + wire
  {
  }

  /** A receiver that is at the end of the stream has received its last byte. */
  lemma {:induction false} EndReached(fs: seq<Frame>, since: nat, stream: seq<byte>, oldest: nat)
    requires WellSent(fs, since, stream, oldest) && Cursor(fs, since) == |stream|
    requires oldest < |stream| || stream == []
    ensures PosAfter(fs, since) == |stream|
  {
    if fs != [] && fs[|fs| - 1].Exit? {
      EndReached(fs[..|fs| - 1], since, stream, oldest);
    }
  }

  lemma RestIsAll(cap: nat, v: World)
    requires PumpInv(cap, v) && AtRest(v.pump, v.sess.exited, |v.stream|)
    ensures PosAfter(v.sent, v.since) == |v.stream| && (Over(v.sent) <==> v.sess.exited)
  {
    EndReached(v.sent, v.since, v.stream, Max(0, |v.stream| - cap));
  }

  /** On a live connection, everything can come to be received. */
  lemma ReceivesAll(cap: nat, w: World, v: World) returns (v': World)
    requires Reach(cap, w, v) && v.alive && PumpInv(cap, v) && v.sent == v.recvd + v.wire
    ensures Reach(cap, w, v') && v'.mode == v.mode && v'.stream == v.stream && v'.sess == v.sess
    ensures PosAfter(v'.recvd, v'.since) == |v'.stream| && (Over(v'.recvd) <==> v'.sess.exited)
  {
    var v1 := PumpRests(cap, w, v);
    RestIsAll(cap, v1);
    v' := ArriveAll(cap, w, v1);
  }

  /** The consumer is at the end: at end of file if the session has exited, and else waiting for more. */
  ghost predicate AtTheEnd(w: World) {
    && NextPos(GotPos(w)) == |w.stream| && w.st.buf == []
    && (if w.sess.exited then w.mode.AtEof? else w.mode.Idle?)
  }

  /** Everything received is read, and end of file reported if it is the end. */
  lemma ReachesEnd(cap: nat, w: World, v: World) returns (v': World)
    requires Reach(cap, w, v) && v.mode.Idle? && (v.sess.exited ==> v.st.closed && !v.st.lost)
    ensures Reach(cap, w, v') && SameDaemon(v, v') && v'.st.buf == []
    ensures if v.sess.exited then v'.mode.AtEof? else v'.mode.Idle?
  {
    v' := ReadAll(cap, w, v);
    if v.sess.exited {
      var u := v'.(mode := AtEof);
      ReachOn(cap, w, v', Read(1), u);
      v' := u;
    }
  }

  lemma EndsThere(cap: nat, w: World, v: World) returns (v': World)
    requires Reach(cap, w, v) && Inv(cap, w) && v.mode.Idle?
    requires PosAfter(v.recvd, v.since) == |v.stream| && (Over(v.recvd) <==> v.sess.exited)
    ensures Reach(cap, w, v') && v'.stream == v.stream && v'.sess == v.sess && AtTheEnd(v')
  {
    ReachKeeps(cap, w, v);
    ModeMeans(cap, v);
    v' := ReachesEnd(cap, w, v);
    ReachKeeps(cap, w, v');
    GotIsTrue(cap, v');
  }

  lemma ModeMeans(cap: nat, v: World)
    requires Inv(cap, v)
    ensures v.sess.ring.Ok() && v.st.exitSeen == Over(v.recvd) && (v.st.closed <==> v.st.exitSeen || v.st.lost)
    ensures (v.st.lost ==> !v.st.exitSeen) && (!v.alive ==> v.st.closed)
    ensures v.mode.Reconnecting? ==> v.st.lost && v.st.buf == []
    ensures v.alive ==> PumpInv(cap, v) && v.sent == v.recvd + v.wire
    ensures Over(v.recvd) ==> v.sess.exited && PosAfter(v.recvd, v.since) == |v.stream|
  {
    MirrorsOk(v.sess.ring, cap, v.stream);
    if Over(v.recvd) {
      OverIsComplete(v.recvd, v.since, v.stream, Max(0, |v.stream| - cap));
    }
  }

  /** With nothing buffered, and on a connection that is up or can be: everything can come to be received. */
  lemma ReceivesOn(cap: nat, w: World, v: World) returns (v': World)
    requires Reach(cap, w, v) && Inv(cap, w) && v.st.buf == [] && (v.mode.Idle? || v.mode.Reconnecting?)
    ensures Reach(cap, w, v') && v'.mode.Idle? && v'.stream == v.stream && v'.sess == v.sess
    ensures PosAfter(v'.recvd, v'.since) == |v'.stream| && (Over(v'.recvd) <==> v'.sess.exited)
  {
    ReachKeeps(cap, w, v);
    ModeMeans(cap, v);
    if v.st.exitSeen {
      v' := v;
    } else {
      var u := v;
      if v.st.lost {
        u := Reconnects(cap, w, v);
      }
      ReachKeeps(cap, w, u);
      ModeMeans(cap, u);
      v' := ReceivesAll(cap, w, u);
    }
  }

  /** From any state the follower has not given up in. */
  lemma CatchesUpFrom(cap: nat, w: World) returns (v: World)
    requires Inv(cap, w) && !w.mode.Failed?
    ensures Reach(cap, w, v) && v.stream == w.stream && v.sess == w.sess && AtTheEnd(v)
  {
    ModeMeans(cap, w);
    ReachSelf(cap, w);
    if w.mode.AtEof? {
      v := w;
      AlreadyThere(cap, w);
    } else {
      v := w;
      if !w.mode.Reconnecting? {
        v := ReadAll(cap, w, w);
      }
      v := ReceivesOn(cap, w, v);
      v := EndsThere(cap, w, v);
    }
  }

  lemma AlreadyThere(cap: nat, w: World)
    requires Inv(cap, w) && w.mode.AtEof?
    ensures AtTheEnd(w)
  {
    EofIsComplete(cap, w);
  }

  /**
   * And nothing keeps the follower from it: whatever has happened, unless it has given up, then without
   * any more output or loss the pump, the wire, the consumer's reads and one reconnect, if the
   * connection is down, bring it to the end of the stream, and if the session has exited, to end of file.
   */
  lemma AlwaysCatchesUp(cap: nat, stream: seq<byte>, exited: bool, es: seq<Happening>, w: World)
    requires cap > 0 && w == Exec(cap, Start(cap, stream, exited), es) && !w.mode.Failed?
    ensures exists v :: Reach(cap, w, v) && v.stream == w.stream && v.sess == w.sess && AtTheEnd(v) && ZeroGap(v)
  {
    StartHolds(cap, stream, exited);
    ExecKeeps(cap, Start(cap, stream, exited), es);
    var v := CatchesUpFrom(cap, w);
    ReachKeeps(cap, w, v);
    InvMeansZeroGap(cap, v);
  }

  // ── The client objects ──────────────────────────────────────────────

  /** client.Stream. Each method is one critical section of its mutex. */
  class Stream {
    var buf: seq<byte>
    var pos: nat
    var closed: bool
    var lost: bool
    var exitSeen: bool

    ghost function State(): StreamState
      reads this
    {
      StreamState(buf, pos, closed, lost, exitSeen)
    }

    constructor (since: nat)
      ensures State() == Fresh(since)
    {
      buf, pos, closed, lost, exitSeen := [], since, false, false, false;
    }

    /** deliver, pushErr or exit, by frame. */
    method Receive(f: Frame)
      modifies this
      ensures State() == Delivered(old(State()), f)
    {
      match f {
        case Output(q, d) =>
          if !closed {
            buf := buf + d;
            pos := q + |d|;
          }
        case RingGone(_, _) =>
        case Exit =>
          exitSeen := true;
          closed := true;
      }
    }

    /** finish, with the connection error. */
    method Finish()
      modifies this
      ensures State() == Lost(old(State()))
    {
      if !closed {
        closed := true;
        lost := true;
      }
    }

    /** Read, once its wait is over. */
    method Take(room: nat) returns (t: Taken)
      requires buf != [] || closed
      modifies this
      ensures t == TakenBy(old(State()), room) && !t.Blocked?
      ensures t.Bytes? ==> State() == old(State()).(buf := old(buf)[|t.data|..])
      ensures !t.Bytes? ==> State() == old(State())
    {
      if |buf| > 0 {
        var n := Min(room, |buf|);
        t := Bytes(buf[..n]);
        buf := buf[n..];
      } else if lost {
        t := ConnectionLost;
      } else {
        t := EndOfFile;
      }
    }
  }

  /** client.Follower, without its blocking and its backoff. */
  class Follower {
    var st: Stream
    var lastSeq: nat

    constructor ()
      ensures fresh(st) && st.State() == Fresh(0) && lastSeq == 0
    {
      st := new Stream(0);
      lastSeq := 0;
    }

    /** One pass of Read's loop with nothing arriving in between: Read(room) and then NoteSeq. */
    method Pass(room: nat) returns (t: Taken)
      requires st.buf != [] || st.closed
      modifies this, st
      ensures st == old(st) && t == TakenBy(old(st.State()), room)
      ensures lastSeq == if t.Bytes? && t.data != [] then st.pos else old(lastSeq)
      ensures st.pos == old(st.pos)
    {
      t := st.Take(room);
      if t.Bytes? && |t.data| > 0 {
        NoteSeq();
      }
    }

    /** f.lastSeq = f.st.LastSeq(), a second critical section of the stream: frames may have arrived since the first. */
    method NoteSeq()
      modifies this`lastSeq
      ensures lastSeq == st.pos
    {
      lastSeq := st.pos;
    }

    /** The successful end of reconnect. */
    method Resume()
      modifies this
      ensures fresh(st) && st.State() == Fresh(lastSeq) && lastSeq == old(lastSeq)
    {
      st := new Stream(lastSeq);
    }
  }
}
