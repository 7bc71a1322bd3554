/** pkg/host/monitor.go: the bell and shell-mark scanner, and the last-command window it keeps. */
module CommandMonitor {
  import opened Bytes

  const ESC: byte := 0x1b
  const BEL: byte := 0x07
  const OPEN: byte := 0x5d // ']'
  const BACKSLASH: byte := 0x5c
  const SEMI: byte := 0x3b
  const MARK_C: byte := 0x43
  const MARK_D: byte := 0x44
  const CAPTURE_MAX := 64 // oscCaptureMax
  const OSC_133: seq<byte> := [0x31, 0x33, 0x33, 0x3b] // "133;"

  datatype Osc = Ground | SawEsc | InOsc | InOscEsc

  /** An exit code of [] stands for an absent one. */
  datatype Event = Bell | Started(at: nat) | Finished(start: nat, end: nat, code: seq<byte>)

  datatype Scan = Scan(osc: Osc, captured: seq<byte>, pos: nat, cmdStart: nat, running: bool, lastStart: nat, lastEnd: nat)

  const Blank := Scan(Ground, [], 0, 0, false, 0, 0)

  /** The bytes before the first semicolon. */
  function BeforeSemi(s: seq<byte>): (r: seq<byte>)
    ensures r <= s && SEMI !in r
    ensures |r| < |s| ==> s[|r|] == SEMI
  {
    if s == [] || s[0] == SEMI then [] else [s[0]] + BeforeSemi(s[1..])
  }

  /** The exit-code field of "D;code;…", or [] when there is none. */
  function ExitCode(rest: seq<byte>): seq<byte> {
    var kind := BeforeSemi(rest);
    if |kind| < |rest| then BeforeSemi(rest[|kind| + 1..]) else []
  }

  /** "133;" and at least one more byte. */
  predicate IsMark(p: seq<byte>) {
    |p| > 4 && p[0] == OSC_133[0] && p[1] == OSC_133[1] && p[2] == OSC_133[2] && p[3] == OSC_133[3]
  }

  /** finishOSC: the payload is complete, and s.pos is the position after its terminator. */
  function FinishOsc(s: Scan): (Scan, seq<Event>) {
    var t, endSeq := s.(captured := []), s.pos;
    if !IsMark(s.captured) then (t, [])
    else
      var rest := s.captured[4..];
      if rest[0] == MARK_C then
        (t.(cmdStart := endSeq, running := true), [Started(endSeq)])
      else if rest[0] == MARK_D then
        (t.(running := false, lastStart := s.cmdStart, lastEnd := endSeq), [Finished(s.cmdStart, endSeq, ExitCode(rest))])
      else (t, [])
  }

  function FedByte(s: Scan, b: byte): (Scan, seq<Event>) {
    var t := s.(pos := s.pos + 1);
    match s.osc
    case Ground =>
      if b == ESC then (t.(osc := SawEsc), []) else (t, if b == BEL then [Bell] else [])
    case SawEsc =>
      if b == OPEN then (t.(osc := InOsc, captured := []), []) else (t.(osc := Ground), [])
    case InOsc =>
      if b == BEL then FinishOsc(t.(osc := Ground))
      else if b == ESC then (t.(osc := InOscEsc), [])
      else (if |s.captured| < CAPTURE_MAX then t.(captured := s.captured + [b]) else t, [])
    case InOscEsc =>
      if b == BACKSLASH then FinishOsc(t.(osc := Ground)) else (t.(osc := InOsc), [])
  }

  function Fed(s: Scan, p: seq<byte>): (Scan, seq<Event>) {
    if p == [] then (s, [])
    else
      var (t, es) := Fed(s, p[..|p| - 1]);
      var (u, fs) := FedByte(t, p[|p| - 1]);
      (u, es + fs)
  }

  /** How the output is cut into chunks makes no difference. */
  lemma {:induction false} FedConcat(s: Scan, p: seq<byte>, q: seq<byte>)
    ensures Fed(s, p + q).0 == Fed(Fed(s, p).0, q).0
    ensures Fed(s, p + q).1 == Fed(s, p).1 + Fed(Fed(s, p).0, q).1
  {
    if q == [] {
      assert p + q == p;
    } else {
      var init, b := q[..|q| - 1], q[|q| - 1];
      assert init + [b] == q && (p + init) + [b] == p + q;
      FedConcat(s, p, init);
      OneByteOn(s, p, init, b, Fed(s, p).0, p + init);
    }
  }

  lemma OneByteOn(s: Scan, p: seq<byte>, q: seq<byte>, b: byte, t: Scan, pq: seq<byte>)
    requires t == Fed(s, p).0 && Fed(s, pq).0 == Fed(t, q).0 && Fed(s, pq).1 == Fed(s, p).1 + Fed(t, q).1
    ensures Fed(s, pq + [b]).0 == Fed(t, q + [b]).0
    ensures Fed(s, pq + [b]).1 == Fed(s, p).1 + Fed(t, q + [b]).1
  {
    FedThen(s, pq, b);
    FedThen(t, q, b);
    AndThen(Fed(s, p).1, Fed(t, q).1, FedByte(Fed(t, q).0, b).1);
  }

  lemma AndThen(x: seq<Event>, y: seq<Event>, z: seq<Event>)
    ensures (x + y) + z == x + (y + z)
  {
  }

  /** What holds of the scanner at every moment. */
  predicate ScanOk(s: Scan) {
    |s.captured| <= CAPTURE_MAX && s.cmdStart <= s.pos && s.lastStart <= s.lastEnd <= s.pos
  }

  lemma {:induction false} FedKeepsOk(s: Scan, p: seq<byte>)
    requires ScanOk(s)
    ensures ScanOk(Fed(s, p).0) && Fed(s, p).0.pos == s.pos + |p|
  {
    if p != [] {
      FedKeepsOk(s, p[..|p| - 1]);
    }
  }

  // ── What the marks mean ─────────────────────────────────────────────

  lemma FedThen(s: Scan, p: seq<byte>, b: byte)
    ensures Fed(s, p + [b]).0 == FedByte(Fed(s, p).0, b).0
    ensures Fed(s, p + [b]).1 == Fed(s, p).1 + FedByte(Fed(s, p).0, b).1
  {
    assert (p + [b])[..|p|] == p;
  }

  lemma FedNext(s: Scan, es: seq<Event>, p: seq<byte>, i: nat)
    requires i < |p|
    ensures Fed(s, p[..i + 1]).0 == FedByte(Fed(s, p[..i]).0, p[i]).0
    ensures es + Fed(s, p[..i + 1]).1 == (es + Fed(s, p[..i]).1) + FedByte(Fed(s, p[..i]).0, p[i]).1
  {
    FedThen(s, p[..i], p[i]);
    assert p[..i] + [p[i]] == p[..i + 1];
  }

  /** BEL, or ESC backslash. */
  predicate Terminator(t: seq<byte>) { t == [BEL] || t == [ESC, BACKSLASH] }

  /** ESC ], payload, terminator. */
  function Sequence(payload: seq<byte>, t: seq<byte>): (r: seq<byte>)
    ensures |r| == 2 + |payload| + |t|
  {
    [ESC, OPEN] + payload + t
  }

  lemma FedOpening(s: Scan)
    requires s.osc.Ground?
    ensures Fed(s, [ESC, OPEN]).0 == s.(pos := s.pos + 2, osc := InOsc, captured := [])
    ensures Fed(s, [ESC, OPEN]).1 == []
  {
    FedThen(s, [], ESC);
    assert [] + [ESC] == [ESC];
    FedThen(s, [ESC], OPEN);
    assert [ESC] + [OPEN] == [ESC, OPEN];
  }

  /**
   * What may stand between ESC ] and the terminator: no BEL and no ESC backslash. A lone ESC takes
   * the byte after it along, whatever that is.
   */
  predicate Inside(p: seq<byte>) {
    p == []
    || (if p[0] == ESC then |p| >= 2 && p[1] != BACKSLASH && Inside(p[2..]) else p[0] != BEL && Inside(p[1..]))
  }

  /** The body without its lone ESCs and the bytes they take along. */
  function Kept(p: seq<byte>): (r: seq<byte>)
    ensures |r| <= |p|
  {
    if p == [] then [] else if p[0] == ESC && |p| >= 2 then Kept(p[2..]) else [p[0]] + Kept(p[1..])
  }

  function FirstN(p: seq<byte>, n: nat): seq<byte> { p[..Min(|p|, n)] }

  /** What the scanner holds of an OSC body when it is complete. */
  function Shown(body: seq<byte>): seq<byte> { FirstN(Kept(body), CAPTURE_MAX) }

  /** A body of ordinary bytes is shown as it is, up to the bound. */
  lemma {:induction false} KeptPlain(p: seq<byte>)
    requires ESC !in p && BEL !in p
    ensures Inside(p) && Kept(p) == p
  {
    if p != [] {
      assert p[0] in p;
      KeptPlain(p[1..]);
    }
  }

  lemma FedOne(s: Scan, b: byte)
    ensures Fed(s, [b]).0 == FedByte(s, b).0 && Fed(s, [b]).1 == FedByte(s, b).1
  {
    FedThen(s, [], b);
    assert [] + [b] == [b] && [] + FedByte(s, b).1 == FedByte(s, b).1;
  }

  lemma LoneEsc(s: Scan, x: byte)
    requires s.osc.InOsc? && x != BACKSLASH
    ensures Fed(s, [ESC, x]).0 == s.(pos := s.pos + 2) && Fed(s, [ESC, x]).1 == []
  {
    FedOne(s, ESC);
    FedThen(s, [ESC], x);
    assert [ESC] + [x] == [ESC, x];
  }

  lemma KeepOneMore(c: seq<byte>, b: byte, rest: seq<byte>, n: nat)
    requires |c| <= n
    ensures FirstN(c + ([b] + rest), n) == FirstN((if |c| < n then c + [b] else c) + rest, n)
  {
    if |c| < n {
      assert c + ([b] + rest) == c + [b] + rest;
    } else {
      assert FirstN(c + ([b] + rest), n) == c == FirstN(c + rest, n);
    }
  }

  lemma {:induction false} FedInside(s: Scan, p: seq<byte>)
    requires s.osc.InOsc? && Inside(p) && |s.captured| <= CAPTURE_MAX
    ensures Fed(s, p).0 == s.(pos := s.pos + |p|, captured := FirstN(s.captured + Kept(p), CAPTURE_MAX))
    ensures Fed(s, p).1 == []
    decreases |p|
  {
    if p == [] {
      assert s.captured + [] == s.captured;
    } else if p[0] == ESC {
      var rest := p[2..];
      assert p == [ESC, p[1]] + rest;
      LoneEsc(s, p[1]);
      FedConcat(s, [ESC, p[1]], rest);
      FedInside(s.(pos := s.pos + 2), rest);
    } else {
      var rest := p[1..];
      assert p == [p[0]] + rest;
      FedOne(s, p[0]);
      FedConcat(s, [p[0]], rest);
      FedInside(FedByte(s, p[0]).0, rest);
      KeepOneMore(s.captured, p[0], Kept(rest), CAPTURE_MAX);
    }
  }

  lemma FedOpened(s: Scan, body: seq<byte>)
    requires s.osc.Ground? && Inside(body)
    ensures var p := [ESC, OPEN] + body;
      Fed(s, p).0 == s.(pos := s.pos + 2 + |body|, osc := InOsc, captured := Shown(body)) && Fed(s, p).1 == []
  {
    FedOpening(s);
    FedConcat(s, [ESC, OPEN], body);
    FedInside(s.(pos := s.pos + 2, osc := InOsc, captured := []), body);
    assert [] + Kept(body) == Kept(body);
  }

  lemma FedTerminator(u: Scan, t: seq<byte>)
    requires u.osc.InOsc? && Terminator(t)
    ensures Fed(u, t) == FinishOsc(u.(osc := Ground, pos := u.pos + |t|))
  {
    if t == [BEL] {
      FedLast(u, [], BEL, u, FedByte(u, BEL));
      assert [] + [BEL] == t;
    } else {
      FedSt(u, u.(osc := InOscEsc, pos := u.pos + 1));
    }
  }

  lemma FedSt(u: Scan, v: Scan)
    requires u.osc.InOsc? && v == u.(osc := InOscEsc, pos := u.pos + 1)
    ensures Fed(u, [ESC, BACKSLASH]) == FedByte(v, BACKSLASH)
  {
    FedLast(u, [], ESC, u, (v, []));
    assert [] + [ESC] == [ESC];
    FedLast(u, [ESC], BACKSLASH, v, FedByte(v, BACKSLASH));
    assert [ESC] + [BACKSLASH] == [ESC, BACKSLASH];
  }

  lemma FedLast(s: Scan, p: seq<byte>, b: byte, t: Scan, last: (Scan, seq<Event>))
    requires Fed(s, p) == (t, []) && FedByte(t, b) == last
    ensures Fed(s, p + [b]) == last
  {
    FedThen(s, p, b);
    assert [] + last.1 == last.1;
  }

  /** The scanner when a sequence is complete. */
  function AtTerminator(s: Scan, body: seq<byte>, t: seq<byte>): Scan {
    s.(captured := Shown(body), pos := s.pos + 2 + |body| + |t|)
  }

  lemma FedSequence(s: Scan, body: seq<byte>, t: seq<byte>)
    requires s.osc.Ground? && Inside(body) && Terminator(t)
    ensures Fed(s, Sequence(body, t)).0 == FinishOsc(AtTerminator(s, body, t)).0
    ensures Fed(s, Sequence(body, t)).1 == FinishOsc(AtTerminator(s, body, t)).1
  {
    FedOpened(s, body);
    var u := s.(pos := s.pos + 2 + |body|, osc := InOsc, captured := Shown(body));
    FedConcat(s, [ESC, OPEN] + body, t);
    FedTerminator(u, t);
    assert u.(osc := Ground, pos := u.pos + |t|) == AtTerminator(s, body, t);
  }

  /** The scanner takes this body for "133;" and the letter. */
  predicate MarkOf(body: seq<byte>, letter: byte) {
    Inside(body) && IsMark(Shown(body)) && Shown(body)[4] == letter
  }

  lemma FinishesMark(s: Scan, letter: byte)
    requires IsMark(s.captured) && s.captured[4] == letter && (letter == MARK_C || letter == MARK_D)
    ensures letter == MARK_C ==>
      FinishOsc(s) == (s.(captured := [], cmdStart := s.pos, running := true), [Started(s.pos)])
    ensures letter == MARK_D ==>
      FinishOsc(s) == (s.(captured := [], running := false, lastStart := s.cmdStart, lastEnd := s.pos),
                       [Finished(s.cmdStart, s.pos, ExitCode(s.captured[4..]))])
  {
    assert s.captured[4..][0] == letter;
  }

  lemma StartMark(s: Scan, body: seq<byte>, t: seq<byte>, at: nat)
    requires s.osc.Ground? && MarkOf(body, MARK_C) && Terminator(t) && at == s.pos + 2 + |body| + |t|
    ensures Fed(s, Sequence(body, t)).0 == s.(captured := [], pos := at, cmdStart := at, running := true)
    ensures Fed(s, Sequence(body, t)).1 == [Started(at)]
  {
    FedSequence(s, body, t);
    FinishesMark(AtTerminator(s, body, t), MARK_C);
  }

  lemma FinishMark(s: Scan, body: seq<byte>, t: seq<byte>, end: nat)
    requires s.osc.Ground? && MarkOf(body, MARK_D) && Terminator(t) && end == s.pos + 2 + |body| + |t|
    ensures Fed(s, Sequence(body, t)).0 ==
      s.(captured := [], pos := end, running := false, lastStart := s.cmdStart, lastEnd := end)
    ensures Fed(s, Sequence(body, t)).1 == [Finished(s.cmdStart, end, ExitCode(Shown(body)[4..]))]
  {
    FedSequence(s, body, t);
    FinishesMark(AtTerminator(s, body, t), MARK_D);
  }

  // ── Output in pieces ────────────────────────────────────────────────

  /** A byte in the clear; ESC and one byte; a whole OSC. */
  datatype Piece = Byte(b: byte) | Escape(x: byte) | Osc(body: seq<byte>, t: seq<byte>)

  predicate PieceOk(p: Piece) {
    match p
    case Byte(b) => b != ESC
    case Escape(x) => x != OPEN
    case Osc(body, t) => Inside(body) && Terminator(t)
  }

  function Render(p: Piece): (r: seq<byte>)
    ensures r != []
  {
    match p
    case Byte(b) => [b]
    case Escape(x) => [ESC, x]
    case Osc(body, t) => Sequence(body, t)
  }

  function RenderAll(ps: seq<Piece>): seq<byte> {
    if ps == [] then [] else RenderAll(ps[..|ps| - 1]) + Render(ps[|ps| - 1])
  }

  predicate Mark(p: Piece) { p.Osc? && (MarkOf(p.body, MARK_C) || MarkOf(p.body, MARK_D)) }

  /** Anything but a C or a D mark. */
  predicate Quiet(ps: seq<Piece>) { forall i :: 0 <= i < |ps| ==> PieceOk(ps[i]) && !Mark(ps[i]) }

  /** The bells in the clear: not those that end an OSC or follow an ESC. */
  function Bells(ps: seq<Piece>): nat {
    if ps == [] then 0 else Bells(ps[..|ps| - 1]) + (if ps[|ps| - 1] == Byte(BEL) then 1 else 0)
  }

  function Rung(n: nat): (es: seq<Event>)
    ensures |es| == n && forall i :: 0 <= i < n ==> es[i] == Bell
  {
    if n == 0 then [] else Rung(n - 1) + [Bell]
  }

  lemma FedEscape(s: Scan, x: byte)
    requires s.osc.Ground? && x != OPEN
    ensures Fed(s, [ESC, x]).0 == s.(pos := s.pos + 2) && Fed(s, [ESC, x]).1 == []
  {
    FedOne(s, ESC);
    FedThen(s, [ESC], x);
    assert [ESC] + [x] == [ESC, x];
  }

  /** A piece that is no mark leaves the scanner in the clear; only a bell in the clear is an event. */
  lemma FedPiece(s: Scan, p: Piece)
    requires s.osc.Ground? && s.captured == [] && PieceOk(p) && !Mark(p)
    ensures Fed(s, Render(p)).0 == s.(pos := s.pos + |Render(p)|)
    ensures Fed(s, Render(p)).1 == if p == Byte(BEL) then [Bell] else []
  {
    match p {
      case Byte(b) => FedOne(s, b);
      case Escape(x) => FedEscape(s, x);
      case Osc(body, t) =>
        FedSequence(s, body, t);
        assert IsMark(Shown(body)) ==> Shown(body)[4..][0] == Shown(body)[4];
    }
  }

  /** So for any output without marks: the scanner ends in the clear with nothing captured, and rings once for each bell. */
  lemma {:induction false} FedQuiet(s: Scan, ps: seq<Piece>)
    requires s.osc.Ground? && s.captured == [] && Quiet(ps)
    ensures Fed(s, RenderAll(ps)).0 == s.(pos := s.pos + |RenderAll(ps)|)
    ensures Fed(s, RenderAll(ps)).1 == Rung(Bells(ps))
  {
    if ps != [] {
      var init, p := ps[..|ps| - 1], ps[|ps| - 1];
      FedQuiet(s, init);
      QuietThen(s, RenderAll(init), p, Bells(init), RenderAll(init) + Render(p));
    }
  }

  lemma QuietThen(s: Scan, x: seq<byte>, p: Piece, n: nat, xp: seq<byte>)
    requires s.osc.Ground? && s.captured == [] && PieceOk(p) && !Mark(p) && xp == x + Render(p)
    requires Fed(s, x).0 == s.(pos := s.pos + |x|) && Fed(s, x).1 == Rung(n)
    ensures Fed(s, xp).0 == s.(pos := s.pos + |xp|)
    ensures Fed(s, xp).1 == Rung(if p == Byte(BEL) then n + 1 else n)
  {
    FedConcat(s, x, Render(p));
    FedPiece(s.(pos := s.pos + |x|), p);
    RungOn(n, p == Byte(BEL));
  }

  lemma RungOn(n: nat, rings: bool)
    ensures Rung(n) + (if rings then [Bell] else []) == Rung(if rings then n + 1 else n)
  {
  }

  /** Output that may still become a piece. */
  ghost predicate Unfinished(tail: seq<byte>) {
    || tail == [] || tail == [ESC]
    || exists body :: Inside(body) && (tail == [ESC, OPEN] + body || tail == [ESC, OPEN] + body + [ESC])
  }

  lemma {:induction false} InsideThen(p: seq<byte>, q: seq<byte>)
    requires Inside(p) && Inside(q)
    ensures Inside(p + q)
    decreases |p|
  {
    if p == [] {
      assert p + q == q;
    } else if p[0] == ESC {
      assert (p + q)[2..] == p[2..] + q;
      InsideThen(p[2..], q);
    } else {
      assert (p + q)[1..] == p[1..] + q;
      InsideThen(p[1..], q);
    }
  }

  lemma OnePieceMore(ps: seq<Piece>, tail: seq<byte>, b: byte, p: Piece)
    requires (forall i :: 0 <= i < |ps| ==> PieceOk(ps[i])) && PieceOk(p) && tail + [b] == Render(p)
    ensures forall i :: 0 <= i < |ps + [p]| ==> PieceOk((ps + [p])[i])
    ensures RenderAll(ps) + tail + [b] == RenderAll(ps + [p]) + []
  {
    assert (ps + [p])[..|ps|] == ps;
    assert RenderAll(ps) + tail + [b] == RenderAll(ps) + (tail + [b]);
  }

  lemma SameOutput(ps: seq<Piece>, tail: seq<byte>, b: byte)
    ensures RenderAll(ps) + tail + [b] == RenderAll(ps) + (tail + [b])
  {
  }

  /** One byte more, in the body of an OSC. */
  lemma BodyThen(ps: seq<Piece>, tail: seq<byte>, body: seq<byte>, b: byte) returns (ps': seq<Piece>, tail': seq<byte>)
    requires (forall i :: 0 <= i < |ps| ==> PieceOk(ps[i])) && Inside(body) && tail == [ESC, OPEN] + body
    ensures (forall i :: 0 <= i < |ps'| ==> PieceOk(ps'[i])) && Unfinished(tail')
    ensures RenderAll(ps) + tail + [b] == RenderAll(ps') + tail'
  {
    ps', tail' := ps, tail + [b];
    SameOutput(ps, tail, b);
    if b == BEL {
      OnePieceMore(ps, tail, b, Osc(body, [BEL]));
      ps', tail' := ps + [Osc(body, [BEL])], [];
    } else if b != ESC {
      InsideThen(body, [b]);
      assert tail' == [ESC, OPEN] + (body + [b]);
    }
  }

  /** After an ESC in the body. */
  lemma EscThen(ps: seq<Piece>, tail: seq<byte>, body: seq<byte>, b: byte) returns (ps': seq<Piece>, tail': seq<byte>)
    requires (forall i :: 0 <= i < |ps| ==> PieceOk(ps[i])) && Inside(body) && tail == [ESC, OPEN] + body + [ESC]
    ensures (forall i :: 0 <= i < |ps'| ==> PieceOk(ps'[i])) && Unfinished(tail')
    ensures RenderAll(ps) + tail + [b] == RenderAll(ps') + tail'
  {
    ps', tail' := ps, tail + [b];
    SameOutput(ps, tail, b);
    if b == BACKSLASH {
      var p := Osc(body, [ESC, BACKSLASH]);
      assert tail + [b] == Sequence(body, [ESC, BACKSLASH]);
      OnePieceMore(ps, tail, b, p);
      ps', tail' := ps + [p], [];
    } else {
      InsideThen(body, [ESC, b]);
      assert tail' == [ESC, OPEN] + (body + [ESC, b]);
    }
  }

  /** And every output is pieces, and perhaps the beginning of one. */
  lemma {:induction false} EveryOutput(p: seq<byte>) returns (ps: seq<Piece>, tail: seq<byte>)
    ensures (forall i :: 0 <= i < |ps| ==> PieceOk(ps[i])) && Unfinished(tail) && p == RenderAll(ps) + tail
  {
    if p == [] {
      ps, tail := [], [];
    } else {
      var b := p[|p| - 1];
      ps, tail := EveryOutput(p[..|p| - 1]);
      assert p == RenderAll(ps) + tail + [b];
      if tail == [] && b != ESC {
        OnePieceMore(ps, tail, b, Byte(b));
        ps := ps + [Byte(b)];
      } else if tail == [ESC] && b != OPEN {
        OnePieceMore(ps, tail, b, Escape(b));
        ps, tail := ps + [Escape(b)], [];
      } else if tail == [] {
        tail := [ESC];
      } else if tail == [ESC] {
        assert Inside([]) && [ESC, OPEN] == [ESC, OPEN] + [];
        tail := [ESC, OPEN];
      } else {
        var body :| Inside(body) && (tail == [ESC, OPEN] + body || tail == [ESC, OPEN] + body + [ESC]);
        if tail == [ESC, OPEN] + body {
          ps, tail := BodyThen(ps, tail, body, b);
        } else {
          ps, tail := EscThen(ps, tail, body, b);
        }
      }
    }
  }

  lemma ThreeParts(s: Scan, x: seq<byte>, y: seq<byte>, z: seq<byte>, t: Scan, u: Scan)
    requires Fed(s, x).0 == t && Fed(t, y).0 == u
    ensures Fed(s, x + y + z).0 == Fed(u, z).0
    ensures Fed(s, x + y + z).1 == Fed(s, x).1 + Fed(t, y).1 + Fed(u, z).1
  {
    FedConcat(s, x, y);
    FedConcat(s, x + y, z);
  }

  /**
   * A command run under shell integration: a C mark, any output without marks (text, colours and
   * other escapes, titles, bells), and a D mark, each mark ended either way. Whatever was seen
   * before, the window recorded starts at the output's first byte and ends after the D mark, and
   * between the two events there is one for each bell; by FedConcat, for every chunking.
   */
  lemma CommandWindow(s: Scan, c: seq<byte>, ct: seq<byte>, out: seq<Piece>, d: seq<byte>, dt: seq<byte>,
                      start: nat, end: nat)
    requires s.osc.Ground? && MarkOf(c, MARK_C) && Terminator(ct) && MarkOf(d, MARK_D) && Terminator(dt) && Quiet(out)
    requires start == s.pos + |Sequence(c, ct)| && end == start + |RenderAll(out)| + |Sequence(d, dt)|
    ensures var w := Sequence(c, ct) + RenderAll(out) + Sequence(d, dt);
      && Fed(s, w).0 == Scan(Ground, [], end, start, false, start, end)
      && Fed(s, w).1 == [Started(start)] + Rung(Bells(out)) + [Finished(start, end, ExitCode(Shown(d)[4..]))]
  {
    var started := s.(captured := [], pos := start, cmdStart := start, running := true);
    StartMark(s, c, ct, start);
    FedQuiet(started, out);
    FinishMark(Fed(started, RenderAll(out)).0, d, dt, end);
    ThreeParts(s, Sequence(c, ct), RenderAll(out), Sequence(d, dt), started, Fed(started, RenderAll(out)).0);
  }

  /** The code a D mark carries, with or without fields after it. */
  lemma CodeOf(code: seq<byte>, more: seq<byte>)
    requires SEMI !in code && (more == [] || more[0] == SEMI)
    ensures ExitCode([MARK_D, SEMI] + code + more) == code
  {
    var rest := [MARK_D, SEMI] + code + more;
    assert rest[1..][0] == SEMI;
    assert BeforeSemi(rest) == [MARK_D];
    assert rest[2..] == code + more;
    FirstField(code, more);
  }

  /** And a mark of one field carries none. */
  lemma {:induction false} OneField(s: seq<byte>)
    requires SEMI !in s
    ensures BeforeSemi(s) == s && ExitCode(s) == []
  {
    if s != [] {
      assert s[0] in s;
      OneField(s[1..]);
    }
  }

  /** A plain payload is a mark exactly if it is "133;" and more, and then the byte after that is its letter. */
  lemma PlainMark(payload: seq<byte>, letter: byte)
    requires ESC !in payload && BEL !in payload && |payload| <= CAPTURE_MAX
    ensures Shown(payload) == payload
    ensures MarkOf(payload, letter) <==> OSC_133 + [letter] <= payload
  {
    KeptPlain(payload);
    assert |OSC_133 + [letter]| == 5 && (OSC_133 + [letter])[4] == letter;
    if MarkOf(payload, letter) {
      assert payload[..5] == OSC_133 + [letter];
    }
    if OSC_133 + [letter] <= payload {
      assert forall i :: 0 <= i < 5 ==> payload[i] == (OSC_133 + [letter])[i];
    }
  }

  lemma {:induction false} FirstField(s: seq<byte>, more: seq<byte>)
    requires SEMI !in s && (more == [] || more[0] == SEMI)
    ensures BeforeSemi(s + more) == s
  {
    if s != [] {
      assert s[0] in s && (s + more)[1..] == s[1..] + more;
      FirstField(s[1..], more);
    }
  }

  // ── The last window and the last event ──────────────────────────────

  /** The last command-finished event. */
  function LastFinished(es: seq<Event>): Option<Event> {
    if es == [] then None
    else if es[|es| - 1].Finished? then Some(es[|es| - 1])
    else LastFinished(es[..|es| - 1])
  }

  /** The recorded window is that of the last command-finished event; there is none before the first. */
  ghost predicate WindowOk(s: Scan, es: seq<Event>) {
    if LastFinished(es).None? then s.lastEnd == 0
    else var e := LastFinished(es).value; e.Finished? && s.lastStart == e.start && s.lastEnd == e.end > 0
  }

  lemma ByteKeepsWindow(s: Scan, es: seq<Event>, b: byte)
    requires WindowOk(s, es)
    ensures WindowOk(FedByte(s, b).0, es + FedByte(s, b).1)
  {
    var fs := FedByte(s, b).1;
    if fs == [] {
      assert es + fs == es;
    } else {
      OneMoreEvent(es, fs[0]);
      assert fs == [fs[0]];
    }
  }

  lemma OneMoreEvent(es: seq<Event>, e: Event)
    ensures LastFinished(es + [e]) == if e.Finished? then Some(e) else LastFinished(es)
  {
    assert (es + [e])[..|es|] == es;
  }

  lemma {:induction false} FedKeepsWindow(s: Scan, es: seq<Event>, p: seq<byte>)
    requires WindowOk(s, es)
    ensures WindowOk(Fed(s, p).0, es + Fed(s, p).1)
  {
    if p == [] {
      assert es + [] == es;
    } else {
      FedKeepsWindow(s, es, p[..|p| - 1]);
      FedNext(s, es, p, |p| - 1);
      assert p[..|p| - 1 + 1] == p;
      ByteKeepsWindow(Fed(s, p[..|p| - 1]).0, es + Fed(s, p[..|p| - 1]).1, p[|p| - 1]);
    }
  }

  class Monitor {
    var osc: Osc
    var oscBuf: seq<byte>
    var streamPos: nat
    var cmdStartSeq: nat
    var cmdRunning: bool
    var lastCmdStart: nat
    var lastCmdEnd: nat
    var emitted: seq<Event> // what went to the event bus

    ghost function State(): Scan
      reads this
    {
      Scan(osc, oscBuf, streamPos, cmdStartSeq, cmdRunning, lastCmdStart, lastCmdEnd)
    }

    /** What LastCommand answers goes with what was emitted. */
    ghost predicate Valid()
      reads this
    {
      WindowOk(State(), emitted)
    }

    constructor ()
      ensures State() == Blank && emitted == [] && Valid()
    {
      osc, oscBuf, streamPos, cmdStartSeq, cmdRunning, lastCmdStart, lastCmdEnd := Ground, [], 0, 0, false, 0, 0;
      emitted := [];
    }

    method Feed(p: seq<byte>)
      modifies this
      ensures State() == Fed(old(State()), p).0
      ensures emitted == old(emitted) + Fed(old(State()), p).1
      ensures old(Valid()) ==> Valid()
    {
      ghost var s0, e0 := State(), emitted;
      if Valid() {
        FedKeepsWindow(s0, e0, p);
      }
      var i := 0;
      assert p[..0] == [];
      while i < |p|
        invariant i <= |p| && FedSoFar(s0, e0, p, i)
      {
        FeedAt(p, i, s0, e0);
        i := i + 1;
      }
      assert p[..i] == p;
      streamPos := streamPos + |p|;
    }

    /** Where Feed's loop is after i bytes; streamPos moves only at the end. */
    ghost predicate FedSoFar(s0: Scan, e0: seq<Event>, p: seq<byte>, i: nat)
      reads this
      requires i <= |p|
    {
      && streamPos == s0.pos && State().(pos := streamPos + i) == Fed(s0, p[..i]).0
      && emitted == e0 + Fed(s0, p[..i]).1
    }

    method FeedAt(p: seq<byte>, i: nat, ghost s0: Scan, ghost e0: seq<Event>)
      requires i < |p| && FedSoFar(s0, e0, p, i)
      modifies this
      ensures FedSoFar(s0, e0, p, i + 1)
    {
      FedNext(s0, e0, p, i);
      FeedByte(p[i], streamPos + i + 1, Fed(s0, p[..i]).0);
    }

    /** The switch in Feed's loop; `after` is the position after this byte. */
    method FeedByte(b: byte, after: nat, ghost s: Scan)
      requires after == s.pos + 1 && s == State().(pos := s.pos)
      modifies this
      ensures State().(pos := after) == FedByte(s, b).0 && streamPos == old(streamPos)
      ensures emitted == old(emitted) + FedByte(s, b).1
    {
      match osc {
        case Ground =>
          if b == ESC {
            osc := SawEsc;
          } else if b == BEL {
            emitted := emitted + [Bell];
          }
        case SawEsc =>
          if b == OPEN {
            osc := InOsc;
            oscBuf := [];
          } else {
            osc := Ground;
          }
        case InOsc =>
          if b == BEL {
            osc := Ground;
            Finish(after, s.(osc := Ground, pos := after));
          } else if b == ESC {
            osc := InOscEsc;
          } else if |oscBuf| < CAPTURE_MAX {
            oscBuf := oscBuf + [b];
          }
        case InOscEsc =>
          if b == BACKSLASH {
            osc := Ground;
            Finish(after, s.(osc := Ground, pos := after));
          } else {
            osc := InOsc;
          }
      }
    }

    /** finishOSC. */
    method Finish(endSeq: nat, ghost s: Scan)
      requires s == State().(pos := endSeq)
      modifies this
      ensures State().(pos := s.pos) == FinishOsc(s).0 && streamPos == old(streamPos)
      ensures emitted == old(emitted) + FinishOsc(s).1
    {
      var payload := oscBuf;
      oscBuf := [];
      if IsMark(payload) {
        var rest := payload[4..];
        if rest[0] == MARK_C {
          cmdStartSeq := endSeq;
          cmdRunning := true;
          emitted := emitted + [Started(endSeq)];
        } else if rest[0] == MARK_D {
          var code := ExitCode(rest);
          cmdRunning := false;
          lastCmdStart, lastCmdEnd := cmdStartSeq, endSeq;
          emitted := emitted + [Finished(cmdStartSeq, endSeq, code)];
        }
      }
    }

    /** The window of the last command-finished event, and nothing before the first. */
    method LastCommand() returns (start: nat, end: nat, ok: bool)
      ensures start == State().lastStart && end == State().lastEnd && (ok <==> end != 0)
      ensures Valid() ==> (ok <==> LastFinished(emitted).Some?)
      ensures Valid() && ok ==> var e := LastFinished(emitted).value; e.Finished? && start == e.start && end == e.end
    {
      return lastCmdStart, lastCmdEnd, lastCmdEnd != 0;
    }

    /** SetStreamPos, on adoption. */
    method SetStreamPos(pos: nat)
      modifies this
      ensures State() == old(State()).(pos := pos) && emitted == old(emitted)
      ensures old(Valid()) ==> Valid()
    {
      streamPos := pos;
    }
  }
}
