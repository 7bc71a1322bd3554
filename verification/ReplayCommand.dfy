/**
 * pkg/daemon/conn.go onReplayCommand, over the ring and the monitor that pkg/host/session.go's
 * read pump keeps on one axis.
 */
module ReplayCommand {
  import opened Bytes
  import opened RingBuffer
  import opened CommandMonitor

  datatype Reply = Reply(startSeq: nat, endSeq: nat, truncated: bool, data: seq<byte>)

  /** The window [start, end) cut out of a replay; lengths are computed in uint64, as the code does. */
  function Cut(r: Replay, end: nat): Reply {
    var e := if end > r.fromSeq + |r.data| then r.fromSeq + |r.data| else end;
    var width := ToUint64(e - r.fromSeq);
    Reply(r.fromSeq, e, r.truncated, if |r.data| > width then r.data[..width] else r.data)
  }

  function LastCommandReply(v: View, m: Scan): Option<Reply>
    requires v.Ok()
  {
    if m.lastEnd == 0 then None else Some(Cut(ReplayOf(v, m.lastStart), m.lastEnd))
  }

  /** The reply shows exactly the part of the window [start, end) that the ring still holds. */
  ghost predicate Coherent(r: Reply, start: nat, end: nat, oldest: nat, stream: seq<byte>) {
    && end <= |stream|
    && r.startSeq == Max(start, oldest) <= r.endSeq == end
    && |r.data| == r.endSeq - r.startSeq
    && r.data == stream[r.startSeq..r.endSeq]
    && (r.truncated <==> start < oldest)
  }

  /**
   * The reply is coherent exactly when the ring still reaches the window's end. Past that, the
   * uint64 length wraps and the reply carries the whole ring under an end that precedes its start.
   */
  lemma ReplyCoherentIffRetained(v: View, cap: nat, stream: seq<byte>, start: nat, end: nat)
    requires Mirrors(v, cap, stream) && |stream| < TWO_64
    requires start <= end <= |stream|
    ensures v.Ok()
    ensures var r := Cut(ReplayOf(v, start), end);
      && (Coherent(r, start, end, v.Oldest(), stream) <==> v.Oldest() <= end)
      && (v.Oldest() > end ==> r.data == v.held && r.endSeq < r.startSeq)
  {
    MirroredReplay(v, cap, stream, start);
    if v.Oldest() <= end {
      RetainedWindow(ReplayOf(v, start), start, end, v.Oldest(), stream);
    } else {
      assert ReplayOf(v, start).data == v.held[0..] == v.held;
      StaleWindow(ReplayOf(v, start), end, stream);
    }
  }

  lemma RetainedWindow(rep: Replay, start: nat, end: nat, oldest: nat, stream: seq<byte>)
    requires start <= end <= |stream| < TWO_64 && oldest <= end && rep.fromSeq == Max(start, oldest)
    requires rep.data == stream[rep.fromSeq..] && (rep.truncated <==> start < oldest)
    ensures Coherent(Cut(rep, end), start, end, oldest, stream)
  {
    ToUint64Small(end - rep.fromSeq);
    assert rep.data[..end - rep.fromSeq] == stream[rep.fromSeq..end];
  }

  lemma StaleWindow(rep: Replay, end: nat, stream: seq<byte>)
    requires end < rep.fromSeq <= |stream| < TWO_64 && |rep.data| == |stream| - rep.fromSeq
    ensures Cut(rep, end) == Reply(rep.fromSeq, end, rep.truncated, rep.data)
  {
    ToUint64Negative(end - rep.fromSeq);
  }

  lemma ToUint64Small(n: int)
    requires 0 <= n < TWO_64
    ensures ToUint64(n) == n
  {
  }

  lemma ToUint64Negative(n: int)
    requires -TWO_64 < n < 0
    ensures ToUint64(n) == n + TWO_64
  {
    assert ToUint64(n) == ToUint64(n + TWO_64);
  }

  /** A ring smaller than the output since the last command: 6 bytes written, 2 kept, window [0, 3). */
  lemma StaleWindowReply()
    ensures var stream: seq<byte> := [1, 2, 3, 4, 5, 6];
      var v := View(6, LastN(stream, 2));
      Cut(ReplayOf(v, 0), 3) == Reply(4, 3, true, [5, 6])
  {
    ToUint64Negative(-1);
    var stream: seq<byte> := [1, 2, 3, 4, 5, 6];
    assert LastN(stream, 2) == [5, 6];
  }

  // ── The read pump's order: ring, then monitor ───────────────────────

  /** `unfed` is a chunk that is in the ring but not yet through the monitor. */
  datatype Live = Live(stream: seq<byte>, ring: View, mon: Scan, unfed: seq<byte>)

  datatype Event = Chunk(p: seq<byte>) | FeedIt | Adopt

  function Step(cap: nat, s: Live, e: Event): Live {
    match e
    case Chunk(p) =>
      if s.unfed != [] then s
      else s.(stream := s.stream + p, ring := Written(s.ring, cap, p), unfed := p)
    case FeedIt => s.(mon := Fed(s.mon, s.unfed).0, unfed := [])
    case Adopt => // the pump is paused: nothing is unfed
      if s.unfed != [] then s
      else s.(ring := Written(Empty, cap, s.ring.held).(end := s.ring.end), mon := Blank.(pos := s.ring.end))
  }

  function Run(cap: nat, es: seq<Event>): Live {
    if es == [] then Live([], Empty, Blank, []) else Step(cap, Run(cap, es[..|es| - 1]), es[|es| - 1])
  }

  ghost predicate LiveOk(cap: nat, s: Live) {
    Mirrors(s.ring, cap, s.stream) && ScanOk(s.mon) && s.mon.pos + |s.unfed| == |s.stream|
  }

  lemma {:induction false} RunOk(cap: nat, es: seq<Event>)
    ensures LiveOk(cap, Run(cap, es))
  {
    if es != [] {
      var s := Run(cap, es[..|es| - 1]);
      RunOk(cap, es[..|es| - 1]);
      match es[|es| - 1] {
        case Chunk(p) => WrittenMirrors(s.ring, cap, s.stream, p);
        case FeedIt => FedKeepsOk(s.mon, s.unfed);
        case Adopt => AdoptedIsOriginal(cap, s.ring, s.stream);
      }
    }
  }

  lemma {:induction false} StreamGrows(cap: nat, es: seq<Event>, more: seq<Event>)
    ensures Run(cap, es).stream <= Run(cap, es + more).stream
  {
    if more == [] {
      assert es + more == es;
    } else {
      assert (es + more)[..|es + more| - 1] == es + more[..|more| - 1];
      StreamGrows(cap, es, more[..|more| - 1]);
    }
  }

  /**
   * Over every run, the recorded window lies within what the monitor has seen, which lies within
   * the ring; and a replay-command request, which reads the window and, after anything more has
   * happened, the ring, is answered coherently exactly if the ring it reads still reaches the
   * window's end.
   */
  lemma EveryReply(cap: nat, es: seq<Event>, more: seq<Event>, m: Scan, later: Live)
    requires m == Run(cap, es).mon && later == Run(cap, es + more)
    ensures later.ring.Ok()
    ensures m.lastStart <= m.lastEnd <= m.pos <= |Run(cap, es).stream| <= later.ring.end == |later.stream|
    ensures |later.stream| < TWO_64 && m.lastEnd != 0 ==>
      && LastCommandReply(later.ring, m).Some?
      && (Coherent(LastCommandReply(later.ring, m).value, m.lastStart, m.lastEnd, later.ring.Oldest(), later.stream)
          <==> later.ring.Oldest() <= m.lastEnd)
  {
    RunOk(cap, es);
    RunOk(cap, es + more);
    StreamGrows(cap, es, more);
    MirrorsOk(later.ring, cap, later.stream);
    if |later.stream| < TWO_64 {
      ReplyCoherentIffRetained(later.ring, cap, later.stream, m.lastStart, m.lastEnd);
    }
  }

  lemma FedPart(cap: nat, s: Live, e: Event, fed: seq<byte>) returns (fed': seq<byte>)
    requires s.stream == fed + s.unfed && s.mon == Fed(Blank, fed).0 && !e.Adopt?
    ensures Step(cap, s, e).stream == fed' + Step(cap, s, e).unfed && Step(cap, s, e).mon == Fed(Blank, fed').0
  {
    match e {
      case Chunk(p) =>
        assert s.unfed == [] ==> s.stream == fed;
        return fed;
      case FeedIt =>
        FedConcat(Blank, fed, s.unfed);
        assert s.stream == s.stream + [];
        return s.stream;
    }
  }

  lemma {:induction false} FedParts(cap: nat, es: seq<Event>) returns (fed: seq<byte>)
    requires forall i :: 0 <= i < |es| ==> !es[i].Adopt?
    ensures Run(cap, es).stream == fed + Run(cap, es).unfed && Run(cap, es).mon == Fed(Blank, fed).0
  {
    if es == [] {
      fed := [];
    } else {
      fed := FedParts(cap, es[..|es| - 1]);
      fed := FedPart(cap, Run(cap, es[..|es| - 1]), es[|es| - 1], fed);
    }
  }

  /** Without adoption, the marks are a function of the output alone, not of its chunks. */
  lemma MarksDependOnStreamOnly(cap: nat, es: seq<Event>)
    requires forall i :: 0 <= i < |es| ==> !es[i].Adopt?
    ensures var s := Run(cap, es);
      s.mon.pos <= |s.stream| && s.mon == Fed(Blank, s.stream[..s.mon.pos]).0
  {
    var fed := FedParts(cap, es);
    FedKeepsOk(Blank, fed);
    assert Run(cap, es).stream[..|fed|] == fed;
  }

  /** And there is no reply exactly while no command has finished in what the monitor has seen. */
  lemma NoReplyBeforeFirst(cap: nat, es: seq<Event>)
    requires forall i :: 0 <= i < |es| ==> !es[i].Adopt?
    ensures var s := Run(cap, es);
      && s.ring.Ok() && s.mon.pos <= |s.stream|
      && (LastCommandReply(s.ring, s.mon).None? <==> LastFinished(Fed(Blank, s.stream[..s.mon.pos]).1).None?)
  {
    var s := Run(cap, es);
    RunOk(cap, es);
    MirrorsOk(s.ring, cap, s.stream);
    MarksDependOnStreamOnly(cap, es);
    var fed := s.stream[..s.mon.pos];
    FedKeepsWindow(Blank, [], fed);
    assert [] + Fed(Blank, fed).1 == Fed(Blank, fed).1;
  }

  /** onReplayCommand after its lookups. */
  method OnReplayCommand(ring: Ring, mon: Monitor) returns (r: Option<Reply>)
    requires ring.Valid()
    ensures r == LastCommandReply(ring.Abs(), mon.State())
    ensures mon.Valid() ==> (r.None? <==> LastFinished(mon.emitted).None?)
  {
    var start, end, ok := mon.LastCommand();
    if !ok {
      return None;
    }
    var data, fromSeq, truncated := ring.ReplayFrom(start);
    if end > fromSeq + |data| {
      end := fromSeq + |data|;
    }
    if |data| > ToUint64(end - fromSeq) {
      data := data[..ToUint64(end - fromSeq)];
    }
    return Some(Reply(fromSeq, end, truncated, data));
  }
}
