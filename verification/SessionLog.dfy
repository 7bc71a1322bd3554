/** pkg/host/seslog.go: the durable session log, and the log-then-ring stitch of cmd/runbaypty/tail.go. */
module SessionLog {
  import opened Bytes
  import opened Varint
  import opened RingBuffer
  import P = OutputPump

  const MAGIC: seq<byte> := [0x52, 0x50, 0x54, 0x59] // "RPTY"
  const VERSION := 1

  /** One call of Append: the clock in milliseconds, and the bytes. */
  datatype Call = Call(ms: int, data: seq<byte>)

  datatype Entry = Entry(delta: nat, data: seq<byte>)

  datatype Record = Record(at: int, data: seq<byte>)

  datatype ReadError = MissingHeader | BadMagic | BadVersion | WrongVersion | BadStart

  datatype ReadResult = Records(recs: seq<Record>) | Unreadable(why: ReadError)

  function Header(startMs: int): seq<byte> {
    MAGIC + Uvarint(VERSION) + Uvarint(ToUint64(startMs))
  }

  function EntryBytes(e: Entry): seq<byte> { Uvarint(e.delta) + Uvarint(|e.data|) + e.data }

  function Body(es: seq<Entry>): seq<byte> {
    if es == [] then [] else EntryBytes(es[0]) + Body(es[1..])
  }

  /** The clamped delta, computed in int64, and the new lastMs. */
  function Delta(lastMs: int, ms: int): (nat, int) {
    var d := ToInt64(ms - lastMs);
    if d < 0 then (0, lastMs) else (d, ms)
  }

  function Entries(lastMs: int, calls: seq<Call>): seq<Entry>
    decreases calls
  {
    if calls == [] then []
    else
      var (d, next) := Delta(lastMs, calls[0].ms);
      [Entry(d, calls[0].data)] + Entries(next, calls[1..])
  }

  function LastMs(startMs: int, calls: seq<Call>): int
    decreases calls
  {
    if calls == [] then startMs else LastMs(Delta(startMs, calls[0].ms).1, calls[1..])
  }

  function File(startMs: int, calls: seq<Call>): seq<byte> {
    Header(startMs) + Body(Entries(startMs, calls))
  }

  // ── Reading ─────────────────────────────────────────────────────────

  /** The record loop of ReadSessionLog; anything torn ends it. */
  function ReadRecords(bs: seq<byte>, at: int): seq<Record>
    decreases |bs|
  {
    match ReadUvarint(bs)
    case Torn => []
    case Overflow => []
    case Val(delta, bs1) =>
      match ReadUvarint(bs1)
      case Torn => []
      case Overflow => []
      case Val(plen, bs2) =>
        ReadShrinks(bs, 0);
        ReadShrinks(bs1, 0);
        if |bs2| < plen then []
        else
          var t := ToInt64(at + ToInt64(delta));
          [Record(t, bs2[..plen])] + ReadRecords(bs2[plen..], t)
  }

  lemma ReadShrinks(bs: seq<byte>, i: nat)
    ensures ReadFrom(bs, i).Val? ==> |ReadFrom(bs, i).rest| < |bs|
    decreases |bs|
  {
    if i < 10 && bs != [] {
      ReadShrinks(bs[1..], i + 1);
    }
  }

  /**
   * Every payload length the record loop reaches can be allocated. The loop makes room for a
   * payload before it reads it, so that a longer length ends the program instead of the loop.
   */
  predicate LengthsOk(bs: seq<byte>, maxAlloc: nat)
    decreases |bs|
  {
    match ReadUvarint(bs)
    case Torn => true
    case Overflow => true
    case Val(delta, bs1) =>
      match ReadUvarint(bs1)
      case Torn => true
      case Overflow => true
      case Val(plen, bs2) =>
        ReadShrinks(bs, 0);
        ReadShrinks(bs1, 0);
        plen <= maxAlloc && (|bs2| < plen || LengthsOk(bs2[plen..], maxAlloc))
  }

  function Read(bs: seq<byte>): ReadResult {
    if |bs| < 4 then Unreadable(MissingHeader)
    else if bs[..4] != MAGIC then Unreadable(BadMagic)
    else
      match ReadUvarint(bs[4..])
      case Torn => Unreadable(BadVersion)
      case Overflow => Unreadable(BadVersion)
      case Val(v, bs1) =>
        if v != VERSION then Unreadable(WrongVersion)
        else
          match ReadUvarint(bs1)
          case Torn => Unreadable(BadStart)
          case Overflow => Unreadable(BadStart)
          case Val(s, bs2) => Records(ReadRecords(bs2, ToInt64(s)))
  }

  // ── What should be read ─────────────────────────────────────────────

  /** Clocks whose differences fit an int64. */
  predicate ClockOk(ms: int) { -TWO_63 / 2 <= ms < TWO_63 / 2 }

  predicate CallsOk(calls: seq<Call>) {
    forall i :: 0 <= i < |calls| ==> ClockOk(calls[i].ms) && |calls[i].data| < TWO_64
  }

  /** The latest of the start time and the first k clock values. */
  function RunningMax(startMs: int, calls: seq<Call>, k: nat): int
    requires k <= |calls|
  {
    if k == 0 then startMs else Max(RunningMax(startMs, calls, k - 1), calls[k - 1].ms)
  }

  function Expected(startMs: int, calls: seq<Call>): (r: seq<Record>)
    ensures |r| == |calls|
  {
    seq(|calls|, i requires 0 <= i < |calls| => Record(RunningMax(startMs, calls, i + 1), calls[i].data))
  }

  /** How many whole entries lie within the first n bytes of their encoding. */
  function Complete(es: seq<Entry>, n: nat): (k: nat)
    ensures k <= |es|
  {
    if es == [] || n < |EntryBytes(es[0])| then 0 else 1 + Complete(es[1..], n - |EntryBytes(es[0])|)
  }

  lemma {:induction false} CompleteIsMaximal(es: seq<Entry>, n: nat)
    ensures var k := Complete(es, n);
      && |Body(es[..k])| <= n
      && (k < |es| ==> n < |Body(es[..k + 1])|)
  {
    if es != [] && n >= |EntryBytes(es[0])| {
      var k := Complete(es[1..], n - |EntryBytes(es[0])|);
      CompleteIsMaximal(es[1..], n - |EntryBytes(es[0])|);
      assert es[..k + 1][1..] == es[1..][..k];
      if k + 1 < |es| {
        assert es[..k + 2][1..] == es[1..][..k + 1];
      }
    } else if es != [] {
      assert es[..1] == [es[0]];
      assert Body(es[..1]) == EntryBytes(es[0]) + Body([]);
    }
  }

  predicate EntryOk(e: Entry) { e.delta < TWO_63 && |e.data| < TWO_64 }

  lemma ReadOne(bs: seq<byte>, at: int, e: Entry, bs1: seq<byte>, bs2: seq<byte>, t: int)
    requires ReadUvarint(bs) == Val(e.delta, bs1) && ReadUvarint(bs1) == Val(|e.data|, bs2)
    requires |e.data| <= |bs2| && bs2[..|e.data|] == e.data && t == ToInt64(at + ToInt64(e.delta))
    ensures ReadRecords(bs, at) == [Record(t, e.data)] + ReadRecords(bs2[|e.data|..], t)
  {
    ReadShrinks(bs, 0);
    ReadShrinks(bs1, 0);
  }

  lemma ReadEntry(e: Entry, rest: seq<byte>, at: int, t: int)
    requires EntryOk(e) && t == ToInt64(at + e.delta)
    ensures ReadRecords(EntryBytes(e) + rest, at) == [Record(t, e.data)] + ReadRecords(rest, t)
  {
    var bs := EntryBytes(e) + rest;
    var bs2 := e.data + rest;
    var bs1 := Uvarint(|e.data|) + bs2;
    assert bs == Uvarint(e.delta) + bs1;
    Varint.RoundTrip(e.delta, bs1);
    Varint.RoundTrip(|e.data|, bs2);
    ToInt64OfInt64(e.delta);
    assert bs2[..|e.data|] == e.data && bs2[|e.data|..] == rest;
    ReadOne(bs, at, e, bs1, bs2, t);
  }

  /** No whole entry can be read: a varint is torn, or the payload is. */
  predicate TornEntry(bs: seq<byte>, plen: nat) {
    var delta := ReadUvarint(bs);
    delta.Torn? || (delta.Val? && (var n := ReadUvarint(delta.rest); n.Torn? || (n.Val? && n.n == plen && |n.rest| < plen)))
  }

  lemma EntryTorn(e: Entry, more: seq<byte>, n: nat)
    requires EntryOk(e) && n < |EntryBytes(e)|
    ensures TornEntry((EntryBytes(e) + more)[..n], |e.data|)
  {
    var v, w := Uvarint(e.delta), Uvarint(|e.data|);
    var bs := EntryBytes(e) + more;
    assert bs == v + (w + e.data + more);
    if n < |v| {
      CutIsTorn(e.delta, w + e.data + more, n);
    } else {
      var m := n - |v|;
      assert bs[..n] == v + (w + e.data + more)[..m];
      Varint.RoundTrip(e.delta, (w + e.data + more)[..m]);
      assert w + e.data + more == w + (e.data + more);
      if m < |w| {
        CutIsTorn(|e.data|, e.data + more, m);
      } else {
        assert (w + (e.data + more))[..m] == w + (e.data + more)[..m - |w|];
        Varint.RoundTrip(|e.data|, (e.data + more)[..m - |w|]);
      }
    }
  }

  lemma ReadTornEntry(e: Entry, more: seq<byte>, n: nat, at: int)
    requires EntryOk(e) && n < |EntryBytes(e)|
    ensures ReadRecords((EntryBytes(e) + more)[..n], at) == []
  {
    EntryTorn(e, more, n);
  }

  /** The records a list of entries stands for, when the clock starts at `at`. */
  function RecordsOf(at: int, es: seq<Entry>): (r: seq<Record>)
    ensures |r| == |es|
    decreases es
  {
    if es == [] then []
    else [Record(ToInt64(at + es[0].delta), es[0].data)] + RecordsOf(ToInt64(at + es[0].delta), es[1..])
  }

  /** A log body cut anywhere reads back as exactly its complete records. */
  lemma {:induction false} ReadCut(es: seq<Entry>, n: nat, at: int)
    requires (forall i :: 0 <= i < |es| ==> EntryOk(es[i])) && n <= |Body(es)|
    ensures ReadRecords(Body(es)[..n], at) == RecordsOf(at, es)[..Complete(es, n)]
  {
    if es == [] {
      assert Body(es)[..n] == [];
    } else {
      var e, more := EntryBytes(es[0]), Body(es[1..]);
      if n < |e| {
        ReadTornEntry(es[0], more, n, at);
      } else {
        var t := ToInt64(at + es[0].delta);
        ReadEntry(es[0], more[..n - |e|], at, t);
        ReadCut(es[1..], n - |e|, t);
        CutStep(e, more, n, Record(t, es[0].data), RecordsOf(t, es[1..]), Complete(es[1..], n - |e|));
      }
    }
  }

  lemma CutStep(e: seq<byte>, more: seq<byte>, n: nat, first: Record, r: seq<Record>, k: nat)
    requires |e| <= n <= |e| + |more| && k <= |r|
    ensures (e + more)[..n] == e + more[..n - |e|]
    ensures ([first] + r)[..k + 1] == [first] + r[..k]
  {
  }

  lemma {:induction false} RunningMaxFrom(startMs: int, calls: seq<Call>, k: nat)
    requires 0 < k <= |calls|
    ensures RunningMax(startMs, calls, k) == RunningMax(Max(startMs, calls[0].ms), calls[1..], k - 1)
  {
    if k > 1 {
      RunningMaxFrom(startMs, calls, k - 1);
    }
  }

  lemma DeltaOk(lastMs: int, ms: int)
    requires ClockOk(lastMs) && ClockOk(ms)
    ensures var (d, next) := Delta(lastMs, ms);
      d < TWO_63 && next == Max(lastMs, ms) && ToInt64(lastMs + d) == next
  {
    ToInt64OfInt64(ms - lastMs);
    ToInt64OfInt64(Max(lastMs, ms));
  }

  lemma {:induction false} EntriesStamped(startMs: int, calls: seq<Call>)
    requires ClockOk(startMs) && CallsOk(calls)
    ensures |Entries(startMs, calls)| == |calls|
    ensures forall i :: 0 <= i < |calls| ==> EntryOk(Entries(startMs, calls)[i])
    ensures RecordsOf(startMs, Entries(startMs, calls)) == Expected(startMs, calls)
    decreases calls
  {
    if calls != [] {
      var (d, next) := Delta(startMs, calls[0].ms);
      DeltaOk(startMs, calls[0].ms);
      EntriesStamped(next, calls[1..]);
      ExpectedCons(startMs, calls);
      assert Entries(startMs, calls)[1..] == Entries(next, calls[1..]);
    }
  }

  lemma ExpectedCons(startMs: int, calls: seq<Call>)
    requires calls != []
    ensures var t := Max(startMs, calls[0].ms);
      Expected(startMs, calls) == [Record(t, calls[0].data)] + Expected(t, calls[1..])
  {
    var t := Max(startMs, calls[0].ms);
    var x, y := Expected(startMs, calls), [Record(t, calls[0].data)] + Expected(t, calls[1..]);
    assert RunningMax(startMs, calls, 1) == Max(RunningMax(startMs, calls, 0), calls[0].ms);
    forall i | 0 <= i < |x|
      ensures x[i] == y[i]
    {
      RunningMaxFrom(startMs, calls, i + 1);
    }
  }

  lemma ReadHeader(startMs: int, rest: seq<byte>)
    requires IsInt64(startMs)
    ensures Read(Header(startMs) + rest) == Records(ReadRecords(rest, startMs))
  {
    var s := ToUint64(startMs);
    var bs, bs1 := Header(startMs) + rest, Uvarint(s) + rest;
    assert bs[4..] == Uvarint(VERSION) + bs1;
    Varint.RoundTrip(VERSION, bs1);
    Varint.RoundTrip(s, rest);
    ToInt64OfInt64(startMs);
  }

  /**
   * A log cut at any byte after its header reads back as exactly the records that were complete:
   * the same payloads in order, record i stamped with the latest of the start time and all clock
   * values up to i.
   */
  lemma ReadsBackCut(startMs: int, calls: seq<Call>, n: nat)
    requires ClockOk(startMs) && CallsOk(calls)
    requires |Header(startMs)| <= n <= |File(startMs, calls)|
    ensures var k := Complete(Entries(startMs, calls), n - |Header(startMs)|);
      && k <= |calls|
      && Read(File(startMs, calls)[..n]) == Records(Expected(startMs, calls)[..k])
  {
    var es, m := Entries(startMs, calls), n - |Header(startMs)|;
    EntriesStamped(startMs, calls);
    assert File(startMs, calls)[..n] == Header(startMs) + Body(es)[..m];
    ReadHeader(startMs, Body(es)[..m]);
    ReadCut(es, m, startMs);
  }

  /**
   * The format: the magic, version 1 and the start time as a varint; then per record the delta and the
   * length as varints, and the bytes.
   */
  lemma FileLayout(startMs: int, delta: nat, data: seq<byte>, rest: seq<byte>, at: int)
    requires IsInt64(startMs) && delta < TWO_63 && |data| < TWO_64 && IsInt64(at + delta)
    ensures Read([0x52, 0x50, 0x54, 0x59, 1] + Uvarint(ToUint64(startMs)) + rest) == Records(ReadRecords(rest, startMs))
    ensures ReadRecords(Uvarint(delta) + Uvarint(|data|) + data + rest, at) == [Record(at + delta, data)] + ReadRecords(rest, at + delta)
  {
    assert Header(startMs) + rest == [0x52, 0x50, 0x54, 0x59, 1] + Uvarint(ToUint64(startMs)) + rest;
    ReadHeader(startMs, rest);
    ToInt64OfInt64(at + delta);
    ReadEntry(Entry(delta, data), rest, at, at + delta);
  }

  /** A log cut within its header is not read at all, and says where it was cut. */
  lemma HeaderCut(startMs: int, calls: seq<Call>, n: nat)
    requires n < |Header(startMs)|
    ensures Read(File(startMs, calls)[..n]) ==
      Unreadable(if n < 4 then MissingHeader else if n == 4 then BadVersion else BadStart)
  {
    var s, body := ToUint64(startMs), Body(Entries(startMs, calls));
    assert File(startMs, calls) == MAGIC + (Uvarint(VERSION) + (Uvarint(s) + body));
    if n >= 4 {
      CutAfter(MAGIC, Uvarint(VERSION) + (Uvarint(s) + body), n);
      if n == 4 {
        CutIsTorn(VERSION, Uvarint(s) + body, 0);
      } else {
        CutAfter(Uvarint(VERSION), Uvarint(s) + body, n - 4);
        Varint.RoundTrip(VERSION, (Uvarint(s) + body)[..n - 5]);
        CutIsTorn(s, body, n - 5);
      }
    }
  }

  lemma CutAfter(x: seq<byte>, y: seq<byte>, n: nat)
    requires |x| <= n <= |x| + |y|
    ensures (x + y)[..n] == x + y[..n - |x|] && (x + y)[..n][..|x|] == x && (x + y)[..n][|x|..] == y[..n - |x|]
  {
  }

  /** Nor is a file that begins otherwise, or has another version. */
  lemma OtherFormat(bs: seq<byte>, v: nat, rest: seq<byte>)
    requires v < TWO_64 && v != VERSION
    ensures |bs| >= 4 && !(MAGIC <= bs) ==> Read(bs) == Unreadable(BadMagic)
    ensures Read(MAGIC + Uvarint(v) + rest) == Unreadable(WrongVersion)
  {
    var f := MAGIC + Uvarint(v) + rest;
    assert f[..4] == MAGIC && f[4..] == Uvarint(v) + rest;
    Varint.RoundTrip(v, rest);
  }

  lemma LengthsFrom(bs: seq<byte>, d: nat, bs1: seq<byte>, n: nat, bs2: seq<byte>, maxAlloc: nat)
    requires ReadUvarint(bs) == Val(d, bs1) && ReadUvarint(bs1) == Val(n, bs2)
    ensures LengthsOk(bs, maxAlloc) <==> n <= maxAlloc && (|bs2| < n || LengthsOk(bs2[n..], maxAlloc))
  {
  }

  lemma EntryLengths(e: Entry, rest: seq<byte>, maxAlloc: nat)
    requires EntryOk(e)
    ensures LengthsOk(EntryBytes(e) + rest, maxAlloc) <==> |e.data| <= maxAlloc && LengthsOk(rest, maxAlloc)
  {
    var bs, bs2 := EntryBytes(e) + rest, e.data + rest;
    var bs1 := Uvarint(|e.data|) + bs2;
    assert bs == Uvarint(e.delta) + bs1;
    Varint.RoundTrip(e.delta, bs1);
    Varint.RoundTrip(|e.data|, bs2);
    assert bs2[|e.data|..] == rest;
    LengthsFrom(bs, e.delta, bs1, |e.data|, bs2, maxAlloc);
  }

  lemma TornLengths(e: Entry, more: seq<byte>, n: nat, maxAlloc: nat)
    requires EntryOk(e) && n < |EntryBytes(e)| && |e.data| <= maxAlloc
    ensures LengthsOk((EntryBytes(e) + more)[..n], maxAlloc)
  {
    EntryTorn(e, more, n);
  }

  /** Reading a log that a writer wrote, cut anywhere, never asks for more than its longest payload. */
  lemma {:induction false} CutLengthsOk(es: seq<Entry>, n: nat, maxAlloc: nat)
    requires (forall i :: 0 <= i < |es| ==> EntryOk(es[i]) && |es[i].data| <= maxAlloc) && n <= |Body(es)|
    ensures LengthsOk(Body(es)[..n], maxAlloc)
  {
    if es == [] {
      assert Body(es)[..n] == [];
    } else {
      var e, more := EntryBytes(es[0]), Body(es[1..]);
      if n < |e| {
        TornLengths(es[0], more, n, maxAlloc);
      } else {
        assert (e + more)[..n] == e + more[..n - |e|];
        CutLengthsOk(es[1..], n - |e|, maxAlloc);
        EntryLengths(es[0], more[..n - |e|], maxAlloc);
      }
    }
  }

  /** A length no writer wrote can ask for more than there is. */
  lemma UnallocatableLength(maxAlloc: nat, rest: seq<byte>)
    requires maxAlloc < TWO_63
    ensures !LengthsOk([0] + Uvarint(TWO_63) + rest, maxAlloc)
  {
    var bs: seq<byte>, bs1 := [0] + Uvarint(TWO_63) + rest, Uvarint(TWO_63) + rest;
    assert bs == Uvarint(0) + bs1;
    Varint.RoundTrip(0, bs1);
    Varint.RoundTrip(TWO_63, rest);
    LengthsFrom(bs, 0, bs1, TWO_63, rest, maxAlloc);
  }

  /** Uncut, everything comes back. */
  lemma ReadsBack(startMs: int, calls: seq<Call>)
    requires ClockOk(startMs) && CallsOk(calls)
    ensures Read(File(startMs, calls)) == Records(Expected(startMs, calls))
  {
    var f, es := File(startMs, calls), Entries(startMs, calls);
    EntriesStamped(startMs, calls);
    assert f[..|f|] == f;
    ReadsBackCut(startMs, calls, |f|);
    CompleteWhole(es);
    var x := Expected(startMs, calls);
    assert x[..|x|] == x;
  }

  lemma {:induction false} CompleteWhole(es: seq<Entry>)
    ensures Complete(es, |Body(es)|) == |es|
  {
    if es != [] {
      CompleteWhole(es[1..]);
    }
  }

  // ── The stitch ──────────────────────────────────────────────────────

  function DataOf(recs: seq<Record>): seq<byte> {
    if recs == [] then [] else DataOf(recs[..|recs| - 1]) + recs[|recs| - 1].data
  }

  function CallData(calls: seq<Call>): seq<byte> {
    if calls == [] then [] else CallData(calls[..|calls| - 1]) + calls[|calls| - 1].data
  }

  lemma {:induction false} PrefixData(startMs: int, calls: seq<Call>, k: nat)
    requires k <= |calls|
    ensures DataOf(Expected(startMs, calls)[..k]) == CallData(calls[..k]) <= CallData(calls)
    decreases |calls|
  {
    var x := Expected(startMs, calls);
    if k == |calls| {
      assert x[..k] == x && calls[..k] == calls;
      if k > 0 {
        var init := calls[..k - 1];
        PrefixData(startMs, init, k - 1);
        SameMax(startMs, calls);
        assert Expected(startMs, init)[..k - 1] == x[..k - 1] && init[..k - 1] == init;
      }
    } else {
      var init := calls[..|calls| - 1];
      PrefixData(startMs, init, k);
      SameMax(startMs, calls);
      assert Expected(startMs, init)[..k] == x[..k] && init[..k] == calls[..k];
    }
  }

  lemma SameMax(startMs: int, calls: seq<Call>)
    requires calls != []
    ensures Expected(startMs, calls[..|calls| - 1]) == Expected(startMs, calls)[..|calls| - 1]
  {
    var init := calls[..|calls| - 1];
    forall i | 0 <= i < |init|
      ensures Expected(startMs, init)[i] == Expected(startMs, calls)[i]
    {
      SameMaxAt(startMs, calls, i + 1);
    }
  }

  lemma {:induction false} SameMaxAt(startMs: int, calls: seq<Call>, k: nat)
    requires calls != [] && k < |calls|
    ensures RunningMax(startMs, calls[..|calls| - 1], k) == RunningMax(startMs, calls, k)
  {
    if k > 0 {
      SameMaxAt(startMs, calls, k - 1);
    }
  }

  /**
   * The log of an output stream, cut at any byte after its header, holds a prefix of the stream;
   * printing it and then replaying the ring from where it ends gives the whole stream exactly when
   * the ring still holds that position. (`extra` is output the ring has and the log does not.)
   */
  lemma StitchWholeIffRetained(startMs: int, calls: seq<Call>, extra: seq<byte>, n: nat, v: View, cap: nat)
    requires ClockOk(startMs) && CallsOk(calls)
    requires |Header(startMs)| <= n <= |File(startMs, calls)|
    requires Mirrors(v, cap, CallData(calls) + extra)
    ensures v.Ok()
    ensures var r := Read(File(startMs, calls)[..n]);
      && r.Records?
      && var history, stream := DataOf(r.recs), CallData(calls) + extra;
        && history <= stream
        && (history + ReplayOf(v, |history|).data == stream <==> v.Oldest() <= |history|)
  {
    var stream, k := CallData(calls) + extra, Complete(Entries(startMs, calls), n - |Header(startMs)|);
    ReadsBackCut(startMs, calls, n);
    PrefixData(startMs, calls, k);
    Stitch(CallData(calls[..k]), stream, v, cap);
  }

  lemma Stitch(history: seq<byte>, stream: seq<byte>, v: View, cap: nat)
    requires history <= stream && Mirrors(v, cap, stream)
    ensures v.Ok() && (history + ReplayOf(v, |history|).data == stream <==> v.Oldest() <= |history|)
  {
    MirroredReplay(v, cap, stream, |history|);
    var r := ReplayOf(v, |history|);
    if v.Oldest() <= |history| {
      assert r.data == stream[|history|..];
      assert history + stream[|history|..] == stream;
    } else {
      assert |history + r.data| < |stream|;
    }
  }

  /** And then live: whatever the pump attached there sends, until it announces a skip, continues the history. */
  lemma StitchFollowsOn(cap: nat, stream: seq<byte>, exited: bool, history: seq<byte>, es: seq<P.Event>, s: P.System)
    requires cap > 0 && history <= stream
    requires s == P.Exec(cap, P.Subscribed(cap, stream, exited, |history|), es)
    ensures P.NoGone(s.sent) && (history != [] || |s.stream| <= cap) ==> history + P.Payloads(s.sent) <= s.stream
  {
    P.StreamKept(cap, P.Subscribed(cap, stream, exited, |history|), es);
    P.PumpIsSound(cap, stream, exited, |history|, es);
    if P.NoGone(s.sent) && (history != [] || |s.stream| <= cap) {
      Continues(history, |history|, s.sent, s.stream, Max(0, |s.stream| - cap));
    }
  }

  lemma Continues(history: seq<byte>, since: nat, sent: seq<P.Frame>, stream: seq<byte>, oldest: nat)
    requires history <= stream && since == |history| && P.WellSent(sent, since, stream, oldest)
    requires P.NoGone(sent) && (since > 0 || oldest == 0)
    ensures history + P.Payloads(sent) <= stream
  {
    P.NoSkipMeansContiguous(sent, since, stream, oldest);
    P.JoinSlices(stream, 0, since, P.Cursor(sent, since));
  }

  // ── The objects ─────────────────────────────────────────────────────

  lemma {:induction false} EntriesSnoc(lastMs: int, calls: seq<Call>, c: Call)
    ensures Body(Entries(lastMs, calls + [c])) ==
      Body(Entries(lastMs, calls)) + EntryBytes(Entry(Delta(LastMs(lastMs, calls), c.ms).0, c.data))
    ensures LastMs(lastMs, calls + [c]) == Delta(LastMs(lastMs, calls), c.ms).1
    decreases calls
  {
    if calls == [] {
      var e := Entry(Delta(lastMs, c.ms).0, c.data);
      assert (calls + [c])[1..] == [];
      assert [e][1..] == [];
      assert Body([e]) == EntryBytes(e) + Body([]);
    } else {
      var (d, next) := Delta(lastMs, calls[0].ms);
      EntriesSnoc(next, calls[1..], c);
      assert (calls + [c])[1..] == calls[1..] + [c];
      var e, x, y := Entry(d, calls[0].data), Entries(next, calls[1..]), Entries(next, calls[1..] + [c]);
      assert ([e] + x)[1..] == x && ([e] + y)[1..] == y;
    }
  }

  lemma FileSnoc(startMs: int, calls: seq<Call>, c: Call, d: nat)
    requires d == Delta(LastMs(startMs, calls), c.ms).0
    ensures File(startMs, calls + [c]) == File(startMs, calls) + (Uvarint(d) + Uvarint(|c.data|)) + c.data
    ensures LastMs(startMs, calls + [c]) == Delta(LastMs(startMs, calls), c.ms).1
  {
    EntriesSnoc(startMs, calls, c);
    var head, body := Header(startMs), Body(Entries(startMs, calls));
    assert head + (body + EntryBytes(Entry(d, c.data))) == head + body + (Uvarint(d) + Uvarint(|c.data|)) + c.data;
  }

  class SessionLogWriter {
    var file: seq<byte>
    var lastMs: int
    var closed: bool
    ghost const startMs: int
    ghost var calls: seq<Call>

    ghost predicate Valid()
      reads this
    {
      file == File(startMs, calls) && lastMs == LastMs(startMs, calls)
    }

    constructor (start: int)
      ensures Valid() && startMs == start && calls == [] && !closed
    {
      var head := MAGIC;
      head := head + Uvarint(VERSION);
      head := head + Uvarint(ToUint64(start));
      file, lastMs, closed := head, start, false;
      startMs, calls := start, [];
      assert head + [] == head;
    }

    method Append(ms: int, p: seq<byte>) returns (ok: bool)
      requires Valid()
      modifies this
      ensures Valid() && ok == !old(closed) && closed == old(closed)
      ensures calls == if ok then old(calls) + [Call(ms, p)] else old(calls)
    {
      if closed {
        return false;
      }
      FileSnoc(startMs, calls, Call(ms, p), Delta(lastMs, ms).0);
      var delta := ToInt64(ms - lastMs);
      if delta < 0 {
        delta := 0;
      } else {
        lastMs := ms;
      }
      var rec := Uvarint(delta);
      rec := rec + Uvarint(|p|);
      file := file + rec;
      file := file + p;
      calls := calls + [Call(ms, p)];
      return true;
    }

    method Close()
      requires Valid()
      modifies this
      ensures Valid() && closed && calls == old(calls)
    {
      closed := true;
    }
  }

  /** What one turn of the record loop comes to. */
  datatype Reading = AtEnd | Panics | Took(rec: Record, rest: seq<byte>)

  /** The body of the loop: what makes a payload panics if it cannot, before anything is read into it. */
  method TakeRecord(r: seq<byte>, at: int, maxAlloc: nat) returns (t: Reading)
    ensures t.Panics? ==> !LengthsOk(r, maxAlloc)
    ensures t.AtEnd? ==> LengthsOk(r, maxAlloc) && ReadRecords(r, at) == []
    ensures t.Took? ==> |t.rest| < |r| && ReadRecords(r, at) == [t.rec] + ReadRecords(t.rest, t.rec.at)
    ensures t.Took? ==> (LengthsOk(r, maxAlloc) <==> LengthsOk(t.rest, maxAlloc))
  {
    var delta := ReadUvarint(r);
    if !delta.Val? {
      return AtEnd;
    }
    var plen := ReadUvarint(delta.rest);
    if !plen.Val? {
      return AtEnd;
    }
    LengthsFrom(r, delta.n, delta.rest, plen.n, plen.rest, maxAlloc);
    ReadShrinks(r, 0);
    ReadShrinks(delta.rest, 0);
    if plen.n > maxAlloc {
      return Panics;
    }
    if |plen.rest| < plen.n {
      return AtEnd;
    }
    return Took(Record(ToInt64(at + ToInt64(delta.n)), plen.rest[..plen.n]), plen.rest[plen.n..]);
  }

  lemma OneRecordOn(out: seq<Record>, rec: Record, more: seq<Record>)
    ensures out + ([rec] + more) == (out + [rec]) + more
  {
  }

  /** ReadSessionLog after its header: the record loop. */
  method ReadLoop(bs: seq<byte>, startMs: int, maxAlloc: nat) returns (out: seq<Record>, panicked: bool)
    ensures panicked <==> !LengthsOk(bs, maxAlloc)
    ensures !panicked ==> out == ReadRecords(bs, startMs)
  {
    var r, at := bs, startMs;
    out := [];
    while true
      invariant out + ReadRecords(r, at) == ReadRecords(bs, startMs)
      invariant LengthsOk(r, maxAlloc) <==> LengthsOk(bs, maxAlloc)
      decreases |r|
    {
      var t := TakeRecord(r, at, maxAlloc);
      if !t.Took? {
        return out, t.Panics?;
      }
      OneRecordOn(out, t.rec, ReadRecords(t.rest, t.rec.at));
      out, at, r := out + [t.rec], t.rec.at, t.rest;
    }
  }

  /** The log tier of tail: print every record, and count where the live stream must resume. */
  method PrintHistory(recs: seq<Record>) returns (out: seq<byte>, since: nat)
    ensures out == DataOf(recs) && since == |out|
  {
    out, since := [], 0;
    for i := 0 to |recs|
      invariant out == DataOf(recs[..i]) && since == |out|
    {
      assert recs[..i + 1][..i] == recs[..i];
      out := out + recs[i].data;
      since := since + |recs[i].data|;
    }
    assert recs[..|recs|] == recs;
  }
}
