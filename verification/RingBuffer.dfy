/** pkg/host/ring.go: a circular byte array with an absolute sequence axis. */
module RingBuffer {
  import opened Bytes

  /** What a ring means: the axis position after its newest byte, and the bytes it still holds, oldest first. */
  datatype View = View(end: nat, held: seq<byte>) {
    predicate Ok() { |held| <= end }

    function Oldest(): nat
      requires Ok()
    {
      end - |held|
    }
  }

  const Empty := View(0, [])

  function Written(v: View, cap: nat, p: seq<byte>): View {
    View(v.end + |p|, LastN(v.held + p, cap))
  }

  datatype Replay = Replay(data: seq<byte>, fromSeq: nat, truncated: bool)

  function ReplayOf(v: View, since: nat): Replay
    requires v.Ok()
  {
    if since >= v.end then
      Replay([], since, false)
    else
      var from := Max(since, v.Oldest());
      Replay(v.held[from - v.Oldest()..], from, since < v.Oldest())
  }

  /** v is the ring of capacity cap into which exactly `stream` was written. */
  ghost predicate Mirrors(v: View, cap: nat, stream: seq<byte>) {
    v.end == |stream| && v.held == LastN(stream, cap)
  }

  ghost predicate MirrorsAdopted(v: View, cap: nat, snapshot: (seq<byte>, nat)) {
    v == View(snapshot.1, LastN(snapshot.0, cap)) && |snapshot.0| <= snapshot.1
  }

  function Concat(ws: seq<seq<byte>>): (r: seq<byte>) {
    if ws == [] then [] else Concat(ws[..|ws| - 1]) + ws[|ws| - 1]
  }

  function WrittenAll(v: View, cap: nat, ws: seq<seq<byte>>): View {
    if ws == [] then v else Written(WrittenAll(v, cap, ws[..|ws| - 1]), cap, ws[|ws| - 1])
  }

  lemma WrittenMirrors(v: View, cap: nat, stream: seq<byte>, p: seq<byte>)
    requires Mirrors(v, cap, stream)
    ensures Mirrors(Written(v, cap, p), cap, stream + p)
  {
    var a, b := LastN(v.held + p, cap), LastN(stream + p, cap);
    assert |a| == |b|;
    assert forall i :: 0 <= i < |a| ==> a[i] == b[i];
  }

  /**
   * The circular array refines the plain stream: whatever was written, however it was cut into
   * writes, a replay is exactly the part of the stream from max(since, oldest) on.
   */
  lemma {:induction false} ReplayIsStreamSuffix(cap: nat, ws: seq<seq<byte>>, since: nat)
    ensures var v, stream := WrittenAll(Empty, cap, ws), Concat(ws);
      && Mirrors(v, cap, stream) && v.Ok()
      && var oldest := Max(0, |stream| - cap);
        var r := ReplayOf(v, since);
        && v.Oldest() == oldest
        && r.data == stream[Min(Max(since, oldest), |stream|)..]
        && r.fromSeq == Max(since, oldest)
        && (r.truncated <==> since < oldest && since < |stream|)
  {
    FromEmpty(cap, ws);
    MirroredReplay(WrittenAll(Empty, cap, ws), cap, Concat(ws), since);
  }

  lemma {:induction false} MirrorsAll(v: View, cap: nat, stream: seq<byte>, ws: seq<seq<byte>>)
    requires Mirrors(v, cap, stream)
    ensures Mirrors(WrittenAll(v, cap, ws), cap, stream + Concat(ws))
  {
    if ws == [] {
      assert stream + [] == stream;
    } else {
      var init, p := ws[..|ws| - 1], ws[|ws| - 1];
      MirrorsAll(v, cap, stream, init);
      WrittenMirrors(WrittenAll(v, cap, init), cap, stream + Concat(init), p);
      assert stream + Concat(ws) == stream + Concat(init) + p;
    }
  }

  lemma MirrorsOk(v: View, cap: nat, stream: seq<byte>)
    requires Mirrors(v, cap, stream)
    ensures v.Ok() && v.Oldest() == Max(0, |stream| - cap)
  {
  }

  lemma MirroredReplay(v: View, cap: nat, stream: seq<byte>, since: nat)
    requires Mirrors(v, cap, stream)
    ensures v.Ok() && v.Oldest() == Max(0, |stream| - cap)
    ensures var r := ReplayOf(v, since);
      && r.fromSeq == Max(since, v.Oldest())
      && r.data == stream[Min(r.fromSeq, |stream|)..]
      && (r.truncated <==> since < v.Oldest() && since < |stream|)
  {
    assert since < v.Oldest() ==> since < |stream|;
  }

  lemma AdoptedIsOriginal(cap: nat, v: View, stream: seq<byte>)
    requires Mirrors(v, cap, stream)
    ensures Written(Empty, cap, v.held).(end := v.end) == v
  {
    assert [] + v.held == v.held;
  }

  /**
   * A ring rebuilt from a snapshot answers every later replay exactly as the original stream
   * dictates, after any further writes. (Its array is laid out differently: see FromSnapshot.)
   */
  lemma SnapshotIndistinguishable(cap: nat, before: seq<seq<byte>>, later: seq<seq<byte>>, since: nat,
                                  orig: View, adopted: View, stream: seq<byte>)
    requires orig == WrittenAll(Empty, cap, before) && adopted == Written(Empty, cap, orig.held).(end := orig.end)
    requires stream == Concat(before) + Concat(later)
    ensures var last := WrittenAll(adopted, cap, later);
      && last == WrittenAll(orig, cap, later)
      && last.Ok()
      && ReplayOf(last, since).data == stream[Min(Max(since, Max(0, |stream| - cap)), |stream|)..]
  {
    FromEmpty(cap, before);
    AdoptedIsOriginal(cap, orig, Concat(before));
    LaterReplay(orig, cap, Concat(before), later, stream, since);
  }

  lemma FromEmpty(cap: nat, ws: seq<seq<byte>>)
    ensures Mirrors(WrittenAll(Empty, cap, ws), cap, Concat(ws))
  {
    MirrorsAll(Empty, cap, [], ws);
    assert [] + Concat(ws) == Concat(ws);
  }

  lemma LaterReplay(v: View, cap: nat, was: seq<byte>, later: seq<seq<byte>>, stream: seq<byte>, since: nat)
    requires Mirrors(v, cap, was) && stream == was + Concat(later)
    ensures var last := WrittenAll(v, cap, later);
      last.Ok() && ReplayOf(last, since).data == stream[Min(Max(since, Max(0, |stream| - cap)), |stream|)..]
  {
    MirrorsAll(v, cap, was, later);
    MirroredReplay(WrittenAll(v, cap, later), cap, stream, since);
  }

  /** The array index i places after the oldest of `filled` bytes that end just before index `next`. */
  function IndexIn(cap: nat, filled: nat, next: nat, i: nat): (j: nat)
    requires next < cap && filled <= cap && i < filled
    ensures j < cap
  {
    if next + i < filled then next + i - filled + cap else next + i - filled
  }

  /** The bytes a circular array b holds when `filled` of them end just before index `next`. */
  function HeldIn(b: seq<byte>, filled: nat, next: nat): (r: seq<byte>)
    requires next < |b| && filled <= |b|
    ensures |r| == filled
  {
    seq(filled, i requires 0 <= i < filled => b[IndexIn(|b|, filled, next, i)])
  }

  /** b' is b after p was copied in at index `next`, wrapping round. */
  ghost predicate CopiedIn(b: seq<byte>, next: nat, p: seq<byte>, b': seq<byte>)
    requires next < |b| && |p| < |b|
  {
    && |b'| == |b|
    && (forall j :: 0 <= j < |b| ==>
          b'[j] == (if next <= j < next + |p| then p[j - next]
                    else if j < next + |p| - |b| then p[j - next + |b|]
                    else b[j]))
  }

  lemma CopiedInHolds(b: seq<byte>, filled: nat, next: nat, p: seq<byte>, b': seq<byte>, next': nat)
    requires next < |b| && filled <= |b| && |p| < |b| && CopiedIn(b, next, p, b')
    requires next' == if next + |p| < |b| then next + |p| else next + |p| - |b|
    ensures HeldIn(b', Min(filled + |p|, |b|), next') == LastN(HeldIn(b, filled, next) + p, |b|)
  {
    var filled' := Min(filled + |p|, |b|);
    var x, y := HeldIn(b', filled', next'), LastN(HeldIn(b, filled, next) + p, |b|);
    forall i | 0 <= i < filled'
      ensures x[i] == y[i]
    {
      var k := i + (filled + |p| - filled');
      assert y[i] == (HeldIn(b, filled, next) + p)[k];
      var j := IndexIn(|b|, filled', next', i);
      assert x[i] == b'[j];
      if k < filled {
        assert IndexIn(|b|, filled, next, k) == j;
      }
    }
  }

  lemma HeldSuffix(b: seq<byte>, filled: nat, next: nat, count: nat)
    requires next < |b| && count <= filled <= |b|
    ensures HeldIn(b, filled, next)[filled - count..] ==
      if count <= next then b[next - count..next] else b[|b| + next - count..] + b[..next]
  {
    var x := HeldIn(b, filled, next)[filled - count..];
    var y := if count <= next then b[next - count..next] else b[|b| + next - count..] + b[..next];
    forall i | 0 <= i < count
      ensures x[i] == y[i]
    {
      assert x[i] == b[IndexIn(|b|, filled, next, filled - count + i)];
    }
  }

  lemma HeldWhole(b: seq<byte>)
    requires b != []
    ensures HeldIn(b, |b|, 0) == b
  {
  }

  function NextIndex(next: nat, n: nat, cap: nat): (r: nat)
    requires next < cap && n < cap
    ensures r == if next + n < cap then next + n else next + n - cap
  {
    Divided(next + n, if next + n < cap then 0 else 1, if next + n < cap then next + n else next + n - cap, cap);
    (next + n) % cap
  }

  function StartIndex(next: nat, count: nat, cap: nat): (r: nat)
    requires next < cap && count <= cap
    ensures r == if count <= next then next - count else cap + next - count
  {
    Divided(next - count + cap * 2, if count <= next then 2 else 1,
            if count <= next then next - count else cap + next - count, cap);
    (next - count + cap * 2) % cap
  }

  class Ring {
    const buf: array<byte>
    var end: nat
    var filled: nat
    var next: nat

    ghost predicate Valid()
      reads this, buf
    {
      next < buf.Length && filled <= buf.Length && filled <= end
    }

    ghost function Abs(): (v: View)
      requires Valid()
      reads this, buf
      ensures v.Ok()
    {
      View(end, HeldIn(buf[..], filled, next))
    }

    constructor (capBytes: nat)
      requires capBytes > 0
      ensures Valid() && fresh(buf) && buf.Length == capBytes
      ensures Abs() == Empty
    {
      buf := new byte[capBytes](_ => 0);
      end, filled, next := 0, 0, 0;
    }

    /** NewRingFromSnapshot: the axis continues from the snapshot's end. */
    constructor FromSnapshot(capBytes: nat, data: seq<byte>, endSeq: nat)
      requires capBytes > 0 && |data| <= endSeq
      ensures Valid() && fresh(buf) && buf.Length == capBytes
      ensures MirrorsAdopted(Abs(), capBytes, (data, endSeq))
    {
      buf := new byte[capBytes](_ => 0);
      end, filled, next := 0, 0, 0;
      new;
      Write(data);
      assert [] + data == data;
      end := endSeq;
    }

    /** Go's copy(buf[at:], src) for a source that fits. */
    method CopyAt(at: nat, src: seq<byte>)
      requires at + |src| <= buf.Length
      modifies buf
      ensures buf[..] == old(buf[..at]) + src + old(buf[at + |src|..])
    {
      forall i | 0 <= i < |src| {
        buf[at + i] := src[i];
      }
    }

    /** The two copies of a write that is smaller than the array. */
    method CopyWrapped(p: seq<byte>)
      requires next < buf.Length && |p| < buf.Length
      modifies buf
      ensures CopiedIn(old(buf[..]), next, p, buf[..])
    {
      var n := Min(buf.Length - next, |p|);
      CopyAt(next, p[..n]);
      if n < |p| {
        CopyAt(0, p[n..]);
      }
    }

    /** A write that alone overwrites everything: only its newest bytes stay. */
    method WriteWhole(p: seq<byte>)
      requires Valid() && |p| >= buf.Length
      modifies this, buf
      ensures Valid() && end == old(end) + |p|
      ensures Abs().held == p[|p| - buf.Length..]
    {
      CopyAt(0, p[|p| - buf.Length..]);
      end, next, filled := end + |p|, 0, buf.Length;
      HeldWhole(buf[..]);
    }

    /** A write smaller than the array, wrapping where the array ends. */
    method WritePart(p: seq<byte>)
      requires Valid() && |p| < buf.Length
      modifies this, buf
      ensures Valid() && end == old(end) + |p|
      ensures Abs().held == LastN(old(Abs()).held + p, buf.Length)
    {
      ghost var was := buf[..];
      end := end + |p|;
      CopyWrapped(p);
      CopiedInHolds(was, filled, next, p, buf[..], NextIndex(next, |p|, buf.Length));
      next := NextIndex(next, |p|, buf.Length);
      filled := filled + |p|;
      if filled > buf.Length {
        filled := buf.Length;
      }
    }

    method Write(p: seq<byte>)
      requires Valid()
      modifies this, buf
      ensures Valid()
      ensures Abs() == Written(old(Abs()), buf.Length, p)
    {
      if |p| == 0 {
        assert Abs().held + p == Abs().held;
      } else if |p| >= buf.Length {
        ghost var held := Abs().held;
        WriteWhole(p);
        assert LastN(held + p, buf.Length) == p[|p| - buf.Length..];
      } else {
        WritePart(p);
      }
    }

    method ReplayFrom(since: nat) returns (data: seq<byte>, fromSeq: nat, truncated: bool)
      requires Valid()
      ensures Replay(data, fromSeq, truncated) == ReplayOf(Abs(), since)
    {
      if since >= end {
        return [], since, false;
      }
      var oldest := end - filled;
      fromSeq, truncated := since, false;
      if since < oldest {
        fromSeq := oldest;
        truncated := true;
      }
      data := CopyOut(end - fromSeq);
    }

    /** The newest `count` bytes. */
    method CopyOut(count: nat) returns (data: seq<byte>)
      requires Valid() && count <= filled
      ensures data == Abs().held[filled - count..]
    {
      var cap := buf.Length;
      var start := StartIndex(next, count, cap);
      HeldSuffix(buf[..], filled, next, count);
      data := buf[start..Min(start + count, cap)];
      if |data| < count {
        data := data + buf[..count - |data|];
      }
    }

    method Snapshot() returns (data: seq<byte>, endSeq: nat)
      requires Valid()
      ensures data == Abs().held && endSeq == Abs().end
    {
      var from, t;
      data, from, t := ReplayFrom(end - filled);
      endSeq := end;
    }
  }
}
