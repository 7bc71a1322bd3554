/**
 * pkg/daemon/watch.go runWatch for a literal pattern: chunks joined through a bounded overlap
 * tail. regexp's FindAllIndex is leftmost non-overlapping search.
 */
module Watch {
  import opened Bytes
  import opened RingBuffer

  const OVERLAP := 1024 // watchOverlapBytes
  const MATCH_CAP := 256 // watchMatchCap

  type Pattern = p: seq<byte> | p != [] witness [0]

  datatype WatchEvent = WatchEvent(at: nat, text: seq<byte>)

  predicate OccursAt(pat: Pattern, text: seq<byte>, i: nat) {
    i + |pat| <= |text| && text[i..i + |pat|] == pat
  }

  /** FindAllIndex for a literal, from index i on: each match starts at or after the last one's end. */
  function FindAll(pat: Pattern, text: seq<byte>, i: nat): (locs: seq<nat>)
    ensures forall k :: 0 <= k < |locs| ==> i <= locs[k] && locs[k] + |pat| <= |text|
    decreases |text| - i
  {
    if i + |pat| > |text| then []
    else if OccursAt(pat, text, i) then [i] + FindAll(pat, text, i + |pat|)
    else FindAll(pat, text, i + 1)
  }

  /** The scan of one buffer: matches that end in the part already seen fired in an earlier scan. */
  function Report(pat: Pattern, buf: seq<byte>, locs: seq<nat>, bufStart: nat, lastSeen: nat): seq<WatchEvent>
    requires forall k :: 0 <= k < |locs| ==> locs[k] + |pat| <= |buf|
  {
    if locs == [] then []
    else
      var rest := Report(pat, buf, locs[1..], bufStart, lastSeen);
      if locs[0] + |pat| + bufStart <= lastSeen then rest
      else [WatchEvent(bufStart + locs[0], Capped(buf[locs[0]..locs[0] + |pat|]))] + rest
  }

  function Capped(m: seq<byte>): seq<byte> { m[..Min(|m|, MATCH_CAP)] }

  datatype Scanner = Scanner(lastSeen: nat, tail: seq<byte>, tailStart: nat, events: seq<WatchEvent>)

  function Registered(at: nat): Scanner { Scanner(at, [], at, []) }

  /** One pass of the loop, on what ReplayFrom(lastSeen) returned. */
  function ScannedFrom(pat: Pattern, w: Scanner, data: seq<byte>, fromSeq: nat): Scanner {
    if data == [] then w
    else
      var buf := w.tail + data;
      var keep := Min(|buf|, OVERLAP);
      var seen := fromSeq + |data|;
      Scanner(seen, buf[|buf| - keep..], Max(0, seen - keep),
              w.events + Report(pat, buf, FindAll(pat, buf, 0), w.tailStart, w.lastSeen))
  }

  /** A pass whose replay is not truncated. */
  function Scanned(pat: Pattern, w: Scanner, data: seq<byte>): Scanner {
    ScannedFrom(pat, w, data, w.lastSeen)
  }

  function ScannedAll(pat: Pattern, at: nat, chunks: seq<seq<byte>>): Scanner {
    if chunks == [] then Registered(at)
    else Scanned(pat, ScannedAll(pat, at, chunks[..|chunks| - 1]), chunks[|chunks| - 1])
  }

  // ── What should be reported ─────────────────────────────────────────

  /** Every start in [a, b) at which the pattern occurs, in order. */
  function Occurrences(pat: Pattern, text: seq<byte>, a: nat, b: nat): (locs: seq<nat>)
    ensures forall k :: 0 <= k < |locs| ==> a <= locs[k] < b && OccursAt(pat, text, locs[k])
    decreases b - a
  {
    if a >= b then []
    else (if OccursAt(pat, text, a) then [a] else []) + Occurrences(pat, text, a + 1, b)
  }

  /** How many starts leave room for the pattern. */
  function Starts(pat: Pattern, text: seq<byte>): nat { Max(0, |text| + 1 - |pat|) }

  function Events(pat: Pattern, locs: seq<nat>, at: nat): seq<WatchEvent> {
    seq(|locs|, i requires 0 <= i < |locs| => WatchEvent(at + locs[i], Capped(pat)))
  }

  function Expected(pat: Pattern, at: nat, text: seq<byte>): seq<WatchEvent> {
    Events(pat, Occurrences(pat, text, 0, Starts(pat, text)), at)
  }

  lemma {:induction false} OccurrencesAll(pat: Pattern, text: seq<byte>, a: nat, b: nat, i: nat)
    requires a <= i < b && OccursAt(pat, text, i)
    ensures i in Occurrences(pat, text, a, b)
    decreases b - a
  {
    if i > a {
      OccurrencesAll(pat, text, a + 1, b, i);
    }
  }

  lemma OccurrencesOccur(pat: Pattern, text: seq<byte>, a: nat, b: nat, locs: seq<nat>)
    requires locs == Occurrences(pat, text, a, b)
    ensures forall k :: 0 <= k < |locs| ==> a <= locs[k] < b
    ensures forall k :: 0 <= k < |locs| ==> OccursAt(pat, text, locs[k])
  {
  }

  lemma {:induction false} OccurrencesInOrder(pat: Pattern, text: seq<byte>, a: nat, b: nat)
    ensures var locs := Occurrences(pat, text, a, b);
      forall j, k :: 0 <= j < k < |locs| ==> locs[j] < locs[k]
    decreases b - a
  {
    if a < b {
      OccurrencesInOrder(pat, text, a + 1, b);
      OccurrencesOccur(pat, text, a + 1, b, Occurrences(pat, text, a + 1, b));
      InOrderCons(a, Occurrences(pat, text, a + 1, b));
      assert [] + Occurrences(pat, text, a + 1, b) == Occurrences(pat, text, a + 1, b);
    }
  }

  lemma InOrderCons(a: nat, rest: seq<nat>)
    requires (forall j, k :: 0 <= j < k < |rest| ==> rest[j] < rest[k]) && forall k :: 0 <= k < |rest| ==> a < rest[k]
    ensures forall j, k :: 0 <= j < k < |[a] + rest| ==> ([a] + rest)[j] < ([a] + rest)[k]
  {
  }

  /** An occurrence, at its position, with the output's own bytes there, but no more of them than the cap. */
  predicate TrueEvent(pat: Pattern, at: nat, text: seq<byte>, e: WatchEvent) {
    at <= e.at && OccursAt(pat, text, e.at - at) && e.text == text[e.at - at..e.at - at + Min(|pat|, MATCH_CAP)]
  }

  ghost predicate ReportedAt(es: seq<WatchEvent>, p: nat) { exists k :: 0 <= k < |es| && es[k].at == p }

  /** What is expected is one such event for every occurrence, in order, and no other. */
  lemma ExpectedMeans(pat: Pattern, at: nat, text: seq<byte>)
    ensures var es := Expected(pat, at, text);
      && (forall k :: 0 <= k < |es| ==> TrueEvent(pat, at, text, es[k]))
      && (forall i :: 0 <= i < Starts(pat, text) && OccursAt(pat, text, i) ==> ReportedAt(es, at + i))
      && (forall j, k :: 0 <= j < k < |es| ==> es[j].at < es[k].at)
  {
    var n := Starts(pat, text);
    OccurrencesInOrder(pat, text, 0, n);
    OccurrencesOccur(pat, text, 0, n, Occurrences(pat, text, 0, n));
    EventsTrue(pat, at, text, Occurrences(pat, text, 0, n));
    forall i | 0 <= i < n && OccursAt(pat, text, i)
      ensures ReportedAt(Expected(pat, at, text), at + i)
    {
      OccurrencesAll(pat, text, 0, n, i);
      Listed(pat, Occurrences(pat, text, 0, n), at, i);
    }
  }

  lemma EventsTrue(pat: Pattern, at: nat, text: seq<byte>, locs: seq<nat>)
    requires forall k :: 0 <= k < |locs| ==> OccursAt(pat, text, locs[k])
    requires forall j, k :: 0 <= j < k < |locs| ==> locs[j] < locs[k]
    ensures var es := Events(pat, locs, at);
      && (forall k :: 0 <= k < |es| ==> TrueEvent(pat, at, text, es[k]))
      && (forall j, k :: 0 <= j < k < |es| ==> es[j].at < es[k].at)
  {
    forall k | 0 <= k < |locs|
      ensures TrueEvent(pat, at, text, WatchEvent(at + locs[k], Capped(pat)))
    {
      CappedThere(pat, text, locs[k]);
    }
  }

  lemma Listed(pat: Pattern, locs: seq<nat>, at: nat, i: nat)
    requires i in locs
    ensures ReportedAt(Events(pat, locs, at), at + i)
  {
    var k :| 0 <= k < |locs| && locs[k] == i;
    assert Events(pat, locs, at)[k].at == at + i;
  }

  lemma CappedThere(pat: Pattern, text: seq<byte>, i: nat)
    requires OccursAt(pat, text, i)
    ensures Capped(pat) == text[i..i + Min(|pat|, MATCH_CAP)]
  {
    var m := Min(|pat|, MATCH_CAP);
    SliceOfSlice(text, i, i + |pat|, 0, m);
    assert pat[0..m] == pat[..m];
  }

  /** One of these matches, of a pattern of n bytes, begins before j and reaches beyond it. */
  ghost predicate Covers(locs: seq<nat>, j: nat, n: nat) { exists l :: l in locs && l < j < l + n }

  lemma CoversCons(i: nat, rest: seq<nat>, j: nat, n: nat)
    ensures Covers([i] + rest, j, n) <==> i < j < i + n || Covers(rest, j, n)
    ensures j in [i] + rest <==> j == i || j in rest
  {
    var locs := [i] + rest;
    assert forall l :: l in locs <==> l == i || l in rest;
    if i < j < i + n {
      assert i in locs;
    }
    if Covers(rest, j, n) {
      var l :| l in rest && l < j < l + n;
      assert l in locs;
    }
  }

  /** Leftmost and non-overlapping: an occurrence is passed over exactly if it overlaps an earlier match. */
  lemma {:induction false} FindAllIsLeftmost(pat: Pattern, text: seq<byte>, i: nat, j: nat)
    requires i <= j && OccursAt(pat, text, j)
    ensures j !in FindAll(pat, text, i) <==> Covers(FindAll(pat, text, i), j, |pat|)
    decreases |text| - i
  {
    if OccursAt(pat, text, i) {
      var rest := FindAll(pat, text, i + |pat|);
      if j >= i + |pat| {
        FindAllIsLeftmost(pat, text, i + |pat|, j);
      }
      LeftmostCons(i, rest, FindAll(pat, text, i), j, |pat|);
    } else {
      FindAllIsLeftmost(pat, text, i + 1, j);
    }
  }

  lemma LeftmostCons(i: nat, rest: seq<nat>, locs: seq<nat>, j: nat, n: nat)
    requires locs == [i] + rest && i <= j && forall k :: 0 <= k < |rest| ==> i + n <= rest[k]
    requires j >= i + n ==> (j !in rest <==> Covers(rest, j, n))
    ensures j !in locs <==> Covers(locs, j, n)
  {
    CoversCons(i, rest, j, n);
  }

  /** No proper prefix of the pattern is also a suffix, so occurrences cannot overlap. */
  ghost predicate BorderFree(pat: Pattern) {
    forall k :: 0 < k < |pat| ==> pat[k..] != pat[..|pat| - k]
  }

  lemma NoOverlap(pat: Pattern, text: seq<byte>, i: nat, j: nat)
    requires BorderFree(pat) && OccursAt(pat, text, i) && i < j < i + |pat|
    ensures !OccursAt(pat, text, j)
  {
    var k := j - i;
    assert pat[k..] == text[j..i + |pat|];
    if j + |pat| <= |text| {
      assert text[j..j + |pat|][..|pat| - k] == text[j..i + |pat|];
    }
  }

  lemma {:induction false} NoneWithin(pat: Pattern, text: seq<byte>, i: nat, a: nat, b: nat)
    requires BorderFree(pat) && OccursAt(pat, text, i) && i < a <= i + |pat| <= b
    ensures Occurrences(pat, text, a, b) == Occurrences(pat, text, i + |pat|, b)
    decreases b - a
  {
    if a < i + |pat| {
      NoOverlap(pat, text, i, a);
      NoneWithin(pat, text, i, a + 1, b);
      assert [] + Occurrences(pat, text, a + 1, b) == Occurrences(pat, text, a + 1, b);
    }
  }

  lemma {:induction false} NoneBeyond(pat: Pattern, text: seq<byte>, a: nat, b: nat)
    requires a >= Starts(pat, text)
    ensures Occurrences(pat, text, a, b) == []
    decreases b - a
  {
    if a < b {
      NoneBeyond(pat, text, a + 1, b);
    }
  }

  lemma {:induction false} FindAllIsAll(pat: Pattern, text: seq<byte>, i: nat)
    requires BorderFree(pat)
    ensures FindAll(pat, text, i) == Occurrences(pat, text, i, Starts(pat, text))
    decreases |text| - i
  {
    var n := Starts(pat, text);
    if i + |pat| > |text| {
      NoneBeyond(pat, text, i, n);
    } else if OccursAt(pat, text, i) {
      FindAllIsAll(pat, text, i + |pat|);
      if i + |pat| <= n {
        NoneWithin(pat, text, i, i + 1, n);
      } else {
        NoneLeft(pat, text, i, i + 1, n);
        NoneBeyond(pat, text, i + |pat|, n);
      }
    } else {
      FindAllIsAll(pat, text, i + 1);
      assert [] + Occurrences(pat, text, i + 1, n) == Occurrences(pat, text, i + 1, n);
    }
  }

  lemma {:induction false} NoneLeft(pat: Pattern, text: seq<byte>, i: nat, a: nat, b: nat)
    requires BorderFree(pat) && OccursAt(pat, text, i) && i < a && b <= i + |pat|
    ensures Occurrences(pat, text, a, b) == []
    decreases b - a
  {
    if a < b {
      NoOverlap(pat, text, i, a);
      NoneLeft(pat, text, i, a + 1, b);
    }
  }

  lemma {:induction false} Split(pat: Pattern, text: seq<byte>, a: nat, m: nat, b: nat)
    requires a <= m <= b
    ensures Occurrences(pat, text, a, b) == Occurrences(pat, text, a, m) + Occurrences(pat, text, m, b)
    decreases m - a
  {
    var y := Occurrences(pat, text, m, b);
    if a < m {
      Split(pat, text, a + 1, m, b);
      Regroup(if OccursAt(pat, text, a) then [a] else [], Occurrences(pat, text, a + 1, m), y);
    } else {
      assert [] + y == y;
    }
  }

  lemma Regroup(x: seq<nat>, y: seq<nat>, z: seq<nat>)
    ensures x + (y + z) == (x + y) + z
  {
  }

  lemma OccursShifted(pat: Pattern, text: seq<byte>, whole: seq<byte>, off: nat, a: nat)
    requires off + |text| <= |whole| && text == whole[off..off + |text|] && a + |pat| <= |text|
    ensures OccursAt(pat, text, a) <==> OccursAt(pat, whole, off + a)
  {
    SliceOfSlice(whole, off, off + |text|, a, a + |pat|);
  }

  /** The same occurrences seen through a longer text, from which `off` bytes were cut in front. */
  lemma {:induction false} Shifted(pat: Pattern, text: seq<byte>, whole: seq<byte>, off: nat, a: nat, b: nat,
                                   a': nat, b': nat, at: nat, start: nat)
    requires off + |text| <= |whole| && text == whole[off..off + |text|]
    requires b <= Starts(pat, text) && a' == off + a && b' == off + b && start == at + off
    ensures Events(pat, Occurrences(pat, text, a, b), start) == Events(pat, Occurrences(pat, whole, a', b'), at)
    decreases b - a
  {
    if a < b {
      Shifted(pat, text, whole, off, a + 1, b, a' + 1, b', at, start);
      OccursShifted(pat, text, whole, off, a);
      OneMore(pat, text, a, b, start);
      OneMore(pat, whole, a', b', at);
    }
  }

  lemma OneMore(pat: Pattern, text: seq<byte>, a: nat, b: nat, at: nat)
    requires a < b
    ensures Events(pat, Occurrences(pat, text, a, b), at) ==
      (if OccursAt(pat, text, a) then [WatchEvent(at + a, Capped(pat))] else [])
      + Events(pat, Occurrences(pat, text, a + 1, b), at)
  {
    EventsCons(pat, OccursAt(pat, text, a), a, Occurrences(pat, text, a + 1, b), at);
  }

  lemma EventsCons(pat: Pattern, occurs: bool, a: nat, rest: seq<nat>, at: nat)
    ensures Events(pat, (if occurs then [a] else []) + rest, at) ==
      (if occurs then [WatchEvent(at + a, Capped(pat))] else []) + Events(pat, rest, at)
  {
  }

  lemma EventsConcat(pat: Pattern, x: seq<nat>, y: seq<nat>, at: nat)
    ensures Events(pat, x + y, at) == Events(pat, x, at) + Events(pat, y, at)
  {
  }

  lemma ReportCons(pat: Pattern, buf: seq<byte>, a: nat, rest: seq<nat>, bufStart: nat, lastSeen: nat)
    requires OccursAt(pat, buf, a) && forall k :: 0 <= k < |rest| ==> rest[k] + |pat| <= |buf|
    ensures Report(pat, buf, [a] + rest, bufStart, lastSeen) ==
      (if a + |pat| + bufStart <= lastSeen then [] else [WatchEvent(bufStart + a, Capped(pat))])
      + Report(pat, buf, rest, bufStart, lastSeen)
  {
    assert ([a] + rest)[1..] == rest;
    var r := Report(pat, buf, rest, bufStart, lastSeen);
    assert [] + r == r;
  }

  /** Filtering out the matches that end within the first `seen` bytes leaves the later starts. */
  lemma {:induction false} Reported(pat: Pattern, buf: seq<byte>, a: nat, b: nat, bufStart: nat, seen: nat, lastSeen: nat)
    requires lastSeen == bufStart + seen
    ensures Report(pat, buf, Occurrences(pat, buf, a, b), bufStart, lastSeen) ==
      Events(pat, Occurrences(pat, buf, Max(a, seen + 1 - |pat|), b), bufStart)
    decreases b - a
  {
    if a < b {
      var rest := Occurrences(pat, buf, a + 1, b);
      Reported(pat, buf, a + 1, b, bufStart, seen, lastSeen);
      if OccursAt(pat, buf, a) {
        ReportCons(pat, buf, a, rest, bufStart, lastSeen);
        EventsCons(pat, true, a, rest, bufStart);
      } else {
        assert [] + rest == rest;
      }
      if a + |pat| <= seen {
        assert Max(a, seen + 1 - |pat|) == Max(a + 1, seen + 1 - |pat|);
      }
    } else if Max(a, seen + 1 - |pat|) < b {
      assert false;
    }
  }

  /** The scanner after `text` has been output since registration at `at`. */
  ghost predicate ScannerOk(pat: Pattern, at: nat, text: seq<byte>, w: Scanner) {
    && w.lastSeen == at + |text|
    && |w.tail| == Min(|text|, OVERLAP) && w.tail == text[|text| - |w.tail|..]
    && w.tailStart == w.lastSeen - |w.tail|
    && w.events == Expected(pat, at, text)
  }

  lemma ScannedOk(pat: Pattern, at: nat, text: seq<byte>, w: Scanner, data: seq<byte>)
    requires BorderFree(pat) && |pat| <= OVERLAP + 1 && ScannerOk(pat, at, text, w)
    ensures ScannerOk(pat, at, text + data, Scanned(pat, w, data))
  {
    if data == [] {
      assert text + data == text;
    } else {
      FindAllIsAll(pat, w.tail + data, 0);
      NewReport(pat, at, text, w, data, FindAll(pat, w.tail + data, 0));
      NewTail(text, w.tail, data);
    }
  }

  lemma NewTail(text: seq<byte>, tail: seq<byte>, data: seq<byte>)
    requires |tail| == Min(|text|, OVERLAP) && tail == text[|text| - |tail|..]
    ensures var buf, whole := tail + data, text + data;
      var keep := Min(|buf|, OVERLAP);
      keep == Min(|whole|, OVERLAP) && buf[|buf| - keep..] == whole[|whole| - keep..]
      && buf == whole[|whole| - |buf|..|whole|]
  {
  }

  lemma NewReport(pat: Pattern, at: nat, text: seq<byte>, w: Scanner, data: seq<byte>, locs: seq<nat>)
    requires |pat| <= OVERLAP + 1 && ScannerOk(pat, at, text, w)
    requires locs == Occurrences(pat, w.tail + data, 0, Starts(pat, w.tail + data))
    ensures Expected(pat, at, text + data) == w.events + Report(pat, w.tail + data, locs, w.tailStart, w.lastSeen)
  {
    var buf, off := w.tail + data, |text| - |w.tail|;
    NewTail(text, w.tail, data);
    Reported(pat, buf, 0, Starts(pat, buf), w.tailStart, |w.tail|, w.lastSeen);
    NewOnes(pat, at, text, data, buf, off, Max(0, |w.tail| + 1 - |pat|), w.tailStart);
  }

  /** What the longer output adds are the occurrences in buf that end in the new part. */
  lemma NewOnes(pat: Pattern, at: nat, text: seq<byte>, data: seq<byte>, buf: seq<byte>, off: nat, from: nat, bufStart: nat)
    requires bufStart == at + off && off + |buf| == |text + data| && buf == (text + data)[off..off + |buf|]
    requires off + from == Starts(pat, text) && off + Starts(pat, buf) == Starts(pat, text + data)
    ensures Expected(pat, at, text + data) ==
      Expected(pat, at, text) + Events(pat, Occurrences(pat, buf, from, Starts(pat, buf)), bufStart)
  {
    var whole, a, b := text + data, Starts(pat, text), Starts(pat, text + data);
    Shifted(pat, buf, whole, off, from, Starts(pat, buf), a, b, at, bufStart);
    assert text == whole[0..0 + |text|];
    Shifted(pat, text, whole, 0, 0, a, 0, a, at, at);
    SplitEvents(pat, whole, a, b, at);
  }

  lemma SplitEvents(pat: Pattern, whole: seq<byte>, a: nat, b: nat, at: nat)
    requires a <= b
    ensures Events(pat, Occurrences(pat, whole, 0, b), at) ==
      Events(pat, Occurrences(pat, whole, 0, a), at) + Events(pat, Occurrences(pat, whole, a, b), at)
  {
    Split(pat, whole, 0, a, b);
    EventsConcat(pat, Occurrences(pat, whole, 0, a), Occurrences(pat, whole, a, b), at);
  }

  lemma {:induction false} ScannedAllOk(pat: Pattern, at: nat, chunks: seq<seq<byte>>)
    requires BorderFree(pat) && |pat| <= OVERLAP + 1
    ensures ScannerOk(pat, at, Concat(chunks), ScannedAll(pat, at, chunks))
  {
    if chunks != [] {
      ScannedAllOk(pat, at, chunks[..|chunks| - 1]);
      ScannedOk(pat, at, Concat(chunks[..|chunks| - 1]), ScannedAll(pat, at, chunks[..|chunks| - 1]), chunks[|chunks| - 1]);
    }
  }

  /** A longer pattern, cut just before its last byte, is missed: the tail no longer holds its start. */
  lemma LongPatternMissed(pat: Pattern, at: nat)
    requires |pat| > OVERLAP + 1
    ensures var chunks := [pat[..|pat| - 1], pat[|pat| - 1..]];
      Concat(chunks) == pat && ScannedAll(pat, at, chunks).events == [] && |Expected(pat, at, pat)| > 0
  {
    var p: seq<byte>, q: seq<byte> := pat[..|pat| - 1], pat[|pat| - 1..];
    var one: seq<seq<byte>>, chunks: seq<seq<byte>> := [p], [p, q];
    assert chunks[..1] == one && one[..0] == [];
    assert Concat(one) == [] + p == p;
    assert Concat(chunks) == p + q == pat;
    var w := Scanned(pat, Registered(at), p);
    assert ScannedAll(pat, at, one) == w;
    assert [] + p == p;
    assert w.events == [] && |w.tail| == OVERLAP;
    assert FindAll(pat, w.tail + q, 0) == [];
    assert ScannedAll(pat, at, chunks) == Scanned(pat, w, q);
    assert OccursAt(pat, pat, 0);
    assert Occurrences(pat, pat, 0, 1)[0] == 0;
  }

  ghost predicate ExactForEveryChunking(pat: Pattern) {
    forall at: nat, chunks :: ScannedAll(pat, at, chunks).events == Expected(pat, at, Concat(chunks))
  }

  /** A pattern that overlaps itself after k bytes is missed even uncut: twice in the output, reported once. */
  lemma SelfOverlapMissed(pat: Pattern, k: nat, at: nat, text: seq<byte>)
    requires 0 < k < |pat| && pat[k..] == pat[..|pat| - k] && text == pat + pat[|pat| - k..]
    ensures Concat([text]) == text && |ScannedAll(pat, at, [text]).events| <= 1
    ensures |Expected(pat, at, text)| >= 2
  {
    assert [text][..0] == [] && [] + text == text;
    OverlapOccurs(pat, k, text);
    assert FindAll(pat, text, |pat|) == [];
    assert FindAll(pat, text, 0) == [0] == [0] + [];
    ReportCons(pat, text, 0, [], at, at);
    Split(pat, text, 0, k, k + 1);
    assert Occurrences(pat, text, 0, k)[0] == 0;
    assert Occurrences(pat, text, k, k + 1)[0] == k;
  }

  lemma OverlapOccurs(pat: Pattern, k: nat, text: seq<byte>)
    requires 0 < k < |pat| && pat[k..] == pat[..|pat| - k] && text == pat + pat[|pat| - k..]
    ensures OccursAt(pat, text, 0) && OccursAt(pat, text, k) && Starts(pat, text) == k + 1
  {
    assert text[k..k + |pat|] == pat[k..] + pat[|pat| - k..];
    assert pat[..|pat| - k] + pat[|pat| - k..] == pat;
  }

  /**
   * Every occurrence lying wholly in output after registration is reported exactly once, in order,
   * at its true position, for every way the output is cut, if and only if the pattern cannot
   * overlap itself and is at most one byte longer than the tail.
   */
  lemma ExactIff(pat: Pattern)
    ensures ExactForEveryChunking(pat) <==> BorderFree(pat) && |pat| <= OVERLAP + 1
  {
    if !BorderFree(pat) {
      var k :| 0 < k < |pat| && pat[k..] == pat[..|pat| - k];
      var text := pat + pat[|pat| - k..];
      SelfOverlapMissed(pat, k, 0, text);
      assert ScannedAll(pat, 0, [text]).events != Expected(pat, 0, Concat([text]));
    } else if |pat| > OVERLAP + 1 {
      LongPatternMissed(pat, 0);
      var chunks := [pat[..|pat| - 1], pat[|pat| - 1..]];
      assert ScannedAll(pat, 0, chunks).events != Expected(pat, 0, Concat(chunks));
    } else {
      forall at: nat, chunks
        ensures ScannedAll(pat, at, chunks).events == Expected(pat, at, Concat(chunks))
      {
        ScannedAllOk(pat, at, chunks);
      }
    }
  }

  // ── Replays that skip ───────────────────────────────────────────────

  /** What ReplayFrom(lastSeen) answers in one round of the loop. */
  datatype Round = Round(data: seq<byte>, fromSeq: nat)

  function ScannedRounds(pat: Pattern, at: nat, rs: seq<Round>): Scanner {
    if rs == [] then Registered(at)
    else ScannedFrom(pat, ScannedRounds(pat, at, rs[..|rs| - 1]), rs[|rs| - 1].data, rs[|rs| - 1].fromSeq)
  }

  function LastSeen(at: nat, rs: seq<Round>): nat {
    if rs == [] then at
    else
      var r := rs[|rs| - 1];
      if r.data == [] then LastSeen(at, rs[..|rs| - 1]) else r.fromSeq + |r.data|
  }

  /** r is an answer to ReplayFrom(lastSeen) by a ring over `stream`, the output since registration. */
  predicate Answers(at: nat, lastSeen: nat, r: Round, stream: seq<byte>) {
    r.data == []
    || (at <= lastSeen <= r.fromSeq && r.fromSeq - at + |r.data| <= |stream|
        && r.data == stream[r.fromSeq - at..r.fromSeq - at + |r.data|])
  }

  predicate Answered(at: nat, rs: seq<Round>, stream: seq<byte>) {
    rs == []
    || (Answered(at, rs[..|rs| - 1], stream) && Answers(at, LastSeen(at, rs[..|rs| - 1]), rs[|rs| - 1], stream))
  }

  /** Where the output received without a break begins: at registration, or after the last skip. */
  function Resumed(at: nat, rs: seq<Round>): nat {
    if rs == [] then at
    else
      var init, r := rs[..|rs| - 1], rs[|rs| - 1];
      if r.data != [] && r.fromSeq > LastSeen(at, init) then r.fromSeq else Resumed(at, init)
  }

  /** The true position of every byte of the buffer scanned in round r, after rounds rs. */
  function BufPos(at: nat, rs: seq<Round>, r: Round): seq<nat> { TailPos(at, rs) + Range(r.fromSeq, |r.data|) }

  /** The true position of every byte of the tail. */
  function TailPos(at: nat, rs: seq<Round>): seq<nat> {
    if rs == [] then []
    else
      var r := rs[|rs| - 1];
      if r.data == [] then TailPos(at, rs[..|rs| - 1])
      else
        var pos := TailPos(at, rs[..|rs| - 1]) + Range(r.fromSeq, |r.data|);
        pos[|pos| - Min(|pos|, OVERLAP)..]
  }

  /** The n buffer bytes from loc on are the output bytes q, q + 1, …, so a match there is a match at q. */
  predicate Lies(pos: seq<nat>, loc: nat, n: nat, q: nat) {
    loc + n <= |pos| && forall i :: loc <= i < loc + n ==> pos[i] == q + (i - loc)
  }

  /** Bytes at true positions pos that a scanner takes to begin at `start`: rightly from `resumed` on, and too high before. */
  ghost predicate BytesOk(at: nat, bs: seq<byte>, pos: seq<nat>, start: nat, resumed: nat, stream: seq<byte>) {
    && |pos| == |bs|
    && (forall i :: 0 <= i < |pos| ==>
         && at <= pos[i] < at + |stream| && bs[i] == stream[pos[i] - at]
         && (if start + i >= resumed then pos[i] == start + i else pos[i] < start + i))
  }

  ghost predicate TailOk(at: nat, w: Scanner, pos: seq<nat>, resumed: nat, stream: seq<byte>) {
    && w.tailStart + |w.tail| == w.lastSeen && at <= resumed <= w.lastSeen
    && (w.tailStart <= resumed || |w.tail| == OVERLAP)
    && BytesOk(at, w.tail, pos, w.tailStart, resumed, stream)
  }

  lemma BufMoves(at: nat, w: Scanner, pos: seq<nat>, resumed: nat, r: Round, stream: seq<byte>, start: nat, resumed': nat)
    requires TailOk(at, w, pos, resumed, stream) && Answers(at, w.lastSeen, r, stream) && r.data != []
    requires start + |w.tail| == r.fromSeq && resumed' == if r.fromSeq > w.lastSeen then r.fromSeq else resumed
    ensures BytesOk(at, w.tail + r.data, pos + Range(r.fromSeq, |r.data|), start, resumed', stream)
  {
    var all, buf := pos + Range(r.fromSeq, |r.data|), w.tail + r.data;
    forall i | 0 <= i < |all|
      ensures at <= all[i] < at + |stream| && buf[i] == stream[all[i] - at]
      ensures if start + i >= resumed' then all[i] == start + i else all[i] < start + i
    {
      if i < |w.tail| {
        assert all[i] == pos[i] && buf[i] == w.tail[i];
      } else {
        assert all[i] == start + i && buf[i] == r.data[i - |w.tail|];
      }
    }
  }

  lemma SuffixOk(at: nat, bs: seq<byte>, pos: seq<nat>, start: nat, resumed: nat, stream: seq<byte>, n: nat, start': nat)
    requires BytesOk(at, bs, pos, start, resumed, stream) && n <= |bs| && start' == start + n
    ensures BytesOk(at, bs[n..], pos[n..], start', resumed, stream)
  {
    forall i | 0 <= i < |pos[n..]|
      ensures pos[n..][i] == pos[n + i] && bs[n..][i] == bs[n + i]
    {
    }
  }

  lemma TailMoves(pat: Pattern, at: nat, w: Scanner, pos: seq<nat>, resumed: nat, r: Round, stream: seq<byte>,
                  w': Scanner, pos': seq<nat>, resumed': nat)
    requires TailOk(at, w, pos, resumed, stream) && Answers(at, w.lastSeen, r, stream) && r.data != []
    requires w' == ScannedFrom(pat, w, r.data, r.fromSeq) && resumed' == if r.fromSeq > w.lastSeen then r.fromSeq else resumed
    requires var all := pos + Range(r.fromSeq, |r.data|); pos' == all[|all| - Min(|all|, OVERLAP)..]
    ensures TailOk(at, w', pos', resumed', stream) && w'.lastSeen == r.fromSeq + |r.data|
  {
    var all, buf := pos + Range(r.fromSeq, |r.data|), w.tail + r.data;
    var n, start := |buf| - Min(|buf|, OVERLAP), r.fromSeq - |w.tail|;
    BufMoves(at, w, pos, resumed, r, stream, start, resumed');
    NewTailOk(at, buf, all, start, resumed', stream, n, w', pos');
  }

  lemma NewTailOk(at: nat, buf: seq<byte>, all: seq<nat>, start: nat, resumed: nat, stream: seq<byte>, n: nat,
                  w: Scanner, pos: seq<nat>)
    requires BytesOk(at, buf, all, start, resumed, stream) && n == |buf| - Min(|buf|, OVERLAP)
    requires w.tail == buf[n..] && pos == all[n..] && w.tailStart == start + n && w.lastSeen == start + |buf|
    ensures BytesOk(at, w.tail, pos, w.tailStart, resumed, stream) && w.tailStart + |w.tail| == w.lastSeen
  {
    SuffixOk(at, buf, all, start, resumed, stream, n, start + n);
  }

  lemma {:induction false} RoundsKeepTail(pat: Pattern, at: nat, rs: seq<Round>, stream: seq<byte>)
    requires Answered(at, rs, stream)
    ensures ScannedRounds(pat, at, rs).lastSeen == LastSeen(at, rs)
    ensures TailOk(at, ScannedRounds(pat, at, rs), TailPos(at, rs), Resumed(at, rs), stream)
  {
    if rs != [] {
      var init, r := rs[..|rs| - 1], rs[|rs| - 1];
      RoundsKeepTail(pat, at, init, stream);
      if r.data == [] {
        assert ScannedRounds(pat, at, rs) == ScannedRounds(pat, at, init);
      } else {
        TailMoves(pat, at, ScannedRounds(pat, at, init), TailPos(at, init), Resumed(at, init), r, stream,
                  ScannedRounds(pat, at, rs), TailPos(at, rs), Resumed(at, rs));
      }
    }
  }

  /** The matches that end beyond the first `seen` bytes of the buffer: those that fire. */
  function Fired(pat: Pattern, locs: seq<nat>, seen: nat): (r: seq<nat>)
    ensures forall loc :: loc in r ==> loc in locs && loc + |pat| > seen
  {
    if locs == [] then []
    else (if locs[0] + |pat| <= seen then [] else [locs[0]]) + Fired(pat, locs[1..], seen)
  }

  /** What round r reports, as places in the buffer. */
  function NewLocs(pat: Pattern, w: Scanner, r: Round): seq<nat> {
    Fired(pat, FindAll(pat, w.tail + r.data, 0), |w.tail|)
  }

  lemma {:induction false} FindAllOccurs(pat: Pattern, text: seq<byte>, i: nat)
    ensures forall loc :: loc in FindAll(pat, text, i) ==> OccursAt(pat, text, loc)
    decreases |text| - i
  {
    if i + |pat| <= |text| {
      FindAllOccurs(pat, text, if OccursAt(pat, text, i) then i + |pat| else i + 1);
    }
  }

  lemma {:induction false} ReportIsFired(pat: Pattern, buf: seq<byte>, locs: seq<nat>, bufStart: nat, seen: nat, lastSeen: nat)
    requires (forall loc :: loc in locs ==> OccursAt(pat, buf, loc)) && lastSeen == bufStart + seen
    requires forall k :: 0 <= k < |locs| ==> locs[k] + |pat| <= |buf|
    ensures Report(pat, buf, locs, bufStart, lastSeen) == Events(pat, Fired(pat, locs, seen), bufStart)
    decreases |locs|
  {
    if locs != [] {
      var a, rest := locs[0], locs[1..];
      assert a in locs && [a] + rest == locs;
      ReportIsFired(pat, buf, rest, bufStart, seen, lastSeen);
      ReportCons(pat, buf, a, rest, bufStart, lastSeen);
      EventsCons(pat, a + |pat| > seen, a, Fired(pat, rest, seen), bufStart);
    }
  }

  /** Round r adds one event per new place, counted from where the scanner takes its tail to start. */
  lemma PassEvents(pat: Pattern, w: Scanner, r: Round)
    requires w.tailStart + |w.tail| == w.lastSeen && r.data != []
    ensures ScannedFrom(pat, w, r.data, r.fromSeq).events == w.events + Events(pat, NewLocs(pat, w, r), w.tailStart)
  {
    var buf := w.tail + r.data;
    FindAllOccurs(pat, buf, 0);
    ReportIsFired(pat, buf, FindAll(pat, buf, 0), w.tailStart, |w.tail|, w.lastSeen);
  }

  /**
   * Of every event a round adds, in any run of rounds with any truncated replays: its bytes are the
   * output bytes at its position if and only if this replay was not truncated and the event begins
   * in the output received since the last truncated one. Otherwise it is off by exactly the bytes
   * skipped if it begins in the new bytes, and joins bytes that are not adjacent if it begins in
   * the tail.
   */
  lemma TruePlaceIff(pat: Pattern, at: nat, rs: seq<Round>, r: Round, stream: seq<byte>, loc: nat,
                     w: Scanner, pos: seq<nat>, q: nat)
    requires Answered(at, rs, stream) && Answers(at, LastSeen(at, rs), r, stream) && r.data != []
    requires w == ScannedRounds(pat, at, rs) && pos == BufPos(at, rs, r)
    requires loc in NewLocs(pat, w, r) && q == w.tailStart + loc
    ensures ScannedFrom(pat, w, r.data, r.fromSeq).events == w.events + Events(pat, NewLocs(pat, w, r), w.tailStart)
    ensures w.lastSeen == LastSeen(at, rs)
    ensures Lies(pos, loc, |pat|, q) <==> r.fromSeq == w.lastSeen && q >= Resumed(at, rs)
    ensures Lies(pos, loc, |pat|, q) ==> at <= q && OccursAt(pat, stream, q - at)
    ensures loc >= |w.tail| ==> r.fromSeq >= w.lastSeen && Lies(pos, loc, |pat|, q + (r.fromSeq - w.lastSeen))
    ensures loc < |w.tail| && !Lies(pos, loc, |pat|, q) ==> forall q': nat :: !Lies(pos, loc, |pat|, q')
  {
    RoundsKeepTail(pat, at, rs, stream);
    RoundEvents(pat, at, rs, r, stream, w);
    FindAllOccurs(pat, w.tail + r.data, 0);
    Placed(pat, at, w, TailPos(at, rs), Resumed(at, rs), r, stream, loc, pos, q);
  }

  lemma Placed(pat: Pattern, at: nat, w: Scanner, tailPos: seq<nat>, resumed: nat, r: Round, stream: seq<byte>, loc: nat,
               pos: seq<nat>, q: nat)
    requires TailOk(at, w, tailPos, resumed, stream) && Answers(at, w.lastSeen, r, stream) && r.data != []
    requires OccursAt(pat, w.tail + r.data, loc) && loc + |pat| > |w.tail|
    requires pos == tailPos + Range(r.fromSeq, |r.data|) && q == w.tailStart + loc
    ensures Lies(pos, loc, |pat|, q) <==> r.fromSeq == w.lastSeen && q >= resumed
    ensures Lies(pos, loc, |pat|, q) ==> at <= q && OccursAt(pat, stream, q - at)
    ensures loc >= |w.tail| ==> Lies(pos, loc, |pat|, q + (r.fromSeq - w.lastSeen))
    ensures loc < |w.tail| && !Lies(pos, loc, |pat|, q) ==> forall q': nat :: !Lies(pos, loc, |pat|, q')
  {
    var last := loc + |pat| - 1;
    assert pos[last] == r.fromSeq + (last - |w.tail|) == q + |pat| - 1 + (r.fromSeq - w.lastSeen);
    if r.fromSeq == w.lastSeen && q >= resumed {
      Lying(pat, at, w, pos, r, stream, loc, q);
    } else if loc < |w.tail| {
      assert pos[loc] == tailPos[loc] <= w.tailStart + loc;
      assert pos[loc] + |pat| - 1 < pos[last];
    }
  }

  lemma Lying(pat: Pattern, at: nat, w: Scanner, pos: seq<nat>, r: Round, stream: seq<byte>, loc: nat, q: nat)
    requires OccursAt(pat, w.tail + r.data, loc) && |pos| == |w.tail| + |r.data|
    requires forall i :: 0 <= i < |pos| ==> at <= pos[i] < at + |stream| && (w.tail + r.data)[i] == stream[pos[i] - at]
    requires forall i :: loc <= i < |pos| ==> pos[i] == q + (i - loc)
    ensures Lies(pos, loc, |pat|, q) && at <= q && OccursAt(pat, stream, q - at)
  {
    var buf := w.tail + r.data;
    assert pos[loc] == q && pos[loc + |pat| - 1] == q + |pat| - 1;
    forall i | 0 <= i < |pat|
      ensures stream[q - at..q - at + |pat|][i] == pat[i]
    {
      assert pos[loc + i] == q + i && buf[loc + i] == buf[loc..loc + |pat|][i];
    }
  }

  lemma PassReports(pat: Pattern, w: Scanner, data: seq<byte>, fromSeq: nat, buf: seq<byte>, s: seq<WatchEvent>)
    requires BorderFree(pat) && w.lastSeen == w.tailStart + |w.tail| && data != [] && buf == w.tail + data
    requires ScannedFrom(pat, w, data, fromSeq).events == w.events + s
    ensures s == Events(pat, Occurrences(pat, buf, Max(0, |w.tail| + 1 - |pat|), Starts(pat, buf)), w.tailStart)
  {
    AllReported(pat, buf, w.tailStart, |w.tail|, w.lastSeen);
    Cancel(w.events, Report(pat, buf, FindAll(pat, buf, 0), w.tailStart, w.lastSeen), s);
  }

  lemma AllReported(pat: Pattern, buf: seq<byte>, bufStart: nat, seen: nat, lastSeen: nat)
    requires BorderFree(pat) && lastSeen == bufStart + seen
    ensures Report(pat, buf, FindAll(pat, buf, 0), bufStart, lastSeen) ==
      Events(pat, Occurrences(pat, buf, Max(0, seen + 1 - |pat|), Starts(pat, buf)), bufStart)
  {
    FindAllIsAll(pat, buf, 0);
    Reported(pat, buf, 0, Starts(pat, buf), bufStart, seen, lastSeen);
  }

  lemma Cancel(es: seq<WatchEvent>, x: seq<WatchEvent>, y: seq<WatchEvent>)
    requires es + x == es + y
    ensures x == y
  {
    assert (es + x)[|es|..] == x && (es + y)[|es|..] == y;
  }

  lemma RoundEvents(pat: Pattern, at: nat, rs: seq<Round>, r: Round, stream: seq<byte>, w: Scanner)
    requires Answered(at, rs, stream) && w == ScannedRounds(pat, at, rs) && r.data != []
    ensures ScannedFrom(pat, w, r.data, r.fromSeq).events == w.events + Events(pat, NewLocs(pat, w, r), w.tailStart)
  {
    RoundsKeepTail(pat, at, rs, stream);
    PassEvents(pat, w, r);
  }

  /** While nothing has been skipped before: a round is right exactly if its replay was not truncated or it reports nothing. */
  lemma PassRightIff(pat: Pattern, at: nat, rs: seq<Round>, r: Round, stream: seq<byte>,
                     w: Scanner, pos: seq<nat>, locs: seq<nat>)
    requires Answered(at, rs, stream) && Answers(at, LastSeen(at, rs), r, stream) && r.data != []
    requires Resumed(at, rs) == at
    requires w == ScannedRounds(pat, at, rs) && pos == BufPos(at, rs, r) && locs == NewLocs(pat, w, r)
    ensures ScannedFrom(pat, w, r.data, r.fromSeq).events == w.events + Events(pat, locs, w.tailStart)
    ensures AllRight(locs, pos, |pat|, w.tailStart) <==> r.fromSeq == LastSeen(at, rs) || locs == []
  {
    RoundEvents(pat, at, rs, r, stream, w);
    if r.fromSeq == LastSeen(at, rs) {
      WholeIsRight(pat, at, rs, r, stream, w, pos, locs);
    } else if locs != [] {
      SkippedIsWrong(pat, at, rs, r, stream, w, pos, locs);
    }
  }

  lemma SkippedIsWrong(pat: Pattern, at: nat, rs: seq<Round>, r: Round, stream: seq<byte>,
                       w: Scanner, pos: seq<nat>, locs: seq<nat>)
    requires Answered(at, rs, stream) && Answers(at, LastSeen(at, rs), r, stream) && r.data != []
    requires Resumed(at, rs) == at && r.fromSeq != LastSeen(at, rs)
    requires w == ScannedRounds(pat, at, rs) && pos == BufPos(at, rs, r) && locs == NewLocs(pat, w, r)
    requires locs != []
    ensures !AllRight(locs, pos, |pat|, w.tailStart)
  {
    RightIfWhole(pat, at, rs, r, stream, w, locs[0], w.tailStart + locs[0]);
  }

  lemma WholeIsRight(pat: Pattern, at: nat, rs: seq<Round>, r: Round, stream: seq<byte>,
                     w: Scanner, pos: seq<nat>, locs: seq<nat>)
    requires Answered(at, rs, stream) && Answers(at, LastSeen(at, rs), r, stream) && r.data != []
    requires Resumed(at, rs) == at && r.fromSeq == LastSeen(at, rs)
    requires w == ScannedRounds(pat, at, rs) && pos == BufPos(at, rs, r) && locs == NewLocs(pat, w, r)
    ensures AllRight(locs, pos, |pat|, w.tailStart)
  {
    forall k | 0 <= k < |locs|
      ensures Lies(pos, locs[k], |pat|, w.tailStart + locs[k])
    {
      RightIfWhole(pat, at, rs, r, stream, w, locs[k], w.tailStart + locs[k]);
    }
  }

  /** Every match at one of these places in the buffer is reported where it is in the output. */
  predicate AllRight(locs: seq<nat>, pos: seq<nat>, n: nat, start: nat) {
    forall k :: 0 <= k < |locs| ==> Lies(pos, locs[k], n, start + locs[k])
  }

  lemma RightIfWhole(pat: Pattern, at: nat, rs: seq<Round>, r: Round, stream: seq<byte>, w: Scanner, loc: nat, q: nat)
    requires Answered(at, rs, stream) && Answers(at, LastSeen(at, rs), r, stream) && r.data != []
    requires Resumed(at, rs) == at && w == ScannedRounds(pat, at, rs)
    requires loc in NewLocs(pat, w, r) && q == w.tailStart + loc
    ensures Lies(BufPos(at, rs, r), loc, |pat|, q) <==> r.fromSeq == LastSeen(at, rs)
  {
    StartsAfter(pat, at, rs, stream, w);
    TruePlaceIff(pat, at, rs, r, stream, loc, w, BufPos(at, rs, r), q);
  }

  lemma StartsAfter(pat: Pattern, at: nat, rs: seq<Round>, stream: seq<byte>, w: Scanner)
    requires Answered(at, rs, stream) && Resumed(at, rs) == at && w == ScannedRounds(pat, at, rs)
    ensures w.tailStart >= at
  {
    RoundsKeepTail(pat, at, rs, stream);
    if |w.tail| > 0 {
      assert TailPos(at, rs)[0] >= at;
    }
  }

  /**
   * And what an untruncated round reports of the output since the last skip is exactly the
   * occurrences that end in the new bytes, each once, in order, at its position; only k events
   * before them reach back across the skip, and none if there was no skip.
   */
  lemma PassExact(pat: Pattern, at: nat, rs: seq<Round>, r: Round, stream: seq<byte>,
                  w: Scanner, s: seq<WatchEvent>, from: int, to: nat) returns (k: nat)
    requires BorderFree(pat) && |pat| <= OVERLAP + 1
    requires Answered(at, rs, stream) && Answers(at, LastSeen(at, rs), r, stream) && r.data != []
    requires r.fromSeq == LastSeen(at, rs) && w == ScannedRounds(pat, at, rs)
    requires ScannedFrom(pat, w, r.data, r.fromSeq).events == w.events + s
    requires from == Max(Resumed(at, rs), r.fromSeq + 1 - |pat|) - at && to == Max(0, r.fromSeq - at + |r.data| + 1 - |pat|)
    ensures k <= |s| && from >= 0
    ensures forall i :: 0 <= i < k ==> s[i].at < Resumed(at, rs)
    ensures Resumed(at, rs) == at ==> k == 0
    ensures s[k..] == Events(pat, Occurrences(pat, stream, from, to), at)
  {
    RoundsKeepTail(pat, at, rs, stream);
    k := RoundExact(pat, at, w, TailPos(at, rs), Resumed(at, rs), r, stream, s, from, to);
  }

  lemma RoundExact(pat: Pattern, at: nat, w: Scanner, tailPos: seq<nat>, resumed: nat, r: Round, stream: seq<byte>,
                   s: seq<WatchEvent>, from: int, to: nat) returns (k: nat)
    requires BorderFree(pat) && |pat| <= OVERLAP + 1
    requires TailOk(at, w, tailPos, resumed, stream) && Answers(at, w.lastSeen, r, stream) && r.data != []
    requires r.fromSeq == w.lastSeen && ScannedFrom(pat, w, r.data, r.fromSeq).events == w.events + s
    requires from == Max(resumed, r.fromSeq + 1 - |pat|) - at && to == Max(0, r.fromSeq - at + |r.data| + 1 - |pat|)
    ensures k <= |s| && from >= 0
    ensures forall i :: 0 <= i < k ==> s[i].at < resumed
    ensures resumed == at ==> k == 0
    ensures s[k..] == Events(pat, Occurrences(pat, stream, from, to), at)
  {
    var buf, f0 := w.tail + r.data, Max(0, |w.tail| + 1 - |pat|);
    PassReports(pat, w, r.data, r.fromSeq, buf, s);
    k := TailExact(pat, at, w, tailPos, resumed, r, stream, buf, f0, from, to);
  }

  lemma TailExact(pat: Pattern, at: nat, w: Scanner, tailPos: seq<nat>, resumed: nat, r: Round, stream: seq<byte>,
                  buf: seq<byte>, f0: nat, from: int, to: int) returns (k: nat)
    requires |pat| <= OVERLAP + 1
    requires TailOk(at, w, tailPos, resumed, stream) && Answers(at, w.lastSeen, r, stream) && r.data != []
    requires r.fromSeq == w.lastSeen && buf == w.tail + r.data && f0 == Max(0, |w.tail| + 1 - |pat|)
    requires from == Max(resumed, r.fromSeq + 1 - |pat|) - at && to == Max(0, r.fromSeq - at + |r.data| + 1 - |pat|)
    ensures var s := Events(pat, Occurrences(pat, buf, f0, Starts(pat, buf)), w.tailStart);
      && k <= |s| && from >= 0 && (forall i :: 0 <= i < k ==> s[i].at < resumed) && (resumed == at ==> k == 0)
      && s[k..] == Events(pat, Occurrences(pat, stream, from, to), at)
  {
    var cut := Max(0, resumed - w.tailStart);
    CleanPart(at, w, tailPos, resumed, r, stream, buf, cut);
    k := CleanExact(pat, at, buf, stream, w.tailStart, |w.tail|, f0, cut, resumed, from, to);
  }

  lemma CleanExact(pat: Pattern, at: nat, buf: seq<byte>, stream: seq<byte>, start: nat, seen: nat, f0: nat, cut: nat,
                   resumed: nat, from: int, to: nat) returns (k: nat)
    requires |pat| <= OVERLAP + 1 && cut <= seen < |buf| && at <= start + cut && start + |buf| <= at + |stream|
    requires at <= resumed && (start <= resumed || seen == OVERLAP)
    requires f0 == Max(0, seen + 1 - |pat|) && cut == Max(0, resumed - start) && (resumed == at ==> cut == 0)
    requires buf[cut..] == stream[start + cut - at..start - at + |buf|]
    requires from == Max(resumed, start + seen + 1 - |pat|) - at && to == Max(0, start - at + |buf| + 1 - |pat|)
    ensures var s := Events(pat, Occurrences(pat, buf, f0, Starts(pat, buf)), start);
      && k <= |s| && from >= 0 && (forall i :: 0 <= i < k ==> s[i].at < resumed) && (resumed == at ==> k == 0)
      && s[k..] == Events(pat, Occurrences(pat, stream, from, to), at)
  {
    k := BufExact(pat, at, buf, stream, start, f0, cut, from, to);
  }

  /** From the last skip on, the buffer is a piece of the output, at the place the scanner takes it to be. */
  lemma CleanPart(at: nat, w: Scanner, tailPos: seq<nat>, resumed: nat, r: Round, stream: seq<byte>, buf: seq<byte>, cut: nat)
    requires TailOk(at, w, tailPos, resumed, stream) && Answers(at, w.lastSeen, r, stream) && r.data != []
    requires r.fromSeq == w.lastSeen && buf == w.tail + r.data && cut == Max(0, resumed - w.tailStart)
    ensures cut <= |w.tail| && at <= w.tailStart + cut && w.tailStart + |buf| <= at + |stream|
    ensures resumed == at ==> cut == 0
    ensures buf[cut..] == stream[w.tailStart + cut - at..w.tailStart - at + |buf|]
  {
    var pos := tailPos + Range(r.fromSeq, |r.data|);
    BufMoves(at, w, tailPos, resumed, r, stream, w.tailStart, resumed);
    FirstIsEarly(at, buf, pos, w.tailStart, resumed, stream);
    CleanSlice(at, buf, pos, w.tailStart, resumed, stream, cut);
  }

  lemma FirstIsEarly(at: nat, buf: seq<byte>, pos: seq<nat>, start: nat, resumed: nat, stream: seq<byte>)
    requires BytesOk(at, buf, pos, start, resumed, stream) && buf != []
    ensures at <= start
  {
    assert at <= pos[0] <= start;
  }

  lemma CleanSlice(at: nat, buf: seq<byte>, pos: seq<nat>, start: nat, resumed: nat, stream: seq<byte>, cut: nat)
    requires BytesOk(at, buf, pos, start, resumed, stream) && cut < |buf| && start + cut >= resumed
    requires at <= start + cut && start + |buf| <= at + |stream|
    ensures buf[cut..] == stream[start + cut - at..start - at + |buf|]
  {
    var x, y := buf[cut..], stream[start + cut - at..start - at + |buf|];
    forall i | 0 <= i < |x|
      ensures x[i] == y[i]
    {
      var j := cut + i;
      assert pos[j] == start + j && buf[j] == stream[pos[j] - at];
      assert x[i] == buf[j] && y[i] == stream[start + j - at];
    }
  }

  lemma BufExact(pat: Pattern, at: nat, buf: seq<byte>, stream: seq<byte>, bufStart: nat, f0: nat, cut: nat,
                 from: int, to: nat) returns (k: nat)
    requires from >= 0 && f0 <= Starts(pat, buf) && cut <= |buf| && at <= bufStart + cut && bufStart + |buf| <= at + |stream|
    requires buf[cut..] == stream[bufStart + cut - at..bufStart - at + |buf|]
    requires from == bufStart + Max(f0, cut) - at && to == Max(0, bufStart - at + |buf| + 1 - |pat|)
    ensures var s := Events(pat, Occurrences(pat, buf, f0, Starts(pat, buf)), bufStart);
      && k <= |s| && (forall i :: 0 <= i < k ==> s[i].at < bufStart + cut) && (cut <= f0 ==> k == 0)
      && s[k..] == Events(pat, Occurrences(pat, stream, from, to), at)
  {
    var b := Starts(pat, buf);
    var m := Min(Max(f0, cut), b);
    k := SplitReports(pat, buf, f0, m, b, bufStart);
    if m < b {
      FromCut(pat, at, buf, stream, bufStart, cut, m, from, to);
    } else {
      NoneInside(pat, buf, stream, b, from, to);
    }
  }

  lemma FromCut(pat: Pattern, at: nat, buf: seq<byte>, stream: seq<byte>, bufStart: nat, cut: nat, m: nat, from: nat, to: nat)
    requires cut <= m < Starts(pat, buf) && at <= bufStart + cut && bufStart + |buf| <= at + |stream|
    requires buf[cut..] == stream[bufStart + cut - at..bufStart - at + |buf|]
    requires from == bufStart + m - at && to == bufStart + Starts(pat, buf) - at
    ensures Events(pat, Occurrences(pat, buf, m, Starts(pat, buf)), bufStart) == Events(pat, Occurrences(pat, stream, from, to), at)
  {
    var clean, b, off := buf[cut..], Starts(pat, buf), bufStart + cut - at;
    assert clean == buf[cut..cut + |clean|];
    SameInBoth(pat, clean, buf, cut, stream, off, m - cut, b - cut, m, b, from, to, bufStart, at, bufStart + cut);
  }

  lemma SplitReports(pat: Pattern, buf: seq<byte>, f0: nat, m: nat, b: nat, bufStart: nat) returns (k: nat)
    requires f0 <= m <= b
    ensures var s := Events(pat, Occurrences(pat, buf, f0, b), bufStart);
      && k <= |s| && (forall i :: 0 <= i < k ==> s[i].at < bufStart + m) && (f0 == m ==> k == 0)
      && s[k..] == Events(pat, Occurrences(pat, buf, m, b), bufStart)
  {
    Split(pat, buf, f0, m, b);
    EventsConcat(pat, Occurrences(pat, buf, f0, m), Occurrences(pat, buf, m, b), bufStart);
    k := |Occurrences(pat, buf, f0, m)|;
  }

  lemma NoneInside(pat: Pattern, buf: seq<byte>, stream: seq<byte>, b: nat, from: int, to: nat)
    requires from >= to
    ensures Occurrences(pat, buf, b, b) == [] && (from >= 0 ==> Occurrences(pat, stream, from, to) == [])
  {
  }

  lemma SameInBoth(pat: Pattern, text: seq<byte>, x: seq<byte>, xOff: nat, y: seq<byte>, yOff: nat, a: nat, b: nat,
                   xa: nat, xb: nat, ya: nat, yb: nat, xAt: nat, yAt: nat, start: nat)
    requires xOff + |text| <= |x| && text == x[xOff..xOff + |text|] && yOff + |text| <= |y| && text == y[yOff..yOff + |text|]
    requires b <= Starts(pat, text) && start == xAt + xOff == yAt + yOff
    requires xa == xOff + a && xb == xOff + b && ya == yOff + a && yb == yOff + b
    ensures Events(pat, Occurrences(pat, x, xa, xb), xAt) == Events(pat, Occurrences(pat, y, ya, yb), yAt)
  {
    Shifted(pat, text, x, xOff, a, b, xa, xb, xAt, start);
    Shifted(pat, text, y, yOff, a, b, ya, yb, yAt, start);
  }

  /** Whatever was skipped between them, a match that a tail and the new bytes only make together fires. */
  lemma SeamFires(pat: Pattern, p: seq<byte>, q: seq<byte>, loc: nat, skipped: nat)
    requires 0 < |p| <= OVERLAP && q != [] && FindAll(pat, p + q, 0) == [loc] && loc + |pat| > |p|
    ensures ScannedRounds(pat, 0, [Round(p, 0), Round(q, |p| + skipped)]).events == [WatchEvent(loc, Capped(pat))]
  {
    TwoRounds(pat, Round(p, 0), Round(q, |p| + skipped));
    NoneYet(pat, p, p + q, 0);
    FirstRound(pat, p);
    FindAllOccurs(pat, p + q, 0);
    assert loc in [loc];
    SecondRound(pat, p, q, loc, |p| + skipped);
  }

  lemma TwoRounds(pat: Pattern, r1: Round, r2: Round)
    ensures ScannedRounds(pat, 0, [r1, r2]) ==
      ScannedFrom(pat, ScannedFrom(pat, Registered(0), r1.data, r1.fromSeq), r2.data, r2.fromSeq)
  {
    assert [r1, r2][..1] == [r1] && [r1][..0] == [];
    assert ScannedRounds(pat, 0, [r1]) == ScannedFrom(pat, Registered(0), r1.data, r1.fromSeq);
  }

  lemma FirstRound(pat: Pattern, p: seq<byte>)
    requires 0 < |p| <= OVERLAP && FindAll(pat, p, 0) == []
    ensures ScannedFrom(pat, Registered(0), p, 0) == Scanner(|p|, p, 0, [])
  {
    assert [] + p == p;
  }

  lemma SecondRound(pat: Pattern, p: seq<byte>, q: seq<byte>, loc: nat, fromSeq: nat)
    requires q != [] && FindAll(pat, p + q, 0) == [loc] && OccursAt(pat, p + q, loc) && loc + |pat| > |p|
    ensures ScannedFrom(pat, Scanner(|p|, p, 0, []), q, fromSeq).events == [WatchEvent(loc, Capped(pat))]
  {
    assert [loc] == [loc] + [];
    ReportCons(pat, p + q, loc, [], 0, |p|);
  }

  /** Where a longer text has its first match end beyond p, p has none. */
  lemma {:induction false} NoneYet(pat: Pattern, p: seq<byte>, whole: seq<byte>, i: nat)
    requires p <= whole && FindAll(pat, whole, i) != [] && FindAll(pat, whole, i)[0] + |pat| > |p|
    ensures FindAll(pat, p, i) == []
    decreases |p| - i
  {
    if i + |pat| <= |p| {
      assert p[i..i + |pat|] == whole[i..i + |pat|];
      NoneYet(pat, p, whole, i + 1);
    }
  }

  /** "ab", two bytes skipped, "cd": a match for "bc" is reported in output that holds none. */
  lemma SeamInput(pat: Pattern, stream: seq<byte>, r1: Round, r2: Round)
    requires pat == [98, 99] && stream == [97, 98, 120, 120, 99, 100]
    requires r1 == Round([97, 98], 0) && r2 == Round([99, 100], 4)
    ensures Answered(0, [r1, r2], stream) && Expected(pat, 0, stream) == []
    ensures ScannedRounds(pat, 0, [r1, r2]).events == [WatchEvent(1, pat)]
  {
    AnsweredTwo(r1, r2, stream);
    TheSeam(pat, r1.data + r2.data);
    SeamFires(pat, r1.data, r2.data, 1, 2);
    NoneIn(pat, stream);
    assert Capped(pat) == pat;
  }

  lemma AnsweredTwo(r1: Round, r2: Round, stream: seq<byte>)
    requires r1 == Round([97, 98], 0) && r2 == Round([99, 100], 4) && stream == [97, 98, 120, 120, 99, 100]
    ensures Answered(0, [r1, r2], stream)
  {
    assert [r1, r2][..1] == [r1] && [r1][..0] == [];
    assert stream[0..2] == r1.data && stream[4..6] == r2.data;
  }

  lemma TheSeam(pat: Pattern, buf: seq<byte>)
    requires pat == [98, 99] && buf == [97, 98, 99, 100]
    ensures FindAll(pat, buf, 0) == [1]
  {
    assert buf[0..2][0] == 97 && buf[1..3] == pat;
    assert FindAll(pat, buf, 3) == [] && FindAll(pat, buf, 1) == [1];
  }

  lemma NoneIn(pat: Pattern, stream: seq<byte>)
    requires pat == [98, 99] && stream == [97, 98, 120, 120, 99, 100]
    ensures Expected(pat, 0, stream) == []
  {
    forall i | 0 <= i < 5
      ensures !OccursAt(pat, stream, i)
    {
      assert stream[i..i + 2][0] == stream[i] && stream[i..i + 2][1] == stream[i + 1];
    }
    NoOccurrences(pat, stream, 0, 5);
  }

  lemma {:induction false} NoOccurrences(pat: Pattern, text: seq<byte>, a: nat, b: nat)
    requires forall i :: a <= i < b ==> !OccursAt(pat, text, i)
    ensures Occurrences(pat, text, a, b) == []
    decreases b - a
  {
    if a < b {
      NoOccurrences(pat, text, a + 1, b);
    }
  }

  // ── Runs that skip nothing ──────────────────────────────────────────

  function Chunks(rs: seq<Round>): seq<seq<byte>> {
    if rs == [] then [] else Chunks(rs[..|rs| - 1]) + [rs[|rs| - 1].data]
  }

  /** Without a truncated replay the rounds are the chunks of the output, and the reports are exact. */
  lemma {:induction false} UnskippedRounds(pat: Pattern, at: nat, rs: seq<Round>, stream: seq<byte>)
    requires Answered(at, rs, stream) && Resumed(at, rs) == at
    ensures ScannedRounds(pat, at, rs) == ScannedAll(pat, at, Chunks(rs))
    ensures LastSeen(at, rs) == at + |Concat(Chunks(rs))| && Concat(Chunks(rs)) <= stream
  {
    if rs != [] {
      var init, r, cs := rs[..|rs| - 1], rs[|rs| - 1], Chunks(rs[..|rs| - 1]);
      RoundsKeepTail(pat, at, init, stream);
      UnskippedRounds(pat, at, init, stream);
      assert (cs + [r.data])[..|cs + [r.data]| - 1] == cs;
      assert ScannedAll(pat, at, cs + [r.data]) == Scanned(pat, ScannedAll(pat, at, cs), r.data);
      assert Concat(cs + [r.data]) == Concat(cs) + r.data;
      NextChunk(at, Concat(cs), LastSeen(at, init), r, stream);
    }
  }

  lemma NextChunk(at: nat, p: seq<byte>, lastSeen: nat, r: Round, stream: seq<byte>)
    requires p <= stream && lastSeen == at + |p| && Answers(at, lastSeen, r, stream)
    requires r.data == [] || r.fromSeq <= lastSeen
    ensures p + r.data <= stream
  {
    if r.data == [] {
      assert p + r.data == p;
    } else {
      Extended(p, r.data, stream);
    }
  }

  lemma Extended(p: seq<byte>, q: seq<byte>, stream: seq<byte>)
    requires p <= stream && |p| + |q| <= |stream| && q == stream[|p|..|p| + |q|]
    ensures p + q <= stream
  {
  }

  /** What a run that skipped nothing has reported, for a pattern within the promise. */
  lemma UnskippedExact(pat: Pattern, at: nat, rs: seq<Round>, stream: seq<byte>)
    requires BorderFree(pat) && |pat| <= OVERLAP + 1
    requires Answered(at, rs, stream) && Resumed(at, rs) == at
    ensures at <= LastSeen(at, rs) <= at + |stream|
    ensures ScannedRounds(pat, at, rs).events == Expected(pat, at, stream[..LastSeen(at, rs) - at])
  {
    UnskippedRounds(pat, at, rs, stream);
    ScannedAllOk(pat, at, Chunks(rs));
    ExactSoFar(pat, at, Concat(Chunks(rs)), stream, ScannedAll(pat, at, Chunks(rs)), LastSeen(at, rs));
  }

  lemma ExactSoFar(pat: Pattern, at: nat, p: seq<byte>, stream: seq<byte>, w: Scanner, lastSeen: nat)
    requires ScannerOk(pat, at, p, w) && p <= stream && lastSeen == at + |p|
    ensures lastSeen <= at + |stream| && w.events == Expected(pat, at, stream[..lastSeen - at])
  {
    assert p == stream[..|p|];
  }

  /** The body of the loop for a round with new bytes. */
  method ScanRound(pat: Pattern, lastSeen: nat, tail: seq<byte>, tailStart: nat, events: seq<WatchEvent>,
                   data: seq<byte>, fromSeq: nat)
    returns (lastSeen': nat, tail': seq<byte>, tailStart': nat, events': seq<WatchEvent>)
    requires data != [] && |tail| <= fromSeq
    ensures Scanner(lastSeen', tail', tailStart', events') ==
      ScannedFrom(pat, Scanner(lastSeen, tail, tailStart, events), data, fromSeq)
  {
    var buf := tail + data;
    var locs := FindAll(pat, buf, 0);
    var news := ScanBuffer(pat, buf, locs, tailStart, lastSeen);
    events' := events + news;
    lastSeen' := fromSeq + |data|;
    var keep := Min(|buf|, OVERLAP);
    tail' := buf[|buf| - keep..];
    tailStart' := lastSeen' - keep;
  }

  /** runWatch, where round k is what ReplayFrom(lastSeen) answered. */
  method RunWatch(pat: Pattern, at: nat, rs: seq<Round>, ghost stream: seq<byte>) returns (events: seq<WatchEvent>)
    requires Answered(at, rs, stream)
    ensures events == ScannedRounds(pat, at, rs).events
    ensures BorderFree(pat) && |pat| <= OVERLAP + 1 && Resumed(at, rs) == at ==>
      at <= LastSeen(at, rs) <= at + |stream| && events == Expected(pat, at, stream[..LastSeen(at, rs) - at])
  {
    var lastSeen: nat, tail: seq<byte>, tailStart: nat := at, [], at;
    events := [];
    var round := 0;
    assert rs[..|rs|] == rs;
    while round < |rs|
      invariant 0 <= round <= |rs| && Answered(at, rs[..round], stream)
      invariant Scanner(lastSeen, tail, tailStart, events) == ScannedRounds(pat, at, rs[..round])
    {
      var data, fromSeq := rs[round].data, rs[round].fromSeq;
      assert rs[..round + 1][..round] == rs[..round];
      AnsweredPart(at, rs, stream, round + 1);
      RoundsKeepTail(pat, at, rs[..round], stream);
      if |data| > 0 {
        lastSeen, tail, tailStart, events := ScanRound(pat, lastSeen, tail, tailStart, events, data, fromSeq);
      }
      round := round + 1;
    }
    if BorderFree(pat) && |pat| <= OVERLAP + 1 && Resumed(at, rs) == at {
      UnskippedExact(pat, at, rs, stream);
    }
  }

  lemma {:induction false} AnsweredPart(at: nat, rs: seq<Round>, stream: seq<byte>, n: nat)
    requires Answered(at, rs, stream) && n <= |rs|
    ensures Answered(at, rs[..n], stream)
  {
    if n < |rs| {
      AnsweredPart(at, rs[..|rs| - 1], stream, n);
      assert rs[..|rs| - 1][..n] == rs[..n];
    } else {
      assert rs[..n] == rs;
    }
  }

  lemma ReportNext(pat: Pattern, buf: seq<byte>, locs: seq<nat>, bufStart: nat, lastSeen: nat, out: seq<WatchEvent>)
    requires locs != [] && forall k :: 0 <= k < |locs| ==> locs[k] + |pat| <= |buf|
    ensures out + Report(pat, buf, locs, bufStart, lastSeen) ==
      (if locs[0] + |pat| + bufStart <= lastSeen then out
       else out + [WatchEvent(bufStart + locs[0], Capped(buf[locs[0]..locs[0] + |pat|]))])
      + Report(pat, buf, locs[1..], bufStart, lastSeen)
  {
  }

  method CapMatch(m: seq<byte>) returns (r: seq<byte>)
    ensures r == Capped(m)
  {
    r := m;
    if |r| > MATCH_CAP {
      r := r[..MATCH_CAP];
    }
  }

  /** Its body, with the matches `left` to go: one that ends in the part already seen fired before. */
  method ReportOne(pat: Pattern, buf: seq<byte>, loc: nat, ghost left: seq<nat>, bufStart: nat, lastSeen: nat,
                   out: seq<WatchEvent>)
    returns (out': seq<WatchEvent>)
    requires left != [] && loc == left[0] && forall j :: 0 <= j < |left| ==> left[j] + |pat| <= |buf|
    ensures out' + Report(pat, buf, left[1..], bufStart, lastSeen) == out + Report(pat, buf, left, bufStart, lastSeen)
  {
    ReportNext(pat, buf, left, bufStart, lastSeen, out);
    if loc + |pat| + bufStart <= lastSeen {
      return out;
    }
    var m := CapMatch(buf[loc..loc + |pat|]);
    return out + [WatchEvent(bufStart + loc, m)];
  }

  /** The inner loop, over the matches FindAllIndex gave. */
  method ScanBuffer(pat: Pattern, buf: seq<byte>, locs: seq<nat>, bufStart: nat, lastSeen: nat) returns (out: seq<WatchEvent>)
    requires forall j :: 0 <= j < |locs| ==> locs[j] + |pat| <= |buf|
    ensures out == Report(pat, buf, locs, bufStart, lastSeen)
  {
    out := [];
    ghost var left, all := locs, Report(pat, buf, locs, bufStart, lastSeen);
    assert out + all == all;
    var k := 0;
    while k < |locs|
      invariant 0 <= k <= |locs| && left == locs[k..]
      invariant forall j :: 0 <= j < |left| ==> left[j] + |pat| <= |buf|
      invariant out + Report(pat, buf, left, bufStart, lastSeen) == all
    {
      out := ReportOne(pat, buf, locs[k], left, bufStart, lastSeen, out);
      left, k := left[1..], k + 1;
    }
  }
}
