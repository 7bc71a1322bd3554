/**
 * The private stream of pkg/daemon/takeover.go: ctrl bytes that may carry a file descriptor, and
 * length-prefixed blobs. Session state and finale are JSON in the code; here they are opaque bytes
 * with a given printer and parser.
 */
module TakeoverStream {
  import opened Bytes

  const LIVE: byte := 0x53 // 'S'
  const EXITED: byte := 0x58 // 'X'
  const FINALE: byte := 0x4c // 'L'
  const MAX_BLOB := 134217728 // 128 << 20

  type Fd = nat

  /** One byte on the unix socket, with the descriptor sent along with it. */
  datatype Cell = Cell(b: byte, fd: Option<Fd>)

  /** What is known of a session: its marshalled state, its ring bytes, and its PTY if it is live. */
  datatype Item = Item(state: seq<byte>, ring: seq<byte>, ptmx: Option<Fd>)

  datatype Fin = Fin(count: nat, lockPath: seq<byte>)

  datatype Format = Format(marshal: Fin -> seq<byte>, unmarshal: seq<byte> -> Option<Fin>, stateOk: seq<byte> -> bool)

  /** The finale survives its JSON. */
  predicate Faithful(j: Format, fin: Fin) { j.unmarshal(j.marshal(fin)) == Some(fin) }

  datatype Outcome = Acked(items: seq<Item>, lockPath: seq<byte>, lock: Option<Fd>) | GaveUp

  function Plain(bs: seq<byte>): (cs: seq<Cell>)
    ensures |cs| == |bs|
  {
    seq(|bs|, i requires 0 <= i < |bs| => Cell(bs[i], None))
  }

  function BytesOf(cs: seq<Cell>): (bs: seq<byte>)
    ensures |bs| == |cs|
  {
    seq(|cs|, i requires 0 <= i < |cs| => cs[i].b)
  }

  /** writeBlob; the length is converted to uint32. */
  function Blob(bs: seq<byte>): (cs: seq<Cell>)
    ensures |cs| == 4 + |bs|
  {
    Plain(U32(|bs|)) + Plain(bs)
  }

  datatype BlobResult = Read(data: seq<byte>, rest: seq<Cell>) | Broken

  /** readBlob. */
  function ReadBlob(cs: seq<Cell>): (r: BlobResult)
    ensures r.Read? ==> |r.rest| < |cs|
  {
    if |cs| < 4 then Broken
    else
      var n := FromU32(BytesOf(cs[..4]));
      if n > MAX_BLOB || |cs| < 4 + n then Broken
      else Read(BytesOf(cs[4..4 + n]), cs[4 + n..])
  }

  function SendItem(it: Item): seq<Cell> {
    [Cell(if it.ptmx.Some? then LIVE else EXITED, it.ptmx)] + Blob(it.state) + Blob(it.ring)
  }

  function SendFin(j: Format, fin: Fin, lock: Fd): seq<Cell> {
    [Cell(FINALE, Some(lock))] + Blob(j.marshal(fin))
  }

  function SendItems(items: seq<Item>): seq<Cell> {
    if items == [] then [] else SendItem(items[0]) + SendItems(items[1..])
  }

  /** Everything the old daemon writes before it waits for the ACK. */
  function Sent(j: Format, items: seq<Item>, fin: Fin, lock: Fd): seq<Cell> {
    SendItems(items) + SendFin(j, fin, lock)
  }

  /** The receive loop of RequestTakeover, with what it has collected so far. */
  function Receive(j: Format, cs: seq<Cell>, got: seq<Item>): Outcome
    decreases |cs|
  {
    if cs == [] then GaveUp
    else if cs[0].b == FINALE then
      match ReadBlob(cs[1..])
      case Broken => GaveUp
      case Read(finBytes, _) =>
        match j.unmarshal(finBytes)
        case None => GaveUp
        case Some(fin) => if fin.count != |got| then GaveUp else Acked(got, fin.lockPath, cs[0].fd)
    else
      match ReadBlob(cs[1..])
      case Broken => GaveUp
      case Read(state, cs1) =>
        match ReadBlob(cs1)
        case Broken => GaveUp
        case Read(ring, cs2) =>
          if !j.stateOk(state) || (cs[0].b == LIVE && cs[0].fd.None?) then GaveUp
          else Receive(j, cs2, got + [Item(state, ring, cs[0].fd)])
  }

  /** Blobs short enough for their length prefix. */
  predicate Sendable(j: Format, items: seq<Item>) {
    forall i :: 0 <= i < |items| ==>
      |items[i].state| < 0x1_0000_0000 && |items[i].ring| < 0x1_0000_0000 && j.stateOk(items[i].state)
  }

  predicate Fits(it: Item) { |it.state| <= MAX_BLOB && |it.ring| <= MAX_BLOB }

  lemma PlainBytes(bs: seq<byte>)
    ensures BytesOf(Plain(bs)) == bs
  {
  }

  /** A blob is read back exactly when it is whole and within the cap. */
  lemma ReadBlobCut(bs: seq<byte>, more: seq<Cell>, n: nat)
    requires |bs| < 0x1_0000_0000 && n <= 4 + |bs| + |more|
    ensures ReadBlob((Blob(bs) + more)[..n]) ==
      if |bs| <= MAX_BLOB && 4 + |bs| <= n then Read(bs, more[..n - 4 - |bs|]) else Broken
  {
    var cs := (Blob(bs) + more)[..n];
    if n >= 4 {
      assert cs[..4] == Plain(U32(|bs|));
      PlainBytes(U32(|bs|));
      U32RoundTrip(|bs|);
      if 4 + |bs| <= n {
        assert cs[4..4 + |bs|] == Plain(bs);
        PlainBytes(bs);
        assert cs[4 + |bs|..] == more[..n - 4 - |bs|];
      }
    }
  }

  function Ctrl(it: Item): Cell { Cell(if it.ptmx.Some? then LIVE else EXITED, it.ptmx) }

  lemma ItemParts(it: Item, more: seq<Cell>, n: nat)
    requires n <= |SendItem(it)| + |more|
    ensures |SendItem(it)| == 9 + |it.state| + |it.ring|
    ensures var cs := (SendItem(it) + more)[..n];
      n > 0 ==> cs[0] == Ctrl(it) && cs[1..] == (Blob(it.state) + (Blob(it.ring) + more))[..n - 1]
  {
    var cs := (SendItem(it) + more)[..n];
    if n > 0 {
      assert SendItem(it) + more == [Ctrl(it)] + (Blob(it.state) + (Blob(it.ring) + more));
    }
  }

  /** The connection ends within an item's state. */
  lemma ReceiveNoState(j: Format, cs: seq<Cell>, it: Item, rest: seq<Cell>, k: nat, got: seq<Item>)
    requires |it.state| < 0x1_0000_0000 && k <= 4 + |it.state| + |rest|
    requires cs != [] && cs[0] == Ctrl(it) && cs[1..] == (Blob(it.state) + rest)[..k]
    requires |it.state| > MAX_BLOB || 4 + |it.state| > k
    ensures Receive(j, cs, got) == GaveUp
  {
    ReadBlobCut(it.state, rest, k);
  }

  /** The state is whole; k bytes of the ring's blob and what follows it are left. */
  lemma ReceiveRing(j: Format, cs: seq<Cell>, it: Item, more: seq<Cell>, k: nat, got: seq<Item>)
    requires |it.state| <= MAX_BLOB && |it.ring| < 0x1_0000_0000 && j.stateOk(it.state) && k <= 4 + |it.ring| + |more|
    requires cs != [] && cs[0] == Ctrl(it) && ReadBlob(cs[1..]) == Read(it.state, (Blob(it.ring) + more)[..k])
    ensures Receive(j, cs, got) ==
      if |it.ring| <= MAX_BLOB && 4 + |it.ring| <= k then Receive(j, more[..k - 4 - |it.ring|], got + [it]) else GaveUp
  {
    ReceiveOne(j, cs, (Blob(it.ring) + more)[..k], it, got);
    ReadBlobCut(it.ring, more, k);
  }

  /** One item, followed by anything, cut anywhere. */
  lemma ReceiveItemCut(j: Format, it: Item, more: seq<Cell>, n: nat, got: seq<Item>, cs: seq<Cell>, w: nat)
    requires |it.state| < 0x1_0000_0000 && |it.ring| < 0x1_0000_0000 && j.stateOk(it.state)
    requires w == |SendItem(it)| && n <= w + |more| && cs == (SendItem(it) + more)[..n]
    ensures Receive(j, cs, got) == if Fits(it) && w <= n then Receive(j, more[..n - w], got + [it]) else GaveUp
  {
    ItemParts(it, more, n);
    if n > 0 {
      var rest := Blob(it.ring) + more;
      if |it.state| > MAX_BLOB || 4 + |it.state| > n - 1 {
        ReceiveNoState(j, cs, it, rest, n - 1, got);
      } else {
        ReadBlobCut(it.state, rest, n - 1);
        ReceiveRing(j, cs, it, more, n - 5 - |it.state|, got);
      }
    }
  }

  lemma ReceiveOne(j: Format, cs: seq<Cell>, cs1: seq<Cell>, it: Item, got: seq<Item>)
    requires cs != [] && cs[0] == Ctrl(it) && ReadBlob(cs[1..]) == Read(it.state, cs1) && j.stateOk(it.state)
    ensures Receive(j, cs, got) ==
      if ReadBlob(cs1).Broken? then GaveUp
      else Receive(j, ReadBlob(cs1).rest, got + [Item(it.state, ReadBlob(cs1).data, it.ptmx)])
  {
  }

  lemma ReceiveFinCut(j: Format, fin: Fin, lock: Fd, n: nat, got: seq<Item>)
    requires Faithful(j, fin) && |j.marshal(fin)| < 0x1_0000_0000 && n <= |SendFin(j, fin, lock)|
    ensures Receive(j, SendFin(j, fin, lock)[..n], got) ==
      if n == |SendFin(j, fin, lock)| && |j.marshal(fin)| <= MAX_BLOB && fin.count == |got|
      then Acked(got, fin.lockPath, Some(lock)) else GaveUp
  {
    var cs, b := SendFin(j, fin, lock)[..n], j.marshal(fin);
    if n > 0 {
      assert Blob(b) + [] == Blob(b);
      assert cs[1..] == (Blob(b) + [])[..n - 1];
      ReadBlobCut(b, [], n - 1);
      assert cs[0] == Cell(FINALE, Some(lock));
    }
  }

  predicate AllFit(items: seq<Item>) { forall i :: 0 <= i < |items| ==> Fits(items[i]) }

  lemma AllFitCons(items: seq<Item>)
    requires items != []
    ensures AllFit(items) <==> Fits(items[0]) && AllFit(items[1..])
  {
    assert forall i :: 0 < i < |items| ==> items[i] == items[1..][i - 1];
  }

  lemma SendableTail(j: Format, items: seq<Item>)
    requires Sendable(j, items) && items != []
    ensures Sendable(j, items[1..])
    ensures |items[0].state| < 0x1_0000_0000 && |items[0].ring| < 0x1_0000_0000 && j.stateOk(items[0].state)
  {
  }

  lemma SentCons(j: Format, items: seq<Item>, fin: Fin, lock: Fd)
    requires items != []
    ensures Sent(j, items, fin, lock) == SendItem(items[0]) + Sent(j, items[1..], fin, lock)
  {
  }

  lemma MoveOver(got: seq<Item>, items: seq<Item>)
    requires items != []
    ensures got + items == (got + [items[0]]) + items[1..]
  {
  }

  /** What the receiver makes of what was sent, cut after n of its w cells, when `all` has been received in all. */
  ghost predicate Outcomes(j: Format, items: seq<Item>, fin: Fin, lock: Fd, o: Outcome, whole: bool, all: seq<Item>) {
    o == if whole && AllFit(items) && |j.marshal(fin)| <= MAX_BLOB && fin.count == |all|
      then Acked(all, fin.lockPath, Some(lock)) else GaveUp
  }

  /** The same of the stream cs, cut after n cells, by a receiver that has `got` already. */
  ghost predicate CutOk(j: Format, items: seq<Item>, fin: Fin, lock: Fd, cs: seq<Cell>, n: nat, got: seq<Item>, all: seq<Item>)
    requires n <= |cs|
  {
    Outcomes(j, items, fin, lock, Receive(j, cs[..n], got), n == |cs|, all)
  }

  /** The first item, given what becomes of the others. */
  lemma ReceiveFirst(j: Format, items: seq<Item>, fin: Fin, lock: Fd, cs: seq<Cell>, more: seq<Cell>, n: nat, w: nat,
                     got: seq<Item>, all: seq<Item>)
    requires items != [] && Sendable(j, items) && w == |SendItem(items[0])| && cs == SendItem(items[0]) + more && n <= |cs|
    requires Fits(items[0]) && w <= n ==>
      CutOk(j, items[1..], fin, lock, more, n - w, got + [items[0]], all)
    ensures CutOk(j, items, fin, lock, cs, n, got, all)
  {
    SendableTail(j, items);
    ReceiveItemCut(j, items[0], more, n, got, cs[..n], w);
    AllFitCons(items);
  }

  lemma ReceiveNone(j: Format, fin: Fin, lock: Fd, cs: seq<Cell>, n: nat, got: seq<Item>, all: seq<Item>)
    requires Faithful(j, fin) && |j.marshal(fin)| < 0x1_0000_0000
    requires cs == Sent(j, [], fin, lock) && n <= |cs| && all == got + []
    ensures CutOk(j, [], fin, lock, cs, n, got, all)
  {
    assert cs == SendFin(j, fin, lock) && all == got;
    ReceiveFinCut(j, fin, lock, n, got);
  }

  lemma {:induction false} ReceiveCut(j: Format, items: seq<Item>, fin: Fin, lock: Fd, cs: seq<Cell>, n: nat,
                                      got: seq<Item>, all: seq<Item>)
    requires Faithful(j, fin) && Sendable(j, items) && |j.marshal(fin)| < 0x1_0000_0000
    requires cs == Sent(j, items, fin, lock) && n <= |cs| && all == got + items
    ensures CutOk(j, items, fin, lock, cs, n, got, all)
    decreases |items|, 1
  {
    if items == [] {
      ReceiveNone(j, fin, lock, cs, n, got, all);
    } else {
      SentCons(j, items, fin, lock);
      ReceiveSome(j, items, fin, lock, cs, Sent(j, items[1..], fin, lock), n, |SendItem(items[0])|, got, all);
    }
  }

  lemma {:induction false} ReceiveSome(j: Format, items: seq<Item>, fin: Fin, lock: Fd, cs: seq<Cell>, more: seq<Cell>, n: nat,
                                       w: nat, got: seq<Item>, all: seq<Item>)
    requires Faithful(j, fin) && Sendable(j, items) && |j.marshal(fin)| < 0x1_0000_0000 && items != []
    requires more == Sent(j, items[1..], fin, lock) && w == |SendItem(items[0])| && cs == SendItem(items[0]) + more
    requires n <= |cs| && all == got + items
    ensures CutOk(j, items, fin, lock, cs, n, got, all)
    decreases |items|, 0
  {
    SendableTail(j, items);
    MoveOver(got, items);
    if w <= n {
      ReceiveCut(j, items[1..], fin, lock, more, n - w, got + [items[0]], all);
    }
    ReceiveFirst(j, items, fin, lock, cs, more, n, w, got, all);
  }

  /**
   * The receive loop inverts the send loop: it rebuilds the same states, rings, descriptors and
   * count before it ACKs, exactly when every blob is within the cap.
   */
  lemma ReceivesWhatWasSent(j: Format, items: seq<Item>, fin: Fin, lock: Fd)
    requires Faithful(j, fin) && Sendable(j, items) && |j.marshal(fin)| < 0x1_0000_0000 && fin.count == |items|
    ensures Receive(j, Sent(j, items, fin, lock), []) ==
      if AllFit(items) && |j.marshal(fin)| <= MAX_BLOB
      then Acked(items, fin.lockPath, Some(lock)) else GaveUp
  {
    var cs := Sent(j, items, fin, lock);
    ReceiveCut(j, items, fin, lock, cs, |cs|, [], items);
    assert cs[..|cs|] == cs;
  }

  /** On every proper prefix of the stream it fails without ACKing. */
  lemma NeverAcksAPrefix(j: Format, items: seq<Item>, fin: Fin, lock: Fd, n: nat)
    requires Faithful(j, fin) && Sendable(j, items) && |j.marshal(fin)| < 0x1_0000_0000
    requires n < |Sent(j, items, fin, lock)|
    ensures Receive(j, Sent(j, items, fin, lock)[..n], []) == GaveUp
  {
    ReceiveCut(j, items, fin, lock, Sent(j, items, fin, lock), n, [], items);
  }

  // ── What is ACKed ───────────────────────────────────────────────────

  /** The stream goes on with this blob, its length first. */
  predicate BlobAt(cs: seq<Cell>, d: seq<byte>) {
    |d| <= MAX_BLOB && |cs| >= 4 + |d| && BytesOf(cs[..4 + |d|]) == U32(|d|) + d
  }

  lemma BytesOfParts(cs: seq<Cell>, n: nat)
    requires 4 + n <= |cs|
    ensures BytesOf(cs[..4 + n]) == BytesOf(cs[..4]) + BytesOf(cs[4..4 + n])
  {
  }

  lemma ReadBlobMeans(cs: seq<Cell>, d: seq<byte>)
    ensures BlobAt(cs, d) <==> ReadBlob(cs).Read? && ReadBlob(cs).data == d
    ensures BlobAt(cs, d) ==> ReadBlob(cs).rest == cs[4 + |d|..]
  {
    if BlobAt(cs, d) {
      U32RoundTrip(|d|);
      BytesOfParts(cs, |d|);
      assert (U32(|d|) + d)[..4] == U32(|d|) && (U32(|d|) + d)[4..] == d;
    }
    if ReadBlob(cs).Read? && ReadBlob(cs).data == d {
      FromU32RoundTrip(BytesOf(cs[..4]));
      BytesOfParts(cs, |d|);
    }
  }

  /** The first cell and two blobs are this session: no finale, and with a descriptor if it claims to be live. */
  predicate ItemAt(j: Format, cs: seq<Cell>, it: Item) {
    && cs != [] && cs[0].b != FINALE && cs[0].fd == it.ptmx && (cs[0].b == LIVE ==> it.ptmx.Some?)
    && j.stateOk(it.state) && BlobAt(cs[1..], it.state) && BlobAt(cs[5 + |it.state|..], it.ring)
  }

  function AfterItem(cs: seq<Cell>, it: Item): (rest: seq<Cell>)
    ensures |cs| >= 9 + |it.state| + |it.ring| ==> |rest| < |cs|
  {
    cs[Min(|cs|, 9 + |it.state| + |it.ring|)..]
  }

  /** The first cell and blob are this finale. */
  ghost predicate FinAt(j: Format, cs: seq<Cell>, fin: Fin, lock: Option<Fd>) {
    cs != [] && cs[0].b == FINALE && cs[0].fd == lock && exists d :: BlobAt(cs[1..], d) && j.unmarshal(d) == Some(fin)
  }

  /** The stream carries these sessions, and then this finale. */
  ghost predicate Carries(j: Format, cs: seq<Cell>, items: seq<Item>, fin: Fin, lock: Option<Fd>)
    decreases |items|
  {
    if items == [] then FinAt(j, cs, fin, lock)
    else ItemAt(j, cs, items[0]) && Carries(j, AfterItem(cs, items[0]), items[1..], fin, lock)
  }

  /** What the loop makes of a stream that goes on with a session. */
  lemma ReceiveItem(j: Format, cs: seq<Cell>, got: seq<Item>, it: Item)
    requires ItemAt(j, cs, it)
    ensures Receive(j, cs, got) == Receive(j, AfterItem(cs, it), got + [it])
  {
    var cs1 := cs[5 + |it.state|..];
    ReadBlobMeans(cs[1..], it.state);
    assert cs[1..][4 + |it.state|..] == cs1;
    ReadBlobMeans(cs1, it.ring);
    ItemEnds(cs, it, cs1);
    TwoBlobs(j, cs, got, it, cs1, AfterItem(cs, it));
  }

  lemma ItemEnds(cs: seq<Cell>, it: Item, cs1: seq<Cell>)
    requires |cs| >= 5 + |it.state| && cs1 == cs[5 + |it.state|..] && |cs1| >= 4 + |it.ring|
    ensures cs1[4 + |it.ring|..] == AfterItem(cs, it)
  {
  }

  lemma TwoBlobs(j: Format, cs: seq<Cell>, got: seq<Item>, it: Item, cs1: seq<Cell>, cs2: seq<Cell>)
    requires cs != [] && cs[0].b != FINALE && cs[0].fd == it.ptmx && (cs[0].b == LIVE ==> it.ptmx.Some?) && j.stateOk(it.state)
    requires ReadBlob(cs[1..]) == Read(it.state, cs1) && ReadBlob(cs1) == Read(it.ring, cs2)
    ensures Receive(j, cs, got) == Receive(j, cs2, got + [it])
  {
  }

  /** And the session it goes on with, if it does not give up. */
  lemma NextItem(j: Format, cs: seq<Cell>, got: seq<Item>) returns (it: Item)
    requires Receive(j, cs, got).Acked? && cs[0].b != FINALE
    ensures ItemAt(j, cs, it)
  {
    var state := ReadBlob(cs[1..]);
    var ring := ReadBlob(state.rest);
    it := Item(state.data, ring.data, cs[0].fd);
    ReadBlobMeans(cs[1..], state.data);
    assert cs[1..][4 + |it.state|..] == cs[5 + |it.state|..];
    ReadBlobMeans(cs[5 + |it.state|..], ring.data);
  }

  lemma ReceiveFin(j: Format, cs: seq<Cell>, got: seq<Item>, fin: Fin, lock: Option<Fd>)
    requires cs != [] && cs[0].b == FINALE && fin.count == |got|
    ensures Receive(j, cs, got) == Acked(got, fin.lockPath, lock) <==> FinAt(j, cs, fin, lock)
  {
    var r := ReadBlob(cs[1..]);
    if r.Read? {
      ReadBlobMeans(cs[1..], r.data);
    }
    forall d | BlobAt(cs[1..], d)
      ensures r.Read? && r.data == d
    {
      ReadBlobMeans(cs[1..], d);
    }
  }

  lemma {:induction false} ReceiveGrows(j: Format, cs: seq<Cell>, got: seq<Item>)
    requires Receive(j, cs, got).Acked?
    ensures got <= Receive(j, cs, got).items
    decreases |cs|
  {
    if cs[0].b != FINALE {
      var it := NextItem(j, cs, got);
      ReceiveItem(j, cs, got, it);
      ReceiveGrows(j, AfterItem(cs, it), got + [it]);
    }
  }

  lemma {:induction false} Accepts(j: Format, cs: seq<Cell>, got: seq<Item>, items: seq<Item>, all: seq<Item>, fin: Fin,
                                   lock: Option<Fd>)
    requires Carries(j, cs, items, fin, lock) && all == got + items && fin.count == |all|
    ensures Receive(j, cs, got) == Acked(all, fin.lockPath, lock)
    decreases |items|
  {
    if items == [] {
      ReceiveFin(j, cs, got, fin, lock);
    } else {
      ReceiveItem(j, cs, got, items[0]);
      MoveOver(got, items);
      Accepts(j, AfterItem(cs, items[0]), got + [items[0]], items[1..], all, fin, lock);
    }
  }

  lemma HeadOf(got: seq<Item>, it: Item, items: seq<Item>, all: seq<Item>)
    requires all == got + items && got + [it] <= all
    ensures items != [] && items[0] == it && all == (got + [it]) + items[1..]
  {
    assert all[|got|] == it;
  }

  lemma {:induction false} Accepted(j: Format, cs: seq<Cell>, got: seq<Item>, items: seq<Item>, all: seq<Item>,
                                    lockPath: seq<byte>, lock: Option<Fd>)
    requires Receive(j, cs, got) == Acked(all, lockPath, lock) && all == got + items
    ensures Carries(j, cs, items, Fin(|all|, lockPath), lock)
    decreases |cs|
  {
    if cs[0].b == FINALE {
      assert items == [];
      ReceiveFin(j, cs, got, Fin(|got|, lockPath), lock);
    } else {
      var it := NextItem(j, cs, got);
      ReceiveItem(j, cs, got, it);
      ReceiveGrows(j, AfterItem(cs, it), got + [it]);
      HeadOf(got, it, items, all);
      Accepted(j, AfterItem(cs, it), got + [it], items[1..], all, lockPath, lock);
    }
  }

  /**
   * Of any stream whatsoever: the receiver ACKs, with these sessions and this lock, if and only if the
   * stream carries exactly these sessions, each with a state that parses and a descriptor if it is
   * live, and then a finale that counts them.
   */
  lemma AcksIff(j: Format, cs: seq<Cell>, items: seq<Item>, lockPath: seq<byte>, lock: Option<Fd>)
    ensures Receive(j, cs, []) == Acked(items, lockPath, lock) <==> Carries(j, cs, items, Fin(|items|, lockPath), lock)
  {
    assert [] + items == items;
    if Carries(j, cs, items, Fin(|items|, lockPath), lock) {
      Accepts(j, cs, [], items, items, Fin(|items|, lockPath), lock);
    }
    if Receive(j, cs, []) == Acked(items, lockPath, lock) {
      Accepted(j, cs, [], items, items, lockPath, lock);
    }
  }

  method WriteItem(sent: seq<Cell>, it: Item) returns (out: seq<Cell>)
    ensures out == sent + SendItem(it)
  {
    var ctrl, fd := EXITED, None;
    if it.ptmx.Some? {
      ctrl, fd := LIVE, it.ptmx;
    }
    out := sent + [Cell(ctrl, fd)];
    out := out + Blob(it.state);
    out := out + Blob(it.ring);
  }

  lemma SendNext(out: seq<Cell>, items: seq<Item>)
    requires items != []
    ensures out + SendItems(items) == (out + SendItem(items[0])) + SendItems(items[1..])
  {
    var first, rest := SendItem(items[0]), SendItems(items[1..]);
    assert out + (first + rest) == (out + first) + rest;
  }

  /** The sending loop of performHandover, on a connection that keeps working. */
  method SendSessions(j: Format, items: seq<Item>, lockPath: seq<byte>, lock: Fd) returns (out: seq<Cell>)
    ensures out == Sent(j, items, Fin(|items|, lockPath), lock)
  {
    out := [];
    for i := 0 to |items|
      invariant out + SendItems(items[i..]) == SendItems(items)
    {
      assert items[i..][1..] == items[i + 1..];
      SendNext(out, items[i..]);
      out := WriteItem(out, items[i]);
    }
    assert items[|items|..] == [];
    assert out + [] == out;
    out := out + SendFin(j, Fin(|items|, lockPath), lock);
  }

  /** The receive loop of RequestTakeover as written. */
  method ReceiveSessions(j: Format, stream: seq<Cell>) returns (o: Outcome)
    ensures o == Receive(j, stream, [])
  {
    var cs, got := stream, [];
    while true
      invariant Receive(j, cs, got) == Receive(j, stream, [])
      decreases |cs|
    {
      if |cs| == 0 {
        return GaveUp;
      }
      var ctrl, file := cs[0].b, cs[0].fd;
      if ctrl == FINALE {
        var blob := ReadBlob(cs[1..]);
        if blob.Broken? {
          return GaveUp;
        }
        var fin := j.unmarshal(blob.data);
        if fin.None? || fin.value.count != |got| {
          return GaveUp;
        }
        return Acked(got, fin.value.lockPath, file);
      }
      var state := ReadBlob(cs[1..]);
      if state.Broken? {
        return GaveUp;
      }
      var ring := ReadBlob(state.rest);
      if ring.Broken? || !j.stateOk(state.data) || (ctrl == LIVE && file.None?) {
        return GaveUp;
      }
      cs, got := ring.rest, got + [Item(state.data, ring.data, file)];
    }
  }
}
