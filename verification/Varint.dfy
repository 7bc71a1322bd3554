/** encoding/binary's unsigned varints, as the session log uses them. */
module Varint {
  import opened Bytes

  /** binary.AppendUvarint. */
  function Uvarint(n: nat): (bs: seq<byte>)
    ensures bs != []
  {
    if n < 128 then [n] else [n % 128 + 128] + Uvarint(n / 128)
  }

  datatype VarResult = Val(n: nat, rest: seq<byte>) | Torn | Overflow

  /** binary.ReadUvarint from its i-th byte on: at most ten bytes, the tenth at most 1. */
  function ReadFrom(bs: seq<byte>, i: nat): VarResult
    decreases |bs|
  {
    if i >= 10 then Overflow
    else if bs == [] then Torn
    else if bs[0] < 128 then
      if i == 9 && bs[0] > 1 then Overflow else Val(bs[0], bs[1..])
    else
      match ReadFrom(bs[1..], i + 1)
      case Val(n, rest) =>
        var low: int := bs[0];
        Val(low - 128 + 128 * n, rest)
      case Torn => Torn
      case Overflow => Overflow
  }

  function ReadUvarint(bs: seq<byte>): VarResult { ReadFrom(bs, 0) }

  /** What still fits when i bytes have been used. */
  function Bound(i: nat): nat
    requires i <= 9
    decreases 9 - i
  {
    if i == 9 then 2 else 128 * Bound(i + 1)
  }

  lemma WholeBound()
    ensures Bound(0) == TWO_64
  {
    assert Bound(9) == 2 && Bound(8) == 0x100 && Bound(7) == 0x8000 && Bound(6) == 0x40_0000;
    assert Bound(5) == 0x2000_0000 && Bound(4) == 0x10_0000_0000 && Bound(3) == 0x800_0000_0000;
  }

  lemma {:induction false} RoundTripFrom(n: nat, rest: seq<byte>, i: nat)
    requires i <= 9 && n < Bound(i)
    ensures ReadFrom(Uvarint(n) + rest, i) == Val(n, rest)
  {
    var bs := Uvarint(n) + rest;
    if n < 128 {
      assert bs[1..] == rest;
    } else {
      assert bs[1..] == Uvarint(n / 128) + rest;
      RoundTripFrom(n / 128, rest, i + 1);
    }
  }

  /** Every 64-bit value survives. */
  lemma RoundTrip(n: nat, rest: seq<byte>)
    requires n < TWO_64
    ensures ReadUvarint(Uvarint(n) + rest) == Val(n, rest)
  {
    WholeBound();
    RoundTripFrom(n, rest, 0);
  }

  lemma {:induction false} TornFrom(n: nat, more: seq<byte>, k: nat, i: nat)
    requires i <= 9 && n < Bound(i) && k < |Uvarint(n)|
    ensures ReadFrom((Uvarint(n) + more)[..k], i) == Torn
  {
    if k > 0 {
      var bs := Uvarint(n) + more;
      assert bs[..k][1..] == (Uvarint(n / 128) + more)[..k - 1];
      TornFrom(n / 128, more, k - 1, i + 1);
    }
  }

  /** A varint that was cut short is recognised as such. */
  lemma CutIsTorn(n: nat, more: seq<byte>, k: nat)
    requires n < TWO_64 && k < |Uvarint(n)|
    ensures ReadUvarint((Uvarint(n) + more)[..k]) == Torn
  {
    WholeBound();
    TornFrom(n, more, k, 0);
  }

  // ── The format ──────────────────────────────────────────────────────

  /** Seven bits a byte, the least significant first. */
  function Groups(bs: seq<byte>): nat {
    if bs == [] then 0 else bs[0] % 128 + 128 * Groups(bs[1..])
  }

  /** A varint ends with its k-th byte: the first below 128. */
  ghost predicate EndsAt(bs: seq<byte>, k: nat) {
    k < |bs| && bs[k] < 128 && forall j :: 0 <= j < k ==> bs[j] >= 128
  }

  /** What is written: groups of the number, every byte but the last with its high bit set. */
  lemma {:induction false} UvarintIsGroups(n: nat)
    ensures Groups(Uvarint(n)) == n && EndsAt(Uvarint(n), |Uvarint(n)| - 1)
    ensures n >= 128 ==> Uvarint(n)[|Uvarint(n)| - 1] > 0
  {
    var bs := Uvarint(n);
    if n < 128 {
      assert bs[1..] == [];
    } else {
      UvarintIsGroups(n / 128);
      assert bs[1..] == Uvarint(n / 128);
      assert n / 128 >= 128 || Uvarint(n / 128) == [n / 128];
    }
  }

  lemma {:induction false} ReadFromMeans(bs: seq<byte>, i: nat, k: nat)
    requires EndsAt(bs, k)
    ensures ReadFrom(bs, i) ==
      if i + k < 9 || (i + k == 9 && bs[k] <= 1) then Val(Groups(bs[..k + 1]), bs[k + 1..]) else Overflow
    decreases |bs|
  {
    if k == 0 {
      assert bs[..1][1..] == [];
    } else if i < 10 {
      assert EndsAt(bs[1..], k - 1);
      ReadFromMeans(bs[1..], i + 1, k - 1);
      assert bs[..k + 1][1..] == bs[1..][..k] && bs[1..][k..] == bs[k + 1..];
    }
  }

  lemma {:induction false} ReadFromOpen(bs: seq<byte>, i: nat)
    requires forall j :: 0 <= j < |bs| ==> bs[j] >= 128
    ensures ReadFrom(bs, i) == if i + |bs| < 10 then Torn else Overflow
    decreases |bs|
  {
    if i < 10 && bs != [] {
      ReadFromOpen(bs[1..], i + 1);
    }
  }

  /**
   * What is read, of any bytes: the groups up to the first byte below 128, if that is within ten bytes
   * and 64 bits; torn if there is no such byte yet and ten have not come; an overflow otherwise.
   */
  lemma ReadMeans(bs: seq<byte>, k: nat)
    ensures EndsAt(bs, k) && (k < 9 || (k == 9 && bs[k] <= 1)) ==> ReadUvarint(bs) == Val(Groups(bs[..k + 1]), bs[k + 1..])
    ensures EndsAt(bs, k) && (k > 9 || (k == 9 && bs[k] > 1)) ==> ReadUvarint(bs) == Overflow
    ensures (forall j :: 0 <= j < |bs| ==> bs[j] >= 128) ==> ReadUvarint(bs) == (if |bs| < 10 then Torn else Overflow)
  {
    if EndsAt(bs, k) {
      ReadFromMeans(bs, 0, k);
    }
    if forall j :: 0 <= j < |bs| ==> bs[j] >= 128 {
      ReadFromOpen(bs, 0);
    }
  }
}
