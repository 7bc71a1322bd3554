/**
 * pkg/host/registry.go: ids, unique names, caps, and the two critical sections of Spawn.
 *
 * Every critical section of the registry is one step, so a run is a list of steps in any order.
 * Between Spawn's two sections the registry holds nil placeholders; `inflight` records, for each
 * spawn that is between them, the name its goroutine will store (the code keeps it in a local).
 */
module Registry {
  import opened Bytes

  const DEFAULT_RING_BYTES := 2 * 1024 * 1024

  datatype Slot = Placeholder | Registered(name: string)

  datatype Reg = Reg(
    byID: map<string, Slot>,
    byName: map<string, Option<string>>,
    ringByID: map<string, nat>,
    ringReserved: int,
    maxSessions: int,
    ringTotalCap: int,
    inflight: map<string, string>)

  datatype Error = InvalidName | LimitExceeded | NameTaken | Internal | SessionNotFound

  datatype Op =
    | Reserve(name: string, ringBytes: int, minted: Option<string>)
    | Commit(id: string)
    | Abort(id: string)
    | Adopt(adopted: string, itsName: string, ringLen: nat, ringCap: nat)
    | Rename(key: string, newName: string)
    | Remove(removed: string)

  predicate LowerHex(c: char) { '0' <= c <= '9' || 'a' <= c <= 'f' }

  predicate Alnum(c: char) { '0' <= c <= '9' || 'a' <= c <= 'z' || 'A' <= c <= 'Z' }

  /** ids.Validate(s, "ses") == nil: "ses_", 32 lower-case hex digits, UUID version 7. */
  predicate IdShaped(s: string) {
    |s| == 36 && s[..4] == "ses_" && (forall i :: 4 <= i < 36 ==> LowerHex(s[i])) && s[16] == '7'
  }

  /** nameRe. */
  predicate NameOk(s: string) {
    1 <= |s| <= 64 && Alnum(s[0])
    && forall i :: 1 <= i < |s| ==> Alnum(s[i]) || s[i] == '.' || s[i] == '_' || s[i] == '-'
  }

  function RingBytes(requested: int): nat { if requested <= 0 then DEFAULT_RING_BYTES else requested }

  // ── The steps ───────────────────────────────────────────────────────

  function ReserveRefusal(r: Reg, name: string, ringBytes: int, minted: Option<string>): Option<Error> {
    if name != "" && !NameOk(name) then Some(InvalidName)
    else if |r.byID| >= r.maxSessions then Some(LimitExceeded)
    else if r.ringReserved + RingBytes(ringBytes) > r.ringTotalCap then Some(LimitExceeded)
    else if name != "" && name in r.byName then Some(NameTaken)
    else if minted.None? then Some(Internal)
    else None
  }

  function DoReserve(r: Reg, name: string, ring: nat, id: string): Reg {
    r.(byID := r.byID[id := Placeholder],
       byName := if name == "" then r.byName else r.byName[name := None],
       ringReserved := r.ringReserved + ring,
       ringByID := r.ringByID[id := ring],
       inflight := r.inflight[id := name])
  }

  function DoCommit(r: Reg, id: string): Reg
    requires id in r.inflight
  {
    var name := r.inflight[id];
    r.(byID := r.byID[id := Registered(name)],
       byName := if name == "" then r.byName else r.byName[name := Some(id)],
       inflight := r.inflight - {id})
  }

  /** Without an id, its ring memory, and the name that goes with it. */
  function Released(r: Reg, id: string, name: string): Reg {
    r.(byID := r.byID - {id},
       byName := if name == "" then r.byName else r.byName - {name},
       ringReserved := r.ringReserved - (if id in r.ringByID then r.ringByID[id] else 0),
       ringByID := r.ringByID - {id})
  }

  function DoAbort(r: Reg, id: string): Reg
    requires id in r.inflight
  {
    Released(r, id, r.inflight[id]).(inflight := r.inflight - {id})
  }

  function AdoptRefusal(r: Reg, id: string, name: string): Option<Error> {
    if id in r.byID then Some(Internal)
    else if name != "" && name in r.byName then Some(NameTaken)
    else None
  }

  function DoAdopt(r: Reg, id: string, name: string, ring: nat): Reg {
    r.(byID := r.byID[id := Registered(name)],
       byName := if name == "" then r.byName else r.byName[name := Some(id)],
       ringReserved := r.ringReserved + ring,
       ringByID := r.ringByID[id := ring])
  }

  /** What byID (for an id-shaped key) or byName holds under a key: a session, or nothing. */
  function Lookup(r: Reg, key: string): Option<string> {
    if IdShaped(key) then
      if key in r.byID && r.byID[key].Registered? then Some(key) else None
    else if key in r.byName then r.byName[key] else None
  }

  function RenameRefusal(r: Reg, key: string, newName: string): Option<Error> {
    if newName != "" && !NameOk(newName) then Some(InvalidName)
    else if Lookup(r, key).None? then Some(SessionNotFound)
    else if newName != "" && newName in r.byName && r.byName[newName] != Lookup(r, key) then Some(NameTaken)
    else None
  }

  function NameOf(r: Reg, id: string): string {
    if id in r.byID && r.byID[id].Registered? then r.byID[id].name else ""
  }

  function DoRename(r: Reg, id: string, newName: string): Reg {
    var was := NameOf(r, id);
    var cleared := if was == "" then r.byName else r.byName - {was};
    r.(byID := r.byID[id := Registered(newName)],
       byName := if newName == "" then cleared else cleared[newName := Some(id)])
  }

  function DoRemove(r: Reg, id: string): Reg {
    if id !in r.byID then r else Released(r, id, NameOf(r, id))
  }

  function Refusal(r: Reg, op: Op): Option<Error> {
    match op
    case Reserve(name, ring, minted) => ReserveRefusal(r, name, ring, minted)
    case Adopt(id, name, _, _) => AdoptRefusal(r, id, name)
    case Rename(key, newName) => RenameRefusal(r, key, newName)
    case _ => None
  }

  /** A minted id is new and id-shaped; a spawn finishes once; an adopted id was minted once. */
  predicate Legal(r: Reg, op: Op) {
    match op
    case Reserve(_, _, minted) => minted.Some? ==> IdShaped(minted.value) && minted.value !in r.byID
    case Commit(id) => id in r.inflight
    case Abort(id) => id in r.inflight
    case Adopt(id, _, _, _) => IdShaped(id)
    case Rename(_, _) => true
    case Remove(id) => id !in r.inflight // callers pass ids that List returned
  }

  function Apply(r: Reg, op: Op): Reg
    requires Legal(r, op)
  {
    if Refusal(r, op).Some? then r
    else
      match op
      case Reserve(name, ring, minted) => DoReserve(r, name, RingBytes(ring), minted.value)
      case Commit(id) => DoCommit(r, id)
      case Abort(id) => DoAbort(r, id)
      case Adopt(id, name, len, cap) => DoAdopt(r, id, name, Max(len, cap))
      case Rename(key, newName) => DoRename(r, Lookup(r, key).value, newName)
      case Remove(id) => DoRemove(r, id)
  }

  ghost predicate LegalRun(r: Reg, ops: seq<Op>) {
    ops == [] || (LegalRun(r, ops[..|ops| - 1]) && Legal(Run(r, ops[..|ops| - 1]), ops[|ops| - 1]))
  }

  ghost function Run(r: Reg, ops: seq<Op>): Reg {
    if ops == [] then r
    else
      var before := Run(r, ops[..|ops| - 1]);
      if Legal(before, ops[|ops| - 1]) then Apply(before, ops[|ops| - 1]) else before
  }

  function Empty(maxSessions: int, ringTotalCap: int): Reg {
    Reg(map[], map[], map[], 0, maxSessions, ringTotalCap, map[])
  }

  // ── Sums over a finite map ──────────────────────────────────────────

  ghost function Sum(m: map<string, nat>): nat
    decreases |m|
  {
    if m == map[] then 0 else var k :| k in m; m[k] + Sum(m - {k})
  }

  lemma {:induction false} SumWithout(m: map<string, nat>, k: string)
    requires k in m
    ensures Sum(m) == m[k] + Sum(m - {k})
    decreases |m|
  {
    var j :| j in m && Sum(m) == m[j] + Sum(m - {j});
    if j != k {
      SumWithout(m - {j}, k);
      SumWithout(m - {k}, j);
      assert m - {j} - {k} == m - {k} - {j};
    }
  }

  lemma SumWith(m: map<string, nat>, k: string, v: nat)
    requires k !in m
    ensures Sum(m[k := v]) == Sum(m) + v
  {
    SumWithout(m[k := v], k);
    assert m[k := v] - {k} == m;
  }

  // ── What every run keeps ────────────────────────────────────────────

  /** The name index and the sessions agree. */
  ghost predicate IndexOk(byID: map<string, Slot>, byName: map<string, Option<string>>) {
    && (forall n :: n in byName && byName[n].Some? ==> byName[n].value in byID && byID[byName[n].value] == Registered(n))
    && (forall id :: id in byID && byID[id].Registered? && byID[id].name != "" ==>
         byID[id].name in byName && byName[byID[id].name] == Some(id))
  }

  /** A name without a session is the reservation of exactly one spawn. */
  ghost predicate ReservedOk(byName: map<string, Option<string>>, inflight: map<string, string>) {
    && "" !in byName
    && (forall n :: n in byName && byName[n].None? ==> exists id :: id in inflight && inflight[id] == n)
    && (forall id :: id in inflight && inflight[id] != "" ==>
         inflight[id] in byName && byName[inflight[id]] == None)
    && (forall i, j :: i in inflight && j in inflight && inflight[i] == inflight[j] != "" ==> i == j)
  }

  /** Placeholders are exactly the spawns in flight. */
  ghost predicate SlotsOk(byID: map<string, Slot>, inflight: map<string, string>) {
    && (forall id :: id in inflight ==> id in byID && byID[id].Placeholder?)
    && (forall id :: id in byID ==> IdShaped(id) && (byID[id].Placeholder? ==> id in inflight))
  }

  ghost predicate RingsOk(r: Reg) { r.ringByID.Keys == r.byID.Keys && r.ringReserved == Sum(r.ringByID) }

  ghost predicate RegOk(r: Reg) {
    IndexOk(r.byID, r.byName) && ReservedOk(r.byName, r.inflight) && SlotsOk(r.byID, r.inflight) && RingsOk(r)
  }

  lemma PutRing(r: Reg, s: Reg, id: string, ring: nat)
    requires RingsOk(r) && id !in r.byID && s.byID.Keys == r.byID.Keys + {id}
    requires s.ringByID == r.ringByID[id := ring] && s.ringReserved == r.ringReserved + ring
    ensures RingsOk(s)
  {
    SumWith(r.ringByID, id, ring);
  }

  lemma ReserveKeeps(r: Reg, name: string, ring: nat, id: string)
    requires RegOk(r) && id !in r.byID && IdShaped(id) && name !in r.byName
    ensures RegOk(DoReserve(r, name, ring, id))
  {
    PutRing(r, DoReserve(r, name, ring, id), id, ring);
    NewReservation(r.byName, r.inflight, id, name);
  }

  lemma NewReservation(byName: map<string, Option<string>>, inflight: map<string, string>, id: string, name: string)
    requires ReservedOk(byName, inflight) && id !in inflight && name !in byName
    ensures ReservedOk(if name == "" then byName else byName[name := None], inflight[id := name])
  {
    var after := inflight[id := name];
    assert id in after && after[id] == name;
    forall n | n in byName && byName[n].None?
      ensures exists i :: i in after && after[i] == n
    {
      var i :| i in inflight && inflight[i] == n;
      assert i in after && after[i] == n;
    }
  }

  /** A spawn that ends gives up its reservation: the name goes, or gets its session. */
  lemma EndedReservation(byName: map<string, Option<string>>, inflight: map<string, string>, id: string,
                         byName': map<string, Option<string>>)
    requires ReservedOk(byName, inflight) && id in inflight && "" !in byName'
    requires byName'.Keys <= byName.Keys && forall n :: n in byName && n != inflight[id] ==> n in byName' && byName'[n] == byName[n]
    requires inflight[id] in byName' ==> byName'[inflight[id]].Some?
    ensures ReservedOk(byName', inflight - {id})
  {
    var after := inflight - {id};
    forall n | n in byName' && byName'[n].None?
      ensures exists i :: i in after && after[i] == n
    {
      var i :| i in inflight && inflight[i] == n;
      assert i in after && after[i] == n;
    }
  }

  lemma CommitKeeps(r: Reg, id: string)
    requires RegOk(r) && id in r.inflight
    ensures RegOk(DoCommit(r, id))
  {
    var s := DoCommit(r, id);
    EndedReservation(r.byName, r.inflight, id, s.byName);
    assert s.byID.Keys == r.byID.Keys;
  }

  lemma AbortKeeps(r: Reg, id: string)
    requires RegOk(r) && id in r.inflight
    ensures RegOk(DoAbort(r, id))
  {
    SumWithout(r.ringByID, id);
    EndedReservation(r.byName, r.inflight, id, DoAbort(r, id).byName);
  }

  /** Reservations do not care about names that have sessions. */
  lemma OtherNames(byName: map<string, Option<string>>, inflight: map<string, string>, byName': map<string, Option<string>>)
    requires ReservedOk(byName, inflight) && "" !in byName'
    requires forall n :: (n in byName && byName[n].None?) <==> (n in byName' && byName'[n].None?)
    ensures ReservedOk(byName', inflight)
  {
  }

  lemma AdoptKeeps(r: Reg, id: string, name: string, ring: nat)
    requires RegOk(r) && AdoptRefusal(r, id, name).None? && IdShaped(id)
    ensures RegOk(DoAdopt(r, id, name, ring))
  {
    var s := DoAdopt(r, id, name, ring);
    PutRing(r, s, id, ring);
    assert name != "" ==> name !in r.byName;
    OtherNames(r.byName, r.inflight, s.byName);
    PutIndex(r.byID, r.byName, id, name, s.byID, s.byName);
    PutSlot(r.byID, r.inflight, id, name, s.byID);
  }

  lemma PutIndex(byID: map<string, Slot>, byName: map<string, Option<string>>, id: string, name: string,
                 byID': map<string, Slot>, byName': map<string, Option<string>>)
    requires IndexOk(byID, byName) && id !in byID && (name != "" ==> name !in byName)
    requires byID' == byID[id := Registered(name)] && byName' == if name == "" then byName else byName[name := Some(id)]
    ensures IndexOk(byID', byName')
  {
  }

  lemma PutSlot(byID: map<string, Slot>, inflight: map<string, string>, id: string, name: string,
                byID': map<string, Slot>)
    requires SlotsOk(byID, inflight) && id !in byID && IdShaped(id) && byID' == byID[id := Registered(name)]
    ensures SlotsOk(byID', inflight)
  {
    assert id !in inflight;
  }

  lemma RenameKeeps(r: Reg, key: string, newName: string)
    requires RegOk(r) && RenameRefusal(r, key, newName).None?
    ensures RegOk(DoRename(r, Lookup(r, key).value, newName))
  {
    var id := Lookup(r, key).value;
    assert id in r.byID && r.byID[id].Registered? && id !in r.inflight;
    RenameIndex(r, id, newName);
    RenameReserved(r, id, newName);
    assert DoRename(r, id, newName).byID.Keys == r.byID.Keys;
  }

  lemma RenameIndex(r: Reg, id: string, newName: string)
    requires IndexOk(r.byID, r.byName) && "" !in r.byName && id in r.byID && r.byID[id].Registered?
    requires newName == "" || newName !in r.byName || r.byName[newName] == Some(id)
    ensures IndexOk(DoRename(r, id, newName).byID, DoRename(r, id, newName).byName)
  {
  }

  lemma RenameReserved(r: Reg, id: string, newName: string)
    requires IndexOk(r.byID, r.byName) && ReservedOk(r.byName, r.inflight) && id in r.byID && r.byID[id].Registered?
    requires newName == "" || newName !in r.byName || r.byName[newName] == Some(id)
    ensures ReservedOk(DoRename(r, id, newName).byName, r.inflight)
  {
    OtherNames(r.byName, r.inflight, DoRename(r, id, newName).byName);
  }

  lemma RemoveKeeps(r: Reg, id: string)
    requires RegOk(r) && id !in r.inflight
    ensures RegOk(DoRemove(r, id))
  {
    if id in r.byID {
      SumWithout(r.ringByID, id);
      OtherNames(r.byName, r.inflight, DoRemove(r, id).byName);
    }
  }

  lemma SpawnKeeps(r: Reg, op: Op)
    requires RegOk(r) && Legal(r, op) && Refusal(r, op).None? && (op.Reserve? || op.Commit? || op.Abort?)
    ensures RegOk(Apply(r, op))
  {
    if op.Reserve? {
      assert op.name !in r.byName;
      ReserveKeeps(r, op.name, RingBytes(op.ringBytes), op.minted.value);
    } else if op.Commit? {
      CommitKeeps(r, op.id);
    } else {
      AbortKeeps(r, op.id);
    }
  }

  lemma StepKeeps(r: Reg, op: Op)
    requires RegOk(r) && Legal(r, op)
    ensures RegOk(Apply(r, op))
  {
    if Refusal(r, op).None? {
      if op.Adopt? {
        AdoptKeeps(r, op.adopted, op.itsName, Max(op.ringLen, op.ringCap));
      } else if op.Rename? {
        RenameKeeps(r, op.key, op.newName);
      } else if op.Remove? {
        RemoveKeeps(r, op.removed);
      } else {
        SpawnKeeps(r, op);
      }
    }
  }

  /**
   * Over every interleaving: the reserved ring memory is the sum of the reservations, every name in
   * the index is one spawn's reservation or names the one session that bears it, and every named
   * session is in the index.
   */
  lemma {:induction false} RunKeeps(r: Reg, ops: seq<Op>)
    requires RegOk(r) && LegalRun(r, ops)
    ensures RegOk(Run(r, ops))
  {
    if ops != [] {
      RunKeeps(r, ops[..|ops| - 1]);
      StepKeeps(Run(r, ops[..|ops| - 1]), ops[|ops| - 1]);
    }
  }

  /** Remove drops a placeholder's reservations but not its spawn: only listed sessions may be removed. */
  lemma RemoveKeepsIffListed(r: Reg, id: string)
    requires RegOk(r)
    ensures RegOk(DoRemove(r, id)) <==> id !in r.inflight
  {
    if id in r.inflight {
      assert id !in DoRemove(r, id).byID;
    } else {
      RemoveKeeps(r, id);
    }
  }

  lemma EmptyOk(maxSessions: int, ringTotalCap: int)
    ensures RegOk(Empty(maxSessions, ringTotalCap))
  {
    assert Sum(map[]) == 0;
  }

  predicate WithinCaps(r: Reg) { |r.byID| <= r.maxSessions && r.ringReserved <= r.ringTotalCap }

  lemma SlotsPut(m: map<string, Slot>, id: string, slot: Slot)
    ensures |m[id := slot]| == |m| + (if id in m then 0 else 1)
  {
    assert m[id := slot].Keys == m.Keys + {id};
  }

  lemma SlotsDrop(m: map<string, Slot>, id: string)
    ensures |m - {id}| <= |m|
  {
    assert (m - {id}).Keys == m.Keys - {id};
  }

  lemma FinishWithinCaps(r: Reg, op: Op)
    requires SlotsOk(r.byID, r.inflight) && WithinCaps(r) && Legal(r, op) && (op.Commit? || op.Abort?)
    ensures WithinCaps(Apply(r, op))
  {
    SlotsPut(r.byID, op.id, Registered(r.inflight[op.id]));
    SlotsDrop(r.byID, op.id);
  }

  lemma RenameWithinCaps(r: Reg, op: Op)
    requires IndexOk(r.byID, r.byName) && WithinCaps(r) && op.Rename? && Refusal(r, op).None?
    ensures WithinCaps(Apply(r, op))
  {
    var id := Lookup(r, op.key).value;
    assert id in r.byID;
    SlotsPut(r.byID, id, Registered(op.newName));
  }

  lemma ReserveWithinCaps(r: Reg, op: Op)
    requires WithinCaps(r) && Legal(r, op) && op.Reserve? && Refusal(r, op).None?
    ensures WithinCaps(Apply(r, op))
  {
    SlotsPut(r.byID, op.minted.value, Placeholder);
  }

  lemma StepWithinCaps(r: Reg, op: Op)
    requires RegOk(r) && WithinCaps(r) && Legal(r, op) && !op.Adopt?
    ensures WithinCaps(Apply(r, op))
  {
    if op.Commit? || op.Abort? {
      FinishWithinCaps(r, op);
    } else if Refusal(r, op).None? {
      if op.Reserve? {
        ReserveWithinCaps(r, op);
      } else if op.Rename? {
        RenameWithinCaps(r, op);
      } else {
        SlotsDrop(r.byID, op.removed);
      }
    }
  }

  /** Without adoption no interleaving exceeds the session cap or the ring memory cap. */
  lemma {:induction false} RunWithinCaps(r: Reg, ops: seq<Op>)
    requires RegOk(r) && WithinCaps(r) && LegalRun(r, ops)
    requires forall i :: 0 <= i < |ops| ==> !ops[i].Adopt?
    ensures WithinCaps(Run(r, ops))
  {
    if ops != [] {
      RunWithinCaps(r, ops[..|ops| - 1]);
      RunKeeps(r, ops[..|ops| - 1]);
      StepWithinCaps(Run(r, ops[..|ops| - 1]), ops[|ops| - 1]);
    }
  }

  /** From the start: every legal run of an empty registry is sound, and within its caps if it adopts nothing. */
  lemma EveryRunIsSound(maxSessions: nat, ringTotalCap: nat, ops: seq<Op>)
    requires LegalRun(Empty(maxSessions, ringTotalCap), ops)
    ensures var r := Run(Empty(maxSessions, ringTotalCap), ops);
      RegOk(r) && ((forall i :: 0 <= i < |ops| ==> !ops[i].Adopt?) ==> WithinCaps(r))
  {
    var empty := Empty(maxSessions, ringTotalCap);
    EmptyOk(maxSessions, ringTotalCap);
    RunKeeps(empty, ops);
    if forall i :: 0 <= i < |ops| ==> !ops[i].Adopt? {
      RunWithinCaps(empty, ops);
    }
  }

  // ── Names ───────────────────────────────────────────────────────────

  predicate Named(r: Reg, id: string, name: string) { id in r.byID && r.byID[id] == Registered(name) }

  /** A name is one session's, and no session's while a spawn holds it. */
  lemma NamesAreUnique(r: Reg, name: string, a: string, b: string)
    requires RegOk(r) && name != "" && Named(r, a, name)
    ensures Named(r, b, name) ==> a == b
    ensures b in r.inflight ==> r.inflight[b] != name
  {
    assert r.byName[name] == Some(a);
  }

  /** Lookup never returns a placeholder: what it returns is registered under that id or that name. */
  lemma LookupIsRegistered(r: Reg, key: string)
    requires RegOk(r) && Lookup(r, key).Some?
    ensures var id := Lookup(r, key).value;
      id in r.byID && id !in r.inflight && r.byID[id].Registered? && (id == key || r.byID[id].name == key)
  {
  }

  /** Every registered session is found by its id. */
  lemma LookupById(r: Reg, id: string)
    requires RegOk(r)
    ensures Lookup(r, id) == Some(id) <==> id in r.byID && id !in r.inflight
  {
    if Lookup(r, id) == Some(id) {
      LookupIsRegistered(r, id);
    }
  }

  /**
   * And by its name exactly when the name cannot be taken for an id: nameRe admits names of an id's
   * shape, and such a name finds only the session whose id it is.
   */
  lemma LookupByNameIff(r: Reg, id: string, name: string)
    requires RegOk(r) && name != "" && Named(r, id, name)
    ensures Lookup(r, name) == Some(id) <==> !IdShaped(name) || name == id
  {
  }

  lemma AnIdShapedName() returns (s: string)
    ensures IdShaped(s) && NameOk(s)
  {
    s := "ses_" + seq(12, _ => '0') + "7" + seq(19, _ => '0');
    assert s[..4] == "ses_" && s[0] == 's' && s[16] == '7';
    forall i | 4 <= i < 36
      ensures LowerHex(s[i]) && Alnum(s[i])
    {
      assert s[i] == '0' || s[i] == '7';
    }
    assert forall i :: 1 <= i < 4 ==> Alnum(s[i]) || s[i] == '_';
  }

  // ── What each operation does ────────────────────────────────────────

  /** The same but for one id, its ring memory, and some names. */
  ghost predicate SameButFor(r: Reg, s: Reg, id: string, names: set<string>) {
    && (forall i :: i != id ==> (i in s.byID <==> i in r.byID) && (i in r.byID ==> s.byID[i] == r.byID[i]))
    && (forall i :: i != id ==> (i in s.ringByID <==> i in r.ringByID) && (i in r.ringByID ==> s.ringByID[i] == r.ringByID[i]))
    && (forall i :: i != id ==> (i in s.inflight <==> i in r.inflight) && (i in r.inflight ==> s.inflight[i] == r.inflight[i]))
    && (forall n :: n !in names ==> (n in s.byName <==> n in r.byName) && (n in r.byName ==> s.byName[n] == r.byName[n]))
    && s.maxSessions == r.maxSessions && s.ringTotalCap == r.ringTotalCap
  }

  /** Nobody bears the name, and no spawn has reserved it. */
  ghost predicate Free(r: Reg, name: string) {
    (forall i :: !Named(r, i, name)) && (forall i :: i in r.inflight ==> r.inflight[i] != name)
  }

  lemma FreeIff(r: Reg, name: string)
    requires RegOk(r) && name != ""
    ensures Free(r, name) <==> name !in r.byName
  {
    if name in r.byName && r.byName[name].Some? {
      assert Named(r, r.byName[name].value, name);
    }
  }

  /** A session of this id and this name is registered, and found under both, unless the name is taken for another id. */
  ghost predicate Found(r: Reg, id: string, name: string) {
    && Named(r, id, name) && Lookup(r, id) == Some(id)
    && (name != "" && !IdShaped(name) ==> Lookup(r, name) == Some(id))
  }

  /** A rename that is not refused: the session is found under its new name, its old one is free, and nothing else changes. */
  lemma RenameTakesEffect(r: Reg, key: string, newName: string, s: Reg, id: string, was: string)
    requires RegOk(r) && Refusal(r, Rename(key, newName)).None? && s == Apply(r, Rename(key, newName))
    requires Lookup(r, key) == Some(id) && Named(r, id, was)
    ensures Found(s, id, newName) && (was != "" && was != newName ==> Free(s, was))
    ensures SameButFor(r, s, id, {was, newName})
    ensures s.ringByID == r.ringByID && s.ringReserved == r.ringReserved && s.inflight == r.inflight
  {
    RenameKeeps(r, key, newName);
    assert NameOf(r, id) == was && IdShaped(id);
    if was != "" && was != newName {
      FreeIff(s, was);
    }
  }

  /** And it is refused exactly for a bad name, an unknown session, or a name somebody else has. */
  lemma RenameSucceedsIff(r: Reg, key: string, newName: string)
    requires RegOk(r)
    ensures Refusal(r, Rename(key, newName)).None? <==>
      && (newName != "" ==> NameOk(newName)) && Lookup(r, key).Some?
      && (newName != "" ==> Free(r, newName) || Named(r, Lookup(r, key).value, newName))
    ensures Refusal(r, Rename(key, newName)) == Some(InvalidName) <==> newName != "" && !NameOk(newName)
    ensures Refusal(r, Rename(key, newName)) == Some(SessionNotFound) <==> (newName != "" ==> NameOk(newName)) && Lookup(r, key).None?
    ensures Refusal(r, Rename(key, newName)).Some? ==> Refusal(r, Rename(key, newName)).value in {InvalidName, SessionNotFound, NameTaken}
  {
    if newName != "" && Lookup(r, key).Some? {
      FreeIff(r, newName);
      assert newName in r.byName && r.byName[newName].Some? ==> Named(r, r.byName[newName].value, newName);
    }
  }

  /** An adopted session is found, holds the ring memory it came with, and nothing else changes; only a known id or a taken name is refused. */
  lemma AdoptTakesEffect(r: Reg, id: string, name: string, ringLen: nat, ringCap: nat, s: Reg)
    requires RegOk(r) && IdShaped(id) && s == Apply(r, Adopt(id, name, ringLen, ringCap))
    ensures Refusal(r, Adopt(id, name, ringLen, ringCap)).None? <==> id !in r.byID && (name != "" ==> Free(r, name))
    ensures Refusal(r, Adopt(id, name, ringLen, ringCap)) == Some(Internal) <==> id in r.byID
    ensures id !in r.byID && (name != "" ==> Free(r, name)) ==>
      && Found(s, id, name) && SameButFor(r, s, id, {name}) && id in s.ringByID
      && s.ringByID[id] == Max(ringLen, ringCap) && s.ringReserved == r.ringReserved + s.ringByID[id]
  {
    if name != "" {
      FreeIff(r, name);
    }
  }

  /** A removed session is found no more, its name is free, and its ring memory is given back. */
  lemma RemoveTakesEffect(r: Reg, id: string, name: string, s: Reg)
    requires RegOk(r) && Named(r, id, name) && Legal(r, Remove(id)) && s == Apply(r, Remove(id))
    ensures id !in s.byID && Lookup(s, id).None? && (name != "" ==> Free(s, name))
    ensures SameButFor(r, s, id, {name}) && id !in s.ringByID && s.ringReserved == r.ringReserved - r.ringByID[id]
  {
    RemoveKeeps(r, id);
    if name != "" {
      FreeIff(s, name);
    }
  }

  /** A spawn may begin exactly if its name is good and free, and there is room for a session and for its ring. */
  lemma SpawnSucceedsIff(r: Reg, name: string, ringBytes: int, minted: Option<string>)
    requires RegOk(r)
    ensures Refusal(r, Reserve(name, ringBytes, minted)).None? <==>
      && minted.Some? && (name != "" ==> NameOk(name) && Free(r, name))
      && |r.byID| < r.maxSessions
      && r.ringReserved + (if ringBytes <= 0 then DEFAULT_RING_BYTES else ringBytes) <= r.ringTotalCap
    ensures Refusal(r, Reserve(name, ringBytes, minted)) == Some(InvalidName) <==> name != "" && !NameOk(name)
    ensures Refusal(r, Reserve(name, ringBytes, minted)) == Some(LimitExceeded) <==>
      && (name != "" ==> NameOk(name))
      && (|r.byID| >= r.maxSessions || r.ringReserved + (if ringBytes <= 0 then DEFAULT_RING_BYTES else ringBytes) > r.ringTotalCap)
    ensures Refusal(r, Reserve(name, ringBytes, minted)) == Some(NameTaken) ==> !Free(r, name)
    ensures Refusal(r, Reserve(name, ringBytes, minted)) == Some(Internal) ==> minted.None?
  {
    if name != "" {
      FreeIff(r, name);
    }
  }

  /**
   * Its first section holds its id, name and ring memory, with nothing to be found yet; its second makes
   * the session found, and changes nothing else.
   */
  lemma SpawnTakesEffect(r: Reg, name: string, ringBytes: int, id: string, s: Reg, t: Reg)
    requires RegOk(r) && Legal(r, Reserve(name, ringBytes, Some(id))) && Refusal(r, Reserve(name, ringBytes, Some(id))).None?
    requires s == Apply(r, Reserve(name, ringBytes, Some(id))) && Legal(s, Commit(id)) && t == Apply(s, Commit(id))
    ensures Lookup(s, id).None? && (name != "" ==> !Free(s, name)) && (name != "" && !IdShaped(name) ==> Lookup(s, name).None?)
    ensures id in s.ringByID && s.ringByID[id] == (if ringBytes <= 0 then DEFAULT_RING_BYTES else ringBytes)
    ensures s.ringReserved == r.ringReserved + s.ringByID[id]
    ensures SameButFor(r, s, id, {name}) && SameButFor(s, t, id, {name})
    ensures Found(t, id, name) && t.ringByID == s.ringByID && t.ringReserved == s.ringReserved
  {
  }

  /** Only adoption brings in a name that nameRe does not admit. */
  ghost predicate NamesOk(r: Reg) { forall n :: n in r.byName ==> NameOk(n) }

  lemma StepKeepsNames(r: Reg, op: Op)
    requires RegOk(r) && NamesOk(r) && Legal(r, op) && !op.Adopt?
    ensures NamesOk(Apply(r, op))
  {
  }

  lemma {:induction false} RunKeepsNames(r: Reg, ops: seq<Op>)
    requires RegOk(r) && NamesOk(r) && LegalRun(r, ops) && forall i :: 0 <= i < |ops| ==> !ops[i].Adopt?
    ensures NamesOk(Run(r, ops))
  {
    if ops != [] {
      RunKeeps(r, ops[..|ops| - 1]);
      RunKeepsNames(r, ops[..|ops| - 1]);
      StepKeepsNames(Run(r, ops[..|ops| - 1]), ops[|ops| - 1]);
    }
  }

  // ── Races between spawns ────────────────────────────────────────────

  predicate Finishes(op: Op, id: string) { op == Commit(id) || op == Abort(id) }

  lemma StepKeepsReservation(r: Reg, op: Op, id: string)
    requires RegOk(r) && Legal(r, op) && id in r.inflight && !Finishes(op, id)
    ensures id in Apply(r, op).inflight && Apply(r, op).inflight[id] == r.inflight[id]
  {
  }

  lemma {:induction false} ReservationHolds(r: Reg, ops: seq<Op>, id: string)
    requires RegOk(r) && LegalRun(r, ops) && id in r.inflight
    requires forall i :: 0 <= i < |ops| ==> !Finishes(ops[i], id)
    ensures id in Run(r, ops).inflight && Run(r, ops).inflight[id] == r.inflight[id]
  {
    if ops != [] {
      RunKeeps(r, ops[..|ops| - 1]);
      ReservationHolds(r, ops[..|ops| - 1], id);
      StepKeepsReservation(Run(r, ops[..|ops| - 1]), ops[|ops| - 1], id);
    }
  }

  /**
   * While one spawn is between its two sections, whatever else happens meanwhile: nobody else gets
   * its name, nobody finds it, and its second section registers exactly the session it reserved for.
   */
  lemma RacingSpawnWins(r: Reg, ops: seq<Op>, id: string, other: Op)
    requires RegOk(r) && LegalRun(r, ops) && id in r.inflight && r.inflight[id] != ""
    requires forall i :: 0 <= i < |ops| ==> !Finishes(ops[i], id)
    ensures var now, name := Run(r, ops), r.inflight[id];
      && (other.Reserve? && other.name == name ==> Refusal(now, other).Some?)
      && (other.Adopt? && other.itsName == name ==> Refusal(now, other).Some?)
      && (other.Rename? && other.newName == name ==> Refusal(now, other).Some?)
      && Lookup(now, id).None? && (!IdShaped(name) ==> Lookup(now, name).None?)
      && Legal(now, Commit(id)) && Named(Apply(now, Commit(id)), id, name)
  {
    RunKeeps(r, ops);
    ReservationHolds(r, ops, id);
    assert IdShaped(id);
  }

  lemma PutAndDrop<V>(m: map<string, V>, k: string, v: V, w: V)
    requires k !in m
    ensures m[k := v] - {k} == m && m[k := v][k := w] - {k} == m
  {
  }

  /** An aborted spawn, and a session spawned and then removed, leave the registry as it was. */
  lemma FailedSpawnLeavesNothing(r: Reg, name: string, ring: nat, id: string)
    requires id !in r.byID && id !in r.inflight && id !in r.ringByID && "" !in r.byName
    requires name !in r.byName
    ensures DoAbort(DoReserve(r, name, ring, id), id) == r
    ensures DoRemove(DoCommit(DoReserve(r, name, ring, id), id), id) == r
  {
    PutAndDrop(r.byID, id, Placeholder, Registered(name));
    PutAndDrop(r.ringByID, id, ring, ring);
    PutAndDrop(r.inflight, id, name, name);
    PutAndDrop(r.byName, name, None, Some(id));
  }

  lemma StepKeepsRegistered(r: Reg, op: Op, id: string)
    requires RegOk(r) && Legal(r, op) && id !in r.inflight && !(op.Reserve? && op.minted == Some(id))
    ensures id !in Apply(r, op).inflight
  {
  }

  /**
   * What a list showed may be removed later, whatever has happened in between (as reaping does, which
   * lists first and removes afterwards): ids are not minted twice, so it is not a spawn's placeholder.
   */
  lemma {:induction false} ListedStaysRemovable(r: Reg, ops: seq<Op>, id: string)
    requires RegOk(r) && LegalRun(r, ops) && id !in r.inflight
    requires forall i :: 0 <= i < |ops| ==> !(ops[i].Reserve? && ops[i].minted == Some(id))
    ensures Legal(Run(r, ops), Remove(id)) && RegOk(Apply(Run(r, ops), Remove(id)))
  {
    RunKeeps(r, ops);
    if ops != [] {
      var init, op := ops[..|ops| - 1], ops[|ops| - 1];
      ListedStaysRemovable(r, init, id);
      RunKeeps(r, init);
      StepKeepsRegistered(Run(r, init), op, id);
    }
    RemoveKeeps(Run(r, ops), id);
  }

  // ── The registry in place ───────────────────────────────────────────

  class Session {
    const id: string
    var name: string
    /** When the process exited, once it has. */
    var exitedAt: Option<int>

    constructor (id: string, name: string)
      ensures this.id == id && this.name == name && exitedAt.None?
    {
      this.id, this.name, exitedAt := id, name, None;
    }

    /** Exited, and kept for as long as the retention time. */
    predicate Expired(now: int, ttl: int)
      reads this
    {
      exitedAt.Some? && now - exitedAt.value >= ttl
    }
  }

  ghost function SlotOf(s: Session?): Slot
    reads s
  {
    if s == null then Placeholder else Registered(s.name)
  }

  ghost function HolderOf(s: Session?): Option<string> {
    if s == null then None else Some(s.id)
  }

  class Registry {
    var byID: map<string, Session?>
    var byName: map<string, Session?>
    var ringByID: map<string, nat>
    var ringReserved: int
    const maxSessions: int
    const ringTotalCap: int
    /** The value the fields represent, with the names local to unfinished spawns. */
    ghost var state: Reg
    /** Every session ever registered. */
    ghost var known: set<Session>

    ghost predicate SlotsTied()
      reads this, known
    {
      && state.byID.Keys == byID.Keys
      && (forall k :: k in byID ==>
           (byID[k] != null ==> byID[k] in known && byID[k].id == k) && state.byID[k] == SlotOf(byID[k]))
    }

    ghost predicate IndexTied()
      reads this, known
    {
      && state.byName.Keys == byName.Keys && "" !in byName
      && (forall n :: n in byName ==>
           && state.byName[n] == HolderOf(byName[n])
           && (byName[n] != null ==>
                 byName[n] in known && byName[n].name == n && byName[n].id in byID && byID[byName[n].id] == byName[n]))
    }

    /**
     * Sessions sit under their own ids and names, and the fields represent the value. Every method
     * makes one step of the value, or (ReapExpired) some, and so keeps RegOk(state): see RunKeeps.
     */
    ghost predicate Valid()
      reads this, known
    {
      && SlotsTied() && IndexTied()
      && ringByID == state.ringByID && ringReserved == state.ringReserved
      && maxSessions == state.maxSessions && ringTotalCap == state.ringTotalCap
    }

    constructor (maxSessions: int, ringTotalCap: int)
      ensures Valid() && state == Empty(maxSessions, ringTotalCap)
    {
      byID, byName, ringByID, ringReserved, known := map[], map[], map[], 0, {};
      this.maxSessions, this.ringTotalCap := maxSessions, ringTotalCap;
      state := Empty(maxSessions, ringTotalCap);
    }

    /** The checks at the head of Spawn, under the mutex. */
    method CheckSpawn(name: string, ringBytes: int, minted: Option<string>) returns (err: Option<Error>)
      requires Valid()
      ensures err == ReserveRefusal(state, name, ringBytes, minted)
    {
      if name != "" && !NameOk(name) {
        return Some(InvalidName);
      }
      var ring := if ringBytes <= 0 then DEFAULT_RING_BYTES else ringBytes;
      assert |byID| == |byID.Keys| && |state.byID| == |state.byID.Keys|;
      if |byID| >= maxSessions {
        return Some(LimitExceeded);
      }
      if ringReserved + ring > ringTotalCap {
        return Some(LimitExceeded);
      }
      if name != "" && name in byName {
        return Some(NameTaken);
      }
      return if minted.None? then Some(Internal) else None;
    }

    /** A nil placeholder under the id and the name, and the ring memory. */
    method PutPlaceholder(id: string, name: string, ring: nat)
      requires Valid() && id !in byID && (name != "" ==> name !in byName)
      modifies this
      ensures Valid() && known == old(known)
      ensures state == DoReserve(old(state), name, ring, id)
    {
      byID := byID[id := null];
      if name != "" {
        byName := byName[name := null];
      }
      ringReserved := ringReserved + ring;
      ringByID := ringByID[id := ring];
      state := DoReserve(state, name, ring, id);
    }

    /** Spawn's first critical section. */
    method SpawnReserve(name: string, ringBytes: int, minted: Option<string>) returns (err: Option<Error>)
      requires Valid() && Legal(state, Reserve(name, ringBytes, minted))
      modifies this
      ensures Valid() && known == old(known)
      ensures err == Refusal(old(state), Reserve(name, ringBytes, minted))
      ensures state == Apply(old(state), Reserve(name, ringBytes, minted))
    {
      err := CheckSpawn(name, ringBytes, minted);
      if err.Some? {
        return;
      }
      PutPlaceholder(minted.value, name, if ringBytes <= 0 then DEFAULT_RING_BYTES else ringBytes);
    }

    /** Spawn's second critical section, when the process started. */
    method SpawnCommit(s: Session)
      requires Valid() && Legal(state, Commit(s.id)) && s.name == state.inflight[s.id]
      requires s.id in byID && byID[s.id] == null
      modifies this
      ensures Valid() && known == old(known) + {s}
      ensures state == Apply(old(state), Commit(s.id)) && byID[s.id] == s
    {
      state := DoCommit(state, s.id);
      byID := byID[s.id := s];
      if s.name != "" {
        byName := byName[s.name := s];
      }
      known := known + {s};
    }

    method Release(id: string, name: string)
      requires Valid() && id in byID && (byID[id] != null ==> name == byID[id].name)
      modifies this
      ensures Valid() && known == old(known) && byID == old(byID) - {id}
      ensures state == Released(old(state), id, name)
    {
      state := Released(state, id, name);
      byID := byID - {id};
      ringReserved := ringReserved - (if id in ringByID then ringByID[id] else 0);
      ringByID := ringByID - {id};
      if name != "" {
        byName := byName - {name};
      }
    }

    /** And when it did not: the reservations go. */
    method SpawnAbort(id: string, name: string)
      requires Valid() && Legal(state, Abort(id)) && name == state.inflight[id]
      requires id in byID && byID[id] == null
      modifies this
      ensures Valid() && known == old(known)
      ensures state == Apply(old(state), Abort(id))
    {
      Release(id, name);
      state := state.(inflight := state.inflight - {id});
    }

    method Insert(s: Session, ring: nat)
      requires Valid() && s.id !in byID && (s.name != "" ==> s.name !in byName)
      modifies this
      ensures Valid() && known == old(known) + {s}
      ensures state == DoAdopt(old(state), s.id, s.name, ring)
    {
      state := DoAdopt(state, s.id, s.name, ring);
      if s.name != "" {
        byName := byName[s.name := s];
      }
      byID := byID[s.id := s];
      ringReserved := ringReserved + ring;
      ringByID := ringByID[s.id := ring];
      known := known + {s};
    }

    method AdoptSession(s: Session, ringLen: nat, ringCap: nat) returns (err: Option<Error>)
      requires Valid() && Legal(state, Adopt(s.id, s.name, ringLen, ringCap))
      modifies this
      ensures Valid() && known == old(known) + (if err.None? then {s} else {})
      ensures err == Refusal(old(state), Adopt(s.id, s.name, ringLen, ringCap))
      ensures state == Apply(old(state), Adopt(s.id, s.name, ringLen, ringCap))
    {
      var ring := ringLen;
      if ringCap > ring {
        ring := ringCap;
      }
      if s.id in byID {
        return Some(Internal);
      }
      if s.name != "" && s.name in byName {
        return Some(NameTaken);
      }
      Insert(s, ring);
      return None;
    }

    /** The session under an id or a name, or null. */
    method Find(key: string) returns (s: Session?)
      requires Valid()
      ensures s != null ==> s in known && s.id in byID && byID[s.id] == s
      ensures HolderOf(s) == Lookup(state, key)
    {
      if IdShaped(key) {
        s := if key in byID then byID[key] else null;
      } else {
        s := if key in byName then byName[key] else null;
      }
    }

    /** The session leaves its old name and takes the new one. */
    method TakeName(s: Session, newName: string)
      requires Valid() && s in known && s.id in byID && byID[s.id] == s
      requires newName != "" && newName in byName ==> byName[newName] == s
      modifies this, s
      ensures Valid() && known == old(known)
      ensures state == DoRename(old(state), s.id, newName)
    {
      state := DoRename(state, s.id, newName);
      if s.name != "" {
        byName := byName - {s.name};
      }
      s.name := newName;
      if newName != "" {
        byName := byName[newName := s];
      }
    }

    method RenameSession(key: string, newName: string) returns (err: Option<Error>)
      requires Valid()
      modifies this, known
      ensures Valid() && known == old(known)
      ensures err == Refusal(old(state), Rename(key, newName))
      ensures state == Apply(old(state), Rename(key, newName))
    {
      if newName != "" && !NameOk(newName) {
        return Some(InvalidName);
      }
      var s := Find(key);
      if s == null {
        return Some(SessionNotFound);
      }
      if newName != "" && newName in byName && byName[newName] != s {
        return Some(NameTaken);
      }
      TakeName(s, newName);
      return None;
    }

    method RemoveSession(id: string)
      requires Valid() && Legal(state, Remove(id))
      modifies this
      ensures Valid() && known == old(known)
      ensures state == Apply(old(state), Remove(id)) && byID == old(byID) - {id}
    {
      if id in byID {
        var s := byID[id];
        Release(id, if s != null then s.name else "");
      }
    }

    /** RemoveSession, in a registry that is sound. */
    method RemoveListed(id: string)
      requires Valid() && Legal(state, Remove(id))
      modifies this
      ensures Valid() && known == old(known)
      ensures state.inflight == old(state.inflight) && byID == old(byID) - {id}
      ensures old(RegOk(state)) ==> RegOk(state)
    {
      if RegOk(state) {
        RemoveKeeps(state, id);
      }
      RemoveSession(id);
    }

    /** The ids of the sessions whose retention is over. */
    ghost function Due(now: int, ttl: int): set<string>
      reads this, known
      requires SlotsTied()
    {
      set k | k in byID && byID[k] != null && byID[k].Expired(now, ttl)
    }

    /** One session's turn. */
    method ReapOne(id: string, now: int, ttl: int) returns (gone: bool)
      requires Valid() && id in byID && forall k :: k in state.inflight ==> k in byID && byID[k] == null
      modifies this
      ensures Valid() && known == old(known) && state.inflight == old(state.inflight)
      ensures gone <==> old(byID[id] != null && byID[id].Expired(now, ttl))
      ensures byID == if gone then old(byID) - {id} else old(byID)
      ensures old(RegOk(state)) ==> RegOk(state)
    {
      var s := byID[id];
      if s == null || !s.Expired(now, ttl) {
        return false;
      }
      RemoveListed(id);
      return true;
    }

    /** Removes exactly the sessions that are due, in any order, and reports them. */
    method ReapExpired(now: int, ttl: int) returns (reaped: set<string>)
      requires Valid() && forall k :: k in state.inflight ==> k in byID && byID[k] == null
      modifies this
      ensures Valid() && known == old(known)
      ensures reaped == old(Due(now, ttl)) && byID == old(byID) - reaped
      ensures state.inflight == old(state.inflight)
      ensures old(RegOk(state)) ==> RegOk(state)
    {
      reaped := {};
      ghost var due := Due(now, ttl);
      var todo := byID.Keys;
      while todo != {}
        invariant Valid() && known == old(known) && state.inflight == old(state.inflight)
        invariant old(RegOk(state)) ==> RegOk(state)
        invariant todo <= old(byID).Keys && byID == old(byID) - reaped
        invariant reaped == due - todo
        decreases todo
      {
        var id :| id in todo;
        var gone := ReapOne(id, now, ttl);
        if gone {
          reaped := reaped + {id};
        }
        todo := todo - {id};
      }
    }
  }
}
