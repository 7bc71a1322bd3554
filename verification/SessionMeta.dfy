/** pkg/host/meta.go: a session's metadata document, its version counter, and compare-and-swap. */
module SessionMeta {
  import opened Bytes
  import opened MetaJson

  const MAX_META := 65536 // MaxMetaBytes

  /** "rpty" itself, or anything that begins "rpty.". */
  predicate Reserved(k: string) { k == "rpty" || "rpty." <= k }

  /** So not every name that begins like it. */
  lemma ReservedNames(rest: string)
    ensures Reserved("rpty") && Reserved("rpty." + rest)
    ensures rest != "" && rest[0] != '.' ==> !Reserved("rpty" + rest)
  {
    assert ("rpty." + rest)[..5] == "rpty.";
    if rest != "" && rest[0] != '.' {
      assert ("rpty" + rest)[4] == rest[0] && "rpty."[4] == '.';
    }
  }

  datatype Mode = MergeMode | ReplaceMode | IncrMode | UnknownMode

  datatype Error = MetaConflict | ReservedKey | UnknownModeError | InvalidPatch | NotAnObject | TooLarge

  /** The document is absent until something is written. */
  datatype Meta = Meta(doc: Option<Json>, version: nat)

  /** What the code is given: float addition, and the length of a document's encoding. */
  datatype Env = Env(fa: FloatAdd, size: Json -> nat)

  /** A patch that does not parse is None. */
  datatype Op =
    | SetJson(mode: Mode, patch: Option<Json>, ifVersion: Option<nat>)
    | SetFlat(flat: map<string, string>)

  predicate WritesReserved(patch: Option<Json>) {
    patch.Some? && patch.value.JObj? && exists k :: k in patch.value.members && Reserved(k)
  }

  function Current(doc: Option<Json>): Json { if doc.Some? then doc.value else JNull }

  /** The document a mode makes of the current one. */
  function Next(env: Env, doc: Option<Json>, mode: Mode, patch: Json): Option<Json> {
    match mode
    case ReplaceMode => Some(Merge(JNull, patch))
    case IncrMode => Incr(env.fa, Current(doc), patch)
    case MergeMode => Some(Merge(Current(doc), patch))
    case UnknownMode => None
  }

  /** Why SetMetaJSON refuses, in the order it checks. */
  function Refusal(env: Env, m: Meta, mode: Mode, patch: Option<Json>, ifVersion: Option<nat>): Option<Error> {
    if ifVersion.Some? && ifVersion.value != m.version then Some(MetaConflict)
    else if WritesReserved(patch) then Some(ReservedKey)
    else if mode.UnknownMode? then Some(UnknownModeError)
    else if patch.None? || Next(env, m.doc, mode, patch.value).None? then Some(InvalidPatch)
    else if !Next(env, m.doc, mode, patch.value).value.JObj? then Some(NotAnObject)
    else if env.size(Next(env, m.doc, mode, patch.value).value) > MAX_META then Some(TooLarge)
    else None
  }

  function FromFlat(flat: map<string, string>): Json { JObj(map k | k in flat :: JStr(flat[k])) }

  predicate Succeeds(env: Env, m: Meta, op: Op) {
    op.SetFlat? || Refusal(env, m, op.mode, op.patch, op.ifVersion).None?
  }

  function Apply(env: Env, m: Meta, op: Op): Meta {
    match op
    case SetFlat(flat) => Meta(Some(FromFlat(flat)), m.version + 1)
    case SetJson(mode, patch, ifVersion) =>
      if Refusal(env, m, mode, patch, ifVersion).Some? then m
      else Meta(Next(env, m.doc, mode, patch.value), m.version + 1)
  }

  /** Writers hold the session's mutex, so any interleaving of them is some list of operations. */
  function Run(env: Env, m: Meta, ops: seq<Op>): Meta {
    if ops == [] then m else Apply(env, Run(env, m, ops[..|ops| - 1]), ops[|ops| - 1])
  }

  function Successes(env: Env, m: Meta, ops: seq<Op>): nat {
    if ops == [] then 0
    else Successes(env, m, ops[..|ops| - 1])
         + (if Succeeds(env, Run(env, m, ops[..|ops| - 1]), ops[|ops| - 1]) then 1 else 0)
  }

  /** The version counts the successful writes. */
  lemma {:induction false} VersionCountsWrites(env: Env, m: Meta, ops: seq<Op>)
    ensures Run(env, m, ops).version == m.version + Successes(env, m, ops)
  {
    if ops != [] {
      VersionCountsWrites(env, m, ops[..|ops| - 1]);
    }
  }

  lemma {:induction false} RunSplits(env: Env, m: Meta, xs: seq<Op>, ys: seq<Op>)
    ensures Run(env, m, xs + ys) == Run(env, Run(env, m, xs), ys)
    ensures Successes(env, m, xs + ys) == Successes(env, m, xs) + Successes(env, Run(env, m, xs), ys)
  {
    if ys == [] {
      assert xs + ys == xs;
    } else {
      assert (xs + ys)[..|xs + ys| - 1] == xs + ys[..|ys| - 1];
      RunSplits(env, m, xs, ys[..|ys| - 1]);
    }
  }

  lemma {:induction false} NoWritesNoChange(env: Env, m: Meta, ops: seq<Op>)
    requires Successes(env, m, ops) == 0
    ensures Run(env, m, ops) == m
  {
    if ops != [] {
      NoWritesNoChange(env, m, ops[..|ops| - 1]);
    }
  }

  /**
   * Compare-and-swap is serializable: a writer that reads the state after some operations and later
   * writes conditionally on the version it read succeeds only if nothing was written in between,
   * and so writes on top of exactly the document it read.
   */
  lemma ConditionalWriteSawTheLatest(env: Env, m: Meta, before: seq<Op>, between: seq<Op>, op: Op)
    requires op.SetJson? && op.ifVersion == Some(Run(env, m, before).version)
    requires Succeeds(env, Run(env, m, before + between), op)
    ensures Successes(env, Run(env, m, before), between) == 0
    ensures Run(env, m, before + between) == Run(env, m, before)
    ensures Run(env, m, before + between + [op]).doc == Next(env, Run(env, m, before).doc, op.mode, op.patch.value)
  {
    var read := Run(env, m, before);
    RunSplits(env, m, before, between);
    VersionCountsWrites(env, read, between);
    NoWritesNoChange(env, read, between);
    assert (before + between + [op])[..|before + between|] == before + between;
  }

  /** And two writers that read the same version cannot both succeed conditionally on it. */
  lemma OneConditionalWinner(env: Env, m: Meta, before: seq<Op>, first: Op, between: seq<Op>, second: Op)
    requires first.SetJson? && second.SetJson?
    requires first.ifVersion == second.ifVersion == Some(Run(env, m, before).version)
    requires Succeeds(env, Run(env, m, before), first)
    ensures !Succeeds(env, Run(env, m, before + [first] + between), second)
  {
    RunSplits(env, m, before, [first]);
    RunSplits(env, m, before + [first], between);
    assert [first][..0] == [] && [first][0] == first;
    VersionCountsWrites(env, Run(env, m, before + [first]), between);
  }

  // ── The reserved namespace ──────────────────────────────────────────

  predicate MergeOrIncr(op: Op) { op.SetJson? && (op.mode.MergeMode? || op.mode.IncrMode?) }

  lemma ApplyKeepsReserved(env: Env, m: Meta, op: Op, k: string)
    requires MergeOrIncr(op) && Reserved(k)
    ensures OptField(Apply(env, m, op).doc, k) == OptField(m.doc, k)
  {
    if Succeeds(env, m, op) {
      var p := op.patch.value;
      var cur := Current(m.doc);
      if op.mode.MergeMode? {
        assert p.JObj? && k !in p.members;
        MergeField(cur, p, k);
      } else {
        AddField(env.fa, Some(JObj(MembersOf(cur))), p, k);
        assert k !in p.members;
      }
    }
  }

  /** No run of merge and incr writes touches a reserved member. */
  lemma {:induction false} ReservedUntouched(env: Env, m: Meta, ops: seq<Op>, k: string)
    requires Reserved(k) && forall i :: 0 <= i < |ops| ==> MergeOrIncr(ops[i])
    ensures OptField(Run(env, m, ops).doc, k) == OptField(m.doc, k)
  {
    if ops != [] {
      ReservedUntouched(env, m, ops[..|ops| - 1], k);
      ApplyKeepsReserved(env, Run(env, m, ops[..|ops| - 1]), ops[|ops| - 1], k);
    }
  }

  /** The document stays a JSON object. */
  lemma {:induction false} StaysObject(env: Env, m: Meta, ops: seq<Op>)
    requires m.doc.Some? ==> m.doc.value.JObj?
    ensures Run(env, m, ops).doc.Some? ==> Run(env, m, ops).doc.value.JObj?
  {
    if ops != [] {
      StaysObject(env, m, ops[..|ops| - 1]);
    }
  }

  /** And within the size cap, as long as the flat writes, which are not checked, keep to it. */
  lemma {:induction false} DocumentsFit(env: Env, m: Meta, ops: seq<Op>)
    requires m.doc.Some? ==> env.size(m.doc.value) <= MAX_META
    requires forall i :: 0 <= i < |ops| ==> ops[i].SetFlat? ==> env.size(FromFlat(ops[i].flat)) <= MAX_META
    ensures Run(env, m, ops).doc.Some? ==> env.size(Run(env, m, ops).doc.value) <= MAX_META
  {
    if ops != [] {
      DocumentsFit(env, m, ops[..|ops| - 1]);
    }
  }

  // ── What one write does ─────────────────────────────────────────────

  predicate ObjectDoc(m: Meta) { m.doc.Some? ==> m.doc.value.JObj? }

  /**
   * A JSON write succeeds exactly if nobody wrote since the version it names, its patch parses and is
   * an object without reserved keys, its mode is known, what it increments is there to be
   * incremented, and the new document is within the cap. A conflict is
   * reported before anything else, and a reserved key before the rest.
   */
  lemma WriteSucceedsIff(env: Env, m: Meta, mode: Mode, patch: Option<Json>, ifVersion: Option<nat>)
    requires ObjectDoc(m)
    ensures Succeeds(env, m, SetJson(mode, patch, ifVersion)) <==>
      && (ifVersion.Some? ==> ifVersion.value == m.version) && !mode.UnknownMode?
      && patch.Some? && patch.value.JObj? && (forall k :: k in patch.value.members ==> !Reserved(k))
      && (mode.IncrMode? ==> TakesEverywhere(env.fa, Some(JObj(MembersOf(Current(m.doc)))), patch.value))
      && (var next := Next(env, m.doc, mode, patch.value); next.Some? ==> env.size(next.value) <= MAX_META)
    ensures Refusal(env, m, mode, patch, ifVersion) == Some(MetaConflict) <==> ifVersion.Some? && ifVersion.value != m.version
    ensures Refusal(env, m, mode, patch, ifVersion) == Some(ReservedKey) <==>
      && (ifVersion.Some? ==> ifVersion.value == m.version)
      && patch.Some? && patch.value.JObj? && exists k :: k in patch.value.members && Reserved(k)
  {
    if patch.Some? && mode.IncrMode? {
      SucceedsIffShapesFit(env.fa, Some(JObj(MembersOf(Current(m.doc)))), patch.value);
      if Incr(env.fa, Current(m.doc), patch.value).Some? {
        AddField(env.fa, Some(JObj(MembersOf(Current(m.doc)))), patch.value, "");
      }
    }
  }

  /** A merge or a replacement leaves, at every path its patch has, what the patch says. */
  lemma WriteLands(env: Env, m: Meta, op: Op, path: seq<string>)
    requires op.SetJson? && (op.mode.MergeMode? || op.mode.ReplaceMode?) && Succeeds(env, m, op)
    ensures var q, r := Node(op.patch, path), Node(Apply(env, m, op).doc, path);
      && (q.Some? && q.value.JObj? ==> r.Some? && r.value.JObj?)
      && (q.Some? && !q.value.JObj? && !q.value.JNull? ==> r == q)
      && (q == Some(JNull) ==> r == None)
  {
    MergeNodes(if op.mode.ReplaceMode? then JNull else Current(m.doc), op.patch.value, path);
  }

  /** An increment adds, at every path its patch has a number, to the number there or to 0. */
  lemma IncrLands(env: Env, m: Meta, op: Op, path: seq<string>)
    requires ObjectDoc(m) && op.SetJson? && op.mode.IncrMode? && Succeeds(env, m, op)
    ensures var q, c, r := Node(op.patch, path), Node(m.doc, path), Node(Apply(env, m, op).doc, path);
      q.Some? && q.value.JNum? ==>
        && (c.Some? ==> c.value.JNum?) && r.Some? && r.value.JNum?
        && AddNumbers(env.fa, if c.Some? then c.value.num else Int64(0), q.value.num) == Some(r.value.num)
  {
    IncrNodes(env.fa, Some(JObj(MembersOf(Current(m.doc)))), op.patch.value, path);
    SameNodes(m, path);
  }

  lemma SameNodes(m: Meta, path: seq<string>)
    requires ObjectDoc(m)
    ensures path != [] ==> Node(m.doc, path) == Node(Some(JObj(MembersOf(Current(m.doc)))), path) == Node(Some(Current(m.doc)), path)
  {
    if m.doc.None? && path != [] {
      assert OptField(Some(JObj(map[])), path[0]) == None;
      NothingBelowNothing(path[1..]);
      NothingBelowNothing(path);
      NothingBelowNull(path);
    }
  }

  /**
   * At every path its patch does not have, under an object it has, a replacement leaves nothing, and
   * a merge or an increment what was there.
   */
  lemma WriteLeaves(env: Env, m: Meta, op: Op, path: seq<string>, k: string, more: seq<string>)
    requires ObjectDoc(m) && op.SetJson? && Succeeds(env, m, op)
    requires var q := Node(op.patch, path); q.Some? && q.value.JObj? && k !in q.value.members
    ensures var at := path + ([k] + more);
      Node(Apply(env, m, op).doc, at) == if op.mode.ReplaceMode? then None else Node(m.doc, at)
  {
    var p, at := op.patch.value, path + ([k] + more);
    SameNodes(m, at);
    if op.mode.IncrMode? {
      IncrLeaves(env.fa, Some(JObj(MembersOf(Current(m.doc)))), p, path, k, more);
    } else {
      MergeLeaves(if op.mode.ReplaceMode? then JNull else Current(m.doc), p, path, k, more);
      NothingBelowNull(at);
    }
  }

  /** A flat write leaves its strings and nothing else. */
  lemma FlatLands(env: Env, m: Meta, flat: map<string, string>, k: string, more: seq<string>)
    ensures Node(Apply(env, m, SetFlat(flat)).doc, [k] + more) ==
      if k in flat && more == [] then Some(JStr(flat[k])) else None
  {
    assert ([k] + more)[1..] == more;
    NothingBelowNothing(more);
    if k in flat && more != [] {
      assert OptField(Some(JStr(flat[k])), more[0]) == None;
      NothingBelowNothing(more[1..]);
    }
  }

  // ── The object ──────────────────────────────────────────────────────

  /** The part of host.Session that meta.go owns; each method is one critical section. */
  class Session {
    var metaDoc: Option<Json>
    var metaVersion: nat

    ghost function State(): Meta
      reads this
    {
      Meta(metaDoc, metaVersion)
    }

    constructor (doc: Option<Json>)
      ensures State() == Meta(doc, 0)
    {
      metaDoc, metaVersion := doc, 0;
    }

    /** reservedKeyError over the patch's top-level keys. */
    method HasReservedKey(patch: Option<Json>) returns (yes: bool)
      ensures yes <==> WritesReserved(patch)
    {
      if patch.None? || !patch.value.JObj? {
        return false;
      }
      var todo := patch.value.members.Keys;
      while todo != {}
        invariant todo <= patch.value.members.Keys
        invariant forall k :: k in patch.value.members.Keys - todo ==> !Reserved(k)
        decreases todo
      {
        var k :| k in todo;
        if Reserved(k) {
          return true;
        }
        todo := todo - {k};
      }
      return false;
    }

    method SetMetaJSON(env: Env, mode: Mode, patch: Option<Json>, ifVersion: Option<nat>)
      returns (version: nat, err: Option<Error>)
      modifies this
      ensures err == Refusal(env, old(State()), mode, patch, ifVersion)
      ensures err.Some? ==> State() == old(State())
      ensures State() == Apply(env, old(State()), SetJson(mode, patch, ifVersion)) && version == metaVersion
    {
      if ifVersion.Some? && ifVersion.value != metaVersion {
        return metaVersion, Some(MetaConflict);
      }
      var reserved := HasReservedKey(patch);
      if reserved {
        return metaVersion, Some(ReservedKey);
      }
      if mode.UnknownMode? {
        return metaVersion, Some(UnknownModeError);
      }
      if patch.None? {
        return metaVersion, Some(InvalidPatch);
      }
      var next: Option<Json> := None;
      if mode.IncrMode? {
        if patch.value.JObj? {
          var r := IncrInto(env.fa, MembersOf(Current(metaDoc)), patch.value.members);
          next := if r.Some? then Some(JObj(r.value)) else None;
        }
      } else {
        var r := MergeValue(if mode.ReplaceMode? then JNull else Current(metaDoc), patch.value);
        next := Some(r);
      }
      if next.None? {
        return metaVersion, Some(InvalidPatch);
      }
      if !next.value.JObj? {
        return metaVersion, Some(NotAnObject);
      }
      if env.size(next.value) > MAX_META {
        return metaVersion, Some(TooLarge);
      }
      metaDoc := next;
      metaVersion := metaVersion + 1;
      return metaVersion, None;
    }

    method SetMeta(env: Env, flat: map<string, string>)
      modifies this
      ensures State() == Apply(env, old(State()), SetFlat(flat))
    {
      metaDoc := Some(FromFlat(flat));
      metaVersion := metaVersion + 1;
    }
  }
}
