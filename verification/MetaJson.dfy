/** pkg/metajson: RFC 7386 merge patch and atomic increments, on decoded documents. */
module MetaJson {
  import opened Bytes

  type int64 = x: int | IsInt64(x) witness 0

  /** A json.Number: one that parses as an int64, or any other text. */
  datatype Num = Int64(n: int64) | Decimal(text: string)

  datatype Json =
    | JNull
    | JBool(b: bool)
    | JNum(num: Num)
    | JStr(s: string)
    | JArr(items: seq<Json>)
    | JObj(members: map<string, Json>)

  type Members = map<string, Json>

  function MembersOf(j: Json): Members { if j.JObj? then j.members else map[] }

  /** Go's target[name]: nil when absent. */
  function Get(m: Members, k: string): Json { if k in m then m[k] else JNull }

  function Field(j: Json, k: string): Option<Json> {
    if j.JObj? && k in j.members then Some(j.members[k]) else None
  }

  lemma SameFields(a: Json, b: Json)
    requires a.JObj? && b.JObj? && forall k :: Field(a, k) == Field(b, k)
    ensures a == b
  {
    forall k
      ensures k in a.members <==> k in b.members
      ensures k in a.members ==> a.members[k] == b.members[k]
    {
      assert Field(a, k) == Field(b, k);
    }
    assert a.members == b.members;
  }

  function OptField(j: Option<Json>, k: string): Option<Json> { if j.Some? then Field(j.value, k) else None }

  /** The value at a path. */
  function Node(j: Option<Json>, path: seq<string>): Option<Json>
    decreases |path|
  {
    if path == [] then j else Node(OptField(j, path[0]), path[1..])
  }

  lemma {:induction false} NothingBelowNothing(path: seq<string>)
    ensures Node(None, path) == None
  {
    if path != [] {
      NothingBelowNothing(path[1..]);
    }
  }

  // ── Merge ───────────────────────────────────────────────────────────

  /** MergePatch of RFC 7386, section 2. */
  function Merge(target: Json, patch: Json): Json
    decreases patch
  {
    if !patch.JObj? then patch
    else
      var t := MembersOf(target);
      JObj(map k | k in t.Keys + patch.members.Keys && !(k in patch.members && patch.members[k].JNull?)
        :: if k in patch.members then Merge(Get(t, k), patch.members[k]) else t[k])
  }

  lemma MergeField(target: Json, patch: Json, k: string)
    requires patch.JObj?
    ensures Field(Merge(target, patch), k) ==
      if k !in patch.members then Field(target, k)
      else if patch.members[k].JNull? then None
      else Some(Merge(Get(MembersOf(target), k), patch.members[k]))
  {
  }

  /**
   * What a merge leaves at every path the patch has: an object where it has an object; exactly its
   * value where it has any other, except that a null member removes the member.
   */
  lemma {:induction false} MergeNodes(target: Json, patch: Json, path: seq<string>)
    ensures var q, r := Node(Some(patch), path), Node(Some(Merge(target, patch)), path);
      && (q.Some? && q.value.JObj? ==> r.Some? && r.value.JObj?)
      && (q.Some? && !q.value.JObj? && (!q.value.JNull? || path == []) ==> r == q)
      && (q == Some(JNull) && path != [] ==> r == None)
    decreases |path|
  {
    if path != [] {
      var k := path[0];
      NothingBelowNothing(path[1..]);
      if patch.JObj? && k in patch.members {
        MergeField(target, patch, k);
        if patch.members[k].JNull? {
          if path[1..] != [] {
            NothingBelowNull(path[1..]);
          }
        } else {
          MergeNodes(Get(MembersOf(target), k), patch.members[k], path[1..]);
        }
      }
    }
  }

  /** And at every path it does not have, under an object it has: what the target has there. */
  lemma {:induction false} MergeLeaves(target: Json, patch: Json, path: seq<string>, k: string, more: seq<string>)
    requires var q := Node(Some(patch), path); q.Some? && q.value.JObj? && k !in q.value.members
    ensures Node(Some(Merge(target, patch)), path + ([k] + more)) == Node(Some(target), path + ([k] + more))
    decreases |path|
  {
    var below := [k] + more;
    if path == [] {
      MergeField(target, patch, k);
      assert path + below == below;
    } else {
      var i, rest := path[0], path[1..];
      NothingBelowNothing(rest);
      MergeField(target, patch, i);
      LeavesField(patch, i, rest);
      MergeLeaves(Get(MembersOf(target), i), patch.members[i], rest, k, more);
      assert (path + below)[1..] == rest + below && (path + below)[0] == i;
      NothingBelowNull(rest + below);
      NothingBelowNothing(rest + below);
    }
  }

  lemma LeavesField(patch: Json, k: string, rest: seq<string>)
    requires var q := Node(OptField(Some(patch), k), rest); q.Some? && q.value.JObj?
    ensures patch.JObj? && k in patch.members && !patch.members[k].JNull?
  {
    NothingBelowNothing(rest);
    if patch.JObj? && k in patch.members && patch.members[k].JNull? && rest != [] {
      NothingBelowNull(rest);
    }
  }

  lemma NothingBelowNull(path: seq<string>)
    requires path != []
    ensures Node(Some(JNull), path) == None
  {
    assert OptField(Some(JNull), path[0]) == None;
    NothingBelowNothing(path[1..]);
  }

  /** The same patch applied twice equals once. */
  lemma {:induction false} MergeIdempotent(target: Json, patch: Json)
    ensures Merge(Merge(target, patch), patch) == Merge(target, patch)
    decreases patch
  {
    if patch.JObj? {
      var once := Merge(target, patch);
      forall k
        ensures Field(Merge(once, patch), k) == Field(once, k)
      {
        MergeField(target, patch, k);
        MergeField(once, patch, k);
        if k in patch.members {
          MergeIdempotent(Get(MembersOf(target), k), patch.members[k]);
        }
      }
      SameFields(Merge(once, patch), once);
    }
  }

  /** The patches meet only in objects, all the way down: no path is written by both. */
  predicate Disjoint(p: Json, q: Json)
    decreases p
  {
    p.JObj? && q.JObj? && forall k :: k in p.members && k in q.members ==> Disjoint(p.members[k], q.members[k])
  }

  lemma {:induction false} DisjointCommute(target: Json, p: Json, q: Json)
    requires Disjoint(p, q)
    ensures Merge(Merge(target, p), q) == Merge(Merge(target, q), p)
    decreases p
  {
    var a, b := Merge(target, p), Merge(target, q);
    forall k
      ensures Field(Merge(a, q), k) == Field(Merge(b, p), k)
    {
      MergeField(target, p, k);
      MergeField(target, q, k);
      MergeField(a, q, k);
      MergeField(b, p, k);
      if k in p.members && k in q.members {
        DisjointCommute(Get(MembersOf(target), k), p.members[k], q.members[k]);
      }
    }
    SameFields(Merge(a, q), Merge(b, p));
  }

  /** No member anywhere outside arrays is null. */
  predicate NoNullMembers(j: Json) {
    j.JObj? ==> forall k :: k in j.members ==> !j.members[k].JNull? && NoNullMembers(j.members[k])
  }

  lemma {:induction false} MergeKeepsNoNulls(target: Json, patch: Json)
    requires NoNullMembers(target)
    ensures patch.JObj? ==> NoNullMembers(Merge(target, patch))
    decreases patch
  {
    if patch.JObj? {
      var r := Merge(target, patch);
      forall k | k in r.members
        ensures !r.members[k].JNull? && NoNullMembers(r.members[k])
      {
        MergeField(target, patch, k);
        if k in patch.members {
          MergeKeepsNoNulls(Get(MembersOf(target), k), patch.members[k]);
        }
      }
    }
  }

  /** The merge of only the patch keys in `done`. */
  ghost function MergedOn(t: Members, p: Members, done: set<string>): Members
    requires done <= p.Keys
  {
    map k | k in t.Keys + done && !(k in done && p[k].JNull?) :: if k in done then Merge(Get(t, k), p[k]) else t[k]
  }

  /** mergeValue as written: patch members in any order, deleting and assigning in the target. */
  method MergeValue(target: Json, patch: Json) returns (r: Json)
    ensures r == Merge(target, patch)
    decreases patch
  {
    if !patch.JObj? {
      return patch;
    }
    var obj := MembersOf(target);
    ghost var t := obj;
    var todo := patch.members.Keys;
    while todo != {}
      invariant todo <= patch.members.Keys
      invariant obj == MergedOn(t, patch.members, patch.members.Keys - todo)
      decreases todo
    {
      var name :| name in todo;
      var val := patch.members[name];
      if val.JNull? {
        obj := obj - {name};
      } else {
        assert Get(obj, name) == Get(t, name);
        var v := MergeValue(Get(obj, name), val);
        obj := obj[name := v];
      }
      todo := todo - {name};
    }
    r := JObj(obj);
    assert patch.members.Keys - todo == patch.members.Keys;
  }

  // ── Increments ──────────────────────────────────────────────────────

  /** Addition where an operand is not an int64; the code uses float64, which is left open here. */
  type FloatAdd = (Num, Num) -> Option<Num>

  function AddNumbers(fa: FloatAdd, a: Num, b: Num): Option<Num> {
    if a.Int64? && b.Int64? then Some(Int64(ToInt64(a.n + b.n))) else fa(a, b)
  }

  /** incrInto for one field: the current value, if any, and the patch's value for it. */
  function AddInto(fa: FloatAdd, cur: Option<Json>, p: Json): Option<Json>
    decreases p
  {
    match p
    case JNum(d) =>
      if cur.Some? && !cur.value.JNum? then None
      else
        var sum := AddNumbers(fa, if cur.Some? then cur.value.num else Int64(0), d);
        if sum.None? then None else Some(JNum(sum.value))
    case JObj(pm) =>
      if cur.Some? && !cur.value.JObj? then None
      else
        var t := if cur.Some? then cur.value.members else map[];
        if exists k :: k in pm && AddInto(fa, FieldOf(t, k), pm[k]).None? then None
        else Some(JObj(map k | k in t.Keys + pm.Keys ::
          if k in pm then AddInto(fa, FieldOf(t, k), pm[k]).value else t[k]))
    case _ => None
  }

  function FieldOf(m: Members, k: string): Option<Json> { if k in m then Some(m[k]) else None }

  /** IncrPatch after decoding. */
  function Incr(fa: FloatAdd, target: Json, patch: Json): Option<Json> {
    if !patch.JObj? then None else AddInto(fa, Some(JObj(MembersOf(target))), patch)
  }

  lemma AddField(fa: FloatAdd, cur: Option<Json>, p: Json, k: string)
    requires p.JObj? && AddInto(fa, cur, p).Some?
    ensures AddInto(fa, cur, p).value.JObj?
    ensures OptField(AddInto(fa, cur, p), k) ==
      if k in p.members then AddInto(fa, OptField(cur, k), p.members[k]) else OptField(cur, k)
    ensures k in p.members ==> AddInto(fa, OptField(cur, k), p.members[k]).Some?
  {
    var t := if cur.Some? then cur.value.members else map[];
    assert OptField(cur, k) == FieldOf(t, k);
  }

  lemma AddSucceeds(fa: FloatAdd, cur: Option<Json>, p: Json)
    requires p.JObj?
    ensures AddInto(fa, cur, p).Some? <==>
      (cur.Some? ==> cur.value.JObj?) && forall k :: k in p.members ==> AddInto(fa, OptField(cur, k), p.members[k]).Some?
  {
    if cur.Some? ==> cur.value.JObj? {
      var t := if cur.Some? then cur.value.members else map[];
      assert forall k :: OptField(cur, k) == FieldOf(t, k);
    }
  }

  /** The integer at a path, 0 where there is none. */
  function Leaf(j: Option<Json>, path: seq<string>): int64
    decreases |path|
  {
    if j.None? then 0
    else if path == [] then (if j.value.JNum? && j.value.num.Int64? then j.value.num.n else 0)
    else Leaf(Field(j.value, path[0]), path[1..])
  }

  lemma LeafBelow(j: Option<Json>, path: seq<string>)
    requires path != []
    ensures Leaf(j, path) == Leaf(OptField(j, path[0]), path[1..])
  {
  }

  predicate Integers(j: Json) {
    match j
    case JNum(n) => n.Int64?
    case JObj(m) => forall k :: k in m ==> Integers(m[k])
    case _ => true
  }

  predicate IntegersOpt(j: Option<Json>) { j.Some? ==> Integers(j.value) }

  lemma IntegersField(j: Option<Json>, k: string)
    requires IntegersOpt(j)
    ensures IntegersOpt(OptField(j, k))
  {
  }

  lemma {:induction false} AddKeepsIntegers(fa: FloatAdd, cur: Option<Json>, p: Json)
    requires IntegersOpt(cur) && Integers(p)
    ensures IntegersOpt(AddInto(fa, cur, p))
    decreases p
  {
    if p.JObj? && AddInto(fa, cur, p).Some? {
      var r := AddInto(fa, cur, p);
      forall k | k in r.value.members
        ensures Integers(r.value.members[k])
      {
        AddField(fa, cur, p, k);
        IntegersField(cur, k);
        assert OptField(r, k) == Some(r.value.members[k]);
        if k in p.members {
          AddKeepsIntegers(fa, OptField(cur, k), p.members[k]);
        }
      }
    }
  }

  // ── When an increment succeeds ──────────────────────────────────────

  /** Where the document has cur, the patch may have p: a number on a number, an object on an object, or either on nothing. */
  predicate Takes(fa: FloatAdd, cur: Option<Json>, p: Json) {
    match p
    case JNum(d) =>
      (cur.Some? ==> cur.value.JNum?) && AddNumbers(fa, if cur.Some? then cur.value.num else Int64(0), d).Some?
    case JObj(_) => cur.Some? ==> cur.value.JObj?
    case _ => false
  }

  ghost predicate TakesEverywhere(fa: FloatAdd, cur: Option<Json>, p: Json) {
    forall path :: Node(Some(p), path).Some? ==> Takes(fa, Node(cur, path), Node(Some(p), path).value)
  }

  lemma {:induction false} TakesAt(fa: FloatAdd, cur: Option<Json>, p: Json, path: seq<string>)
    requires AddInto(fa, cur, p).Some? && Node(Some(p), path).Some?
    ensures Takes(fa, Node(cur, path), Node(Some(p), path).value)
    decreases |path|
  {
    if path != [] {
      var k := path[0];
      NothingBelowNothing(path[1..]);
      AddField(fa, cur, p, k);
      TakesAt(fa, OptField(cur, k), p.members[k], path[1..]);
    }
  }

  lemma {:induction false} ClashAt(fa: FloatAdd, cur: Option<Json>, p: Json) returns (path: seq<string>)
    requires AddInto(fa, cur, p).None?
    ensures Node(Some(p), path).Some? && !Takes(fa, Node(cur, path), Node(Some(p), path).value)
    decreases p
  {
    if !Takes(fa, cur, p) {
      path := [];
    } else {
      AddSucceeds(fa, cur, p);
      var k :| k in p.members && AddInto(fa, OptField(cur, k), p.members[k]).None?;
      var rest := ClashAt(fa, OptField(cur, k), p.members[k]);
      path := [k] + rest;
      assert path[1..] == rest;
    }
  }

  /**
   * An increment succeeds exactly if at every path the patch has a number where the document has a
   * number or nothing, or an object where the document has an object or nothing: one clash anywhere
   * fails the whole patch, and nothing else does.
   */
  lemma SucceedsIffShapesFit(fa: FloatAdd, cur: Option<Json>, p: Json)
    ensures AddInto(fa, cur, p).Some? <==> TakesEverywhere(fa, cur, p)
  {
    if AddInto(fa, cur, p).Some? {
      forall path | Node(Some(p), path).Some?
        ensures Takes(fa, Node(cur, path), Node(Some(p), path).value)
      {
        TakesAt(fa, cur, p, path);
      }
    } else {
      var path := ClashAt(fa, cur, p);
    }
  }

  /**
   * What a successful increment leaves at every path the patch has: an object where it has an object,
   * and the sum where it has a number, 0 standing for nothing there.
   */
  lemma {:induction false} IncrNodes(fa: FloatAdd, cur: Option<Json>, p: Json, path: seq<string>)
    requires AddInto(fa, cur, p).Some?
    ensures var q, c, r := Node(Some(p), path), Node(cur, path), Node(AddInto(fa, cur, p), path);
      && (q.Some? && q.value.JObj? ==> r.Some? && r.value.JObj?)
      && (q.Some? && !q.value.JObj? ==>
            && q.value.JNum? && (c.Some? ==> c.value.JNum?)
            && r.Some? && r.value.JNum?
            && AddNumbers(fa, if c.Some? then c.value.num else Int64(0), q.value.num) == Some(r.value.num))
    decreases |path|
  {
    if path != [] {
      var k := path[0];
      NothingBelowNothing(path[1..]);
      if p.JObj? && k in p.members {
        AddField(fa, cur, p, k);
        IncrNodes(fa, OptField(cur, k), p.members[k], path[1..]);
      }
    }
  }

  /** And at every path it does not have, under an object it has: what was there. */
  lemma {:induction false} IncrLeaves(fa: FloatAdd, cur: Option<Json>, p: Json, path: seq<string>, k: string, more: seq<string>)
    requires AddInto(fa, cur, p).Some?
    requires var q := Node(Some(p), path); q.Some? && q.value.JObj? && k !in q.value.members
    ensures Node(AddInto(fa, cur, p), path + ([k] + more)) == Node(cur, path + ([k] + more))
    decreases |path|
  {
    var below := [k] + more;
    if path == [] {
      AddField(fa, cur, p, k);
      assert path + below == below;
    } else {
      var i, rest := path[0], path[1..];
      LeavesField(p, i, rest);
      AddField(fa, cur, p, i);
      IncrLeaves(fa, OptField(cur, i), p.members[i], rest, k, more);
      assert (path + below)[1..] == rest + below && (path + below)[0] == i;
    }
  }

  /** One successful increment adds its delta, in int64, at every path, and touches nothing else. */
  lemma {:induction false} LeafAdds(fa: FloatAdd, cur: Option<Json>, p: Json, path: seq<string>)
    requires IntegersOpt(cur) && Integers(p) && AddInto(fa, cur, p).Some?
    ensures Leaf(AddInto(fa, cur, p), path) == ToInt64(Leaf(cur, path) + Leaf(Some(p), path))
    decreases p
  {
    if !p.JObj? || path == [] {
      LeafAddsHere(fa, cur, p, path);
    } else {
      var k := path[0];
      AddField(fa, cur, p, k);
      IntegersField(cur, k);
      LeafBelow(AddInto(fa, cur, p), path);
      LeafBelow(cur, path);
      LeafBelow(Some(p), path);
      if k in p.members {
        LeafAdds(fa, OptField(cur, k), p.members[k], path[1..]);
      } else {
        ToInt64OfInt64(Leaf(cur, path));
      }
    }
  }

  lemma LeafAddsHere(fa: FloatAdd, cur: Option<Json>, p: Json, path: seq<string>)
    requires IntegersOpt(cur) && Integers(p) && AddInto(fa, cur, p).Some? && (!p.JObj? || path == [])
    ensures Leaf(AddInto(fa, cur, p), path) == ToInt64(Leaf(cur, path) + Leaf(Some(p), path))
  {
    ToInt64OfInt64(Leaf(cur, path));
  }

  /** Increments applied in turn; the first failure ends it. */
  function IncrAll(fa: FloatAdd, target: Json, ps: seq<Json>): Option<Json> {
    if ps == [] then Some(target)
    else
      var t := IncrAll(fa, target, ps[..|ps| - 1]);
      if t.None? then None else Incr(fa, t.value, ps[|ps| - 1])
  }

  predicate AllIntegers(ps: seq<Json>) {
    ps == [] || (AllIntegers(ps[..|ps| - 1]) && Integers(ps[|ps| - 1]))
  }

  function Deltas(ps: seq<Json>, path: seq<string>): int {
    if ps == [] then 0 else Deltas(ps[..|ps| - 1], path) + Leaf(Some(ps[|ps| - 1]), path)
  }

  lemma IncrIsAdd(fa: FloatAdd, t: Json, p: Json)
    requires t.JObj? && Incr(fa, t, p).Some?
    ensures p.JObj? && Incr(fa, t, p) == AddInto(fa, Some(t), p) && Incr(fa, t, p).value.JObj?
  {
    assert JObj(MembersOf(t)) == t;
  }

  lemma IncrLeaf(fa: FloatAdd, t: Json, p: Json, path: seq<string>, start: int, sofar: int, more: int)
    requires t.JObj? && Integers(t) && Integers(p) && Incr(fa, t, p).Some?
    requires Leaf(Some(t), path) == ToInt64(start + sofar) && more == Leaf(Some(p), path)
    ensures Leaf(Incr(fa, t, p), path) == ToInt64(start + (sofar + more))
  {
    IncrIsAdd(fa, t, p);
    LeafAdds(fa, Some(t), p, path);
    WrappedSums(start, sofar, more);
  }

  /**
   * After any sequence of successful increments each leaf is its initial value (0 if absent) plus
   * the sum of its deltas, in int64.
   */
  lemma {:induction false} LeavesAreSums(fa: FloatAdd, target: Json, ps: seq<Json>, path: seq<string>)
    requires target.JObj? && Integers(target) && AllIntegers(ps)
    requires IncrAll(fa, target, ps).Some?
    ensures IncrAll(fa, target, ps).value.JObj? && Integers(IncrAll(fa, target, ps).value)
    ensures Leaf(IncrAll(fa, target, ps), path) == ToInt64(Leaf(Some(target), path) + Deltas(ps, path))
  {
    if ps == [] {
      ToInt64OfInt64(Leaf(Some(target), path));
    } else {
      var init, p := ps[..|ps| - 1], ps[|ps| - 1];
      LeavesAreSums(fa, target, init, path);
      OneMoreIncr(fa, IncrAll(fa, target, init).value, p, path, Leaf(Some(target), path), Deltas(init, path),
                  IncrAll(fa, target, ps), Leaf(Some(target), path) + Deltas(ps, path));
    }
  }

  lemma OneMoreIncr(fa: FloatAdd, t: Json, p: Json, path: seq<string>, start: int, sofar: int, r: Option<Json>, sum: int)
    requires t.JObj? && Integers(t) && Integers(p) && r == Incr(fa, t, p) && r.Some?
    requires Leaf(Some(t), path) == ToInt64(start + sofar) && sum == start + (sofar + Leaf(Some(p), path))
    ensures r.value.JObj? && Integers(r.value)
    ensures Leaf(r, path) == ToInt64(sum)
  {
    IncrIntegers(fa, t, p);
    IncrLeaf(fa, t, p, path, start, sofar, Leaf(Some(p), path));
  }

  lemma IncrIntegers(fa: FloatAdd, t: Json, p: Json)
    requires t.JObj? && Integers(t) && Integers(p) && Incr(fa, t, p).Some?
    ensures Incr(fa, t, p).value.JObj? && Integers(Incr(fa, t, p).value)
  {
    IncrIsAdd(fa, t, p);
    AddKeepsIntegers(fa, Some(t), p);
  }

  /** And exactly the sum, when it fits an int64. */
  lemma LeavesAreExactSums(fa: FloatAdd, target: Json, ps: seq<Json>, path: seq<string>)
    requires target.JObj? && Integers(target) && AllIntegers(ps)
    requires IncrAll(fa, target, ps).Some?
    ensures Leaf(IncrAll(fa, target, ps), path) == Leaf(Some(target), path) + Deltas(ps, path)
      <==> IsInt64(Leaf(Some(target), path) + Deltas(ps, path))
  {
    LeavesAreSums(fa, target, ps, path);
    if IsInt64(Leaf(Some(target), path) + Deltas(ps, path)) {
      ToInt64OfInt64(Leaf(Some(target), path) + Deltas(ps, path));
    }
  }

  /** Where both patches write, both add numbers. */
  predicate SameShape(p: Json, q: Json)
    decreases p
  {
    (p.JNum? && q.JNum?)
    || (p.JObj? && q.JObj? && forall k :: k in p.members && k in q.members ==> SameShape(p.members[k], q.members[k]))
  }

  function AddBoth(fa: FloatAdd, cur: Option<Json>, p: Json, q: Json): Option<Json> {
    var r := AddInto(fa, cur, p);
    if r.None? then None else AddInto(fa, r, q)
  }

  lemma NumberTwice(fa: FloatAdd, cur: Option<Json>, c: int64, a: int64, b: int64)
    requires (cur == None && c == 0) || cur == Some(JNum(Int64(c)))
    ensures AddBoth(fa, cur, JNum(Int64(a)), JNum(Int64(b))) == Some(JNum(Int64(ToInt64(c + (a + b)))))
  {
    WrappedSums(c, a, b);
  }

  lemma NumbersCommute(fa: FloatAdd, cur: Option<Json>, p: Json, q: Json)
    requires IntegersOpt(cur) && Integers(p) && Integers(q) && p.JNum? && q.JNum?
    ensures AddBoth(fa, cur, p, q) == AddBoth(fa, cur, q, p)
  {
    if cur.Some? ==> cur.value.JNum? {
      var c: int64, a: int64, b: int64 := if cur.Some? then cur.value.num.n else 0, p.num.n, q.num.n;
      assert p == JNum(Int64(a)) && q == JNum(Int64(b));
      NumberTwice(fa, cur, c, a, b);
      NumberTwice(fa, cur, c, b, a);
      assert a + b == b + a;
    }
  }

  lemma BothField(fa: FloatAdd, cur: Option<Json>, p: Json, q: Json, k: string)
    requires p.JObj? && q.JObj? && AddBoth(fa, cur, p, q).Some?
    ensures AddBoth(fa, cur, p, q).value.JObj?
    ensures OptField(AddBoth(fa, cur, p, q), k) ==
      if k in p.members && k in q.members then AddBoth(fa, OptField(cur, k), p.members[k], q.members[k])
      else if k in p.members then AddInto(fa, OptField(cur, k), p.members[k])
      else if k in q.members then AddInto(fa, OptField(cur, k), q.members[k])
      else OptField(cur, k)
  {
    AddField(fa, cur, p, k);
    AddField(fa, AddInto(fa, cur, p), q, k);
  }

  /** Both increments succeed, in this order, exactly if every member they touch can take them. */
  lemma BothSucceed(fa: FloatAdd, cur: Option<Json>, p: Json, q: Json)
    requires p.JObj? && q.JObj?
    ensures AddBoth(fa, cur, p, q).Some? <==>
      && (cur.Some? ==> cur.value.JObj?)
      && (forall k :: k in p.members ==> AddInto(fa, OptField(cur, k), p.members[k]).Some?)
      && (forall k :: k in q.members ==>
            if k in p.members then AddBoth(fa, OptField(cur, k), p.members[k], q.members[k]).Some?
            else AddInto(fa, OptField(cur, k), q.members[k]).Some?)
  {
    AddSucceeds(fa, cur, p);
    var r := AddInto(fa, cur, p);
    if r.Some? {
      AddSucceeds(fa, r, q);
      forall k
        ensures OptField(r, k) == if k in p.members then AddInto(fa, OptField(cur, k), p.members[k]) else OptField(cur, k)
      {
        AddField(fa, cur, p, k);
      }
    }
  }

  /** Increments of compatible shape commute: same success, same document. */
  lemma {:induction false} IncrementsCommute(fa: FloatAdd, cur: Option<Json>, p: Json, q: Json)
    requires IntegersOpt(cur) && Integers(p) && Integers(q) && SameShape(p, q)
    ensures AddBoth(fa, cur, p, q) == AddBoth(fa, cur, q, p)
    decreases p
  {
    if p.JNum? {
      NumbersCommute(fa, cur, p, q);
    } else {
      forall k | k in p.members && k in q.members
        ensures AddBoth(fa, OptField(cur, k), p.members[k], q.members[k]) == AddBoth(fa, OptField(cur, k), q.members[k], p.members[k])
      {
        IntegersField(cur, k);
        IncrementsCommute(fa, OptField(cur, k), p.members[k], q.members[k]);
      }
      BothSucceed(fa, cur, p, q);
      BothSucceed(fa, cur, q, p);
      BothImpliesEach(fa, cur, p, q);
      if AddBoth(fa, cur, p, q).Some? && AddBoth(fa, cur, q, p).Some? {
        var x, y := AddBoth(fa, cur, p, q), AddBoth(fa, cur, q, p);
        BothField(fa, cur, p, q, "");
        BothField(fa, cur, q, p, "");
        forall k
          ensures Field(x.value, k) == Field(y.value, k)
        {
          BothField(fa, cur, p, q, k);
          BothField(fa, cur, q, p, k);
        }
        SameFields(x.value, y.value);
      }
    }
  }

  /** If a member takes both patches' values in either order, it takes each alone. */
  lemma BothImpliesEach(fa: FloatAdd, cur: Option<Json>, p: Json, q: Json)
    requires p.JObj? && q.JObj?
    requires forall k :: k in p.members && k in q.members ==>
      AddBoth(fa, OptField(cur, k), p.members[k], q.members[k]) == AddBoth(fa, OptField(cur, k), q.members[k], p.members[k])
    ensures forall k :: k in p.members && k in q.members && AddBoth(fa, OptField(cur, k), p.members[k], q.members[k]).Some? ==>
      AddInto(fa, OptField(cur, k), p.members[k]).Some? && AddInto(fa, OptField(cur, k), q.members[k]).Some?
  {
    forall k | k in p.members && k in q.members && AddBoth(fa, OptField(cur, k), p.members[k], q.members[k]).Some?
      ensures AddInto(fa, OptField(cur, k), p.members[k]).Some? && AddInto(fa, OptField(cur, k), q.members[k]).Some?
    {
      assert AddBoth(fa, OptField(cur, k), q.members[k], p.members[k]).Some?;
    }
  }

  /** The increments of only the patch keys in `done`. */
  ghost function AddedOn(fa: FloatAdd, t: Members, p: Members, done: set<string>): Members
    requires done <= p.Keys && forall k :: k in done ==> AddInto(fa, FieldOf(t, k), p[k]).Some?
  {
    map k | k in t.Keys + done :: if k in done then AddInto(fa, FieldOf(t, k), p[k]).value else t[k]
  }

  lemma AddedMore(fa: FloatAdd, t: Members, p: Members, done: set<string>, k: string, cur: Members)
    requires done <= p.Keys && k in p && k !in done
    requires forall x :: x in done ==> AddInto(fa, FieldOf(t, x), p[x]).Some?
    requires cur == AddedOn(fa, t, p, done)
    ensures FieldOf(cur, k) == FieldOf(t, k)
    ensures AddInto(fa, FieldOf(t, k), p[k]).Some? ==>
      cur[k := AddInto(fa, FieldOf(t, k), p[k]).value] == AddedOn(fa, t, p, done + {k})
  {
  }

  /** incrInto as written: patch members in any order, assigning in the target, stopping at the first error. */
  method IncrInto(fa: FloatAdd, target: Members, patch: Members) returns (r: Option<Members>)
    ensures AddInto(fa, Some(JObj(target)), JObj(patch)) == if r.Some? then Some(JObj(r.value)) else None
    decreases JObj(patch), 0
  {
    var t := target;
    var todo := patch.Keys;
    ghost var done := {};
    while todo != {}
      invariant done + todo == patch.Keys && done !! todo
      invariant forall k :: k in done ==> AddInto(fa, FieldOf(target, k), patch[k]).Some?
      invariant t == AddedOn(fa, target, patch, done)
      decreases todo
    {
      var k :| k in todo;
      AddedMore(fa, target, patch, done, k, t);
      var v := IncrField(fa, FieldOf(t, k), patch[k]);
      if v.None? {
        return None;
      }
      t := t[k := v.value];
      todo := todo - {k};
      done := done + {k};
    }
    assert done == patch.Keys;
    r := Some(t);
  }

  /** The switch in incrInto's loop, for one member. */
  method IncrField(fa: FloatAdd, cur: Option<Json>, pv: Json) returns (r: Option<Json>)
    ensures r == AddInto(fa, cur, pv)
    decreases pv, 1
  {
    match pv {
      case JNum(d) =>
        var c := Int64(0);
        if cur.Some? {
          if !cur.value.JNum? {
            return None;
          }
          c := cur.value.num;
        }
        var sum := AddNumbers(fa, c, d);
        return if sum.None? then None else Some(JNum(sum.value));
      case JObj(pm) =>
        var child: Members := map[];
        if cur.Some? {
          if !cur.value.JObj? {
            return None;
          }
          child := cur.value.members;
        }
        var m := IncrInto(fa, child, pm);
        EmptyOrAbsent(fa, cur, pv);
        return if m.None? then None else Some(JObj(m.value));
      case _ =>
        return None;
    }
  }

  lemma EmptyOrAbsent(fa: FloatAdd, cur: Option<Json>, p: Json)
    requires p.JObj? && (cur.Some? ==> cur.value.JObj?)
    ensures AddInto(fa, cur, p) == AddInto(fa, Some(JObj(if cur.Some? then cur.value.members else map[])), p)
  {
  }
}
