/** JSON values and JSON Merge Patch as section 2 of RFC 7396 defines it. */
module Json {
  import opened Wrappers

  datatype Json =
    | Null
    | Bool(b: bool)
    | Num(n: int)
    | Str(s: string)
    | Arr(items: seq<Json>)
    | Obj(fields: map<string, Json>)

  /** A missing member and a null member look the same to a reader. */
  function Member(j: Json, k: string): Json {
    if j.Obj? && k in j.fields then j.fields[k] else Null
  }

  function MergePatch(target: Json, patch: Json): Json
    decreases patch
  {
    if patch.Obj? then
      var base := if target.Obj? then target.fields else map[];
      Obj(map k | k in base.Keys + patch.fields.Keys && !(k in patch.fields && patch.fields[k].Null?) ::
            if k in patch.fields then MergePatch(Member(target, k), patch.fields[k]) else base[k])
    else
      patch
  }

  /** A patched object, member by member: null in the patch removes, anything else in
      it is merged, and the rest of the target stays. */
  lemma MergedMembers(target: Json, patch: Json, k: string)
    requires patch.Obj?
    ensures
      var had := target.Obj? && k in target.fields;
      var after := MergePatch(target, patch);
      && after.Obj?
      && (k in patch.fields && patch.fields[k] == Null ==> k !in after.fields)
      && (k in patch.fields && patch.fields[k] != Null ==>
            k in after.fields
            && after.fields[k] == MergePatch(if had then target.fields[k] else Null, patch.fields[k]))
      && (k !in patch.fields && had ==> k in after.fields && after.fields[k] == target.fields[k])
      && (k !in patch.fields && !had ==> k !in after.fields)
  {
  }

  /** Patching one member, whether or not the target has it. */
  lemma SingleMemberPatch(m: map<string, Json>, k: string, p: Json)
    requires !p.Null?
    ensures MergePatch(Obj(m), Obj(map[k := p])) == Obj(m[k := MergePatch(Member(Obj(m), k), p)])
  {
    var patched := MergePatch(Obj(m), Obj(map[k := p]));
    assert patched.fields.Keys == m.Keys + {k};
    assert patched.fields == m[k := MergePatch(Member(Obj(m), k), p)];
  }

  /** Where a patch leaves a member it does not descend into. */
  lemma PatchedMember(j: Json, patch: Json, k: string)
    requires patch.Obj?
    requires k in patch.fields ==> !patch.fields[k].Obj?
    ensures Member(MergePatch(j, patch), k) == if k in patch.fields then patch.fields[k] else Member(j, k)
  {
  }

  // ---------------------------------------------------------------------
  // Objects written member by member, some of them skipped
  // ---------------------------------------------------------------------

  function Members(entries: seq<(string, Option<Json>)>): map<string, Json> {
    if entries == [] then map[]
    else
      var (k, o) := entries[0];
      var rest := Members(entries[1..]);
      if o.Some? then rest[k := o.value] else rest
  }

  predicate DistinctKeys(entries: seq<(string, Option<Json>)>) {
    forall i, j | 0 <= i < j < |entries| :: entries[i].0 != entries[j].0
  }

  lemma {:induction false} MemberOf(entries: seq<(string, Option<Json>)>, i: nat)
    requires DistinctKeys(entries) && i < |entries|
    ensures Lookup(Members(entries), entries[i].0) == entries[i].1
  {
    if i == 0 {
      NotAMember(entries[1..], entries[0].0);
    } else {
      MemberOf(entries[1..], i - 1);
    }
  }

  lemma {:induction false} NotAMember(entries: seq<(string, Option<Json>)>, k: string)
    requires forall i | 0 <= i < |entries| :: entries[i].0 != k
    ensures k !in Members(entries)
  {
    if entries != [] {
      NotAMember(entries[1..], k);
    }
  }

  // ---------------------------------------------------------------------
  // Laws of merge patches
  // ---------------------------------------------------------------------

  /** Every path `p` touches is touched by `q` as well. */
  ghost predicate Overrides(q: Json, p: Json)
    decreases q
  {
    q.Obj? ==>
      && p.Obj?
      && forall k | k in p.fields :: k in q.fields && Overrides(q.fields[k], p.fields[k])
  }

  /** A patch that overrides an earlier one erases every trace of it. */
  lemma {:induction false} LaterPatchWins(t: Json, p: Json, q: Json)
    requires Overrides(q, p)
    ensures MergePatch(MergePatch(t, p), q) == MergePatch(t, q)
    decreases q
  {
    if q.Obj? {
      var a, b := MergePatch(MergePatch(t, p), q), MergePatch(t, q);
      assert a.fields.Keys == b.fields.Keys;
      forall k | k in b.fields
        ensures a.fields[k] == b.fields[k]
      {
        var mid := MergePatch(t, p);
        if k in p.fields {
          assert Overrides(q.fields[k], p.fields[k]);
          if p.fields[k].Null? {
            assert MergePatch(Member(mid, k), q.fields[k]) == q.fields[k] == MergePatch(Member(t, k), q.fields[k]);
          } else {
            LaterPatchWins(Member(t, k), p.fields[k], q.fields[k]);
            assert Member(mid, k) == MergePatch(Member(t, k), p.fields[k]);
          }
        } else {
          assert Member(mid, k) == Member(t, k);
        }
      }
    }
  }

  lemma {:induction false} OverridesItself(p: Json)
    ensures Overrides(p, p)
  {
    if p.Obj? {
      forall k | k in p.fields
        ensures Overrides(p.fields[k], p.fields[k])
      {
        OverridesItself(p.fields[k]);
      }
    }
  }

  lemma MergePatchIdempotent(t: Json, p: Json)
    ensures MergePatch(MergePatch(t, p), p) == MergePatch(t, p)
  {
    OverridesItself(p);
    LaterPatchWins(t, p, p);
  }
}
