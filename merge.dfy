/**
 * The two `deepMerge` helpers.
 *
 * `MergeInto` is the in-place merge of app/main_00.js and app/main.js:
 * the target is returned with the source written into it. `MergeCopy` is
 * the non-mutating merge of app/main_01.js, which builds a new object over
 * the union of the keys of both sides.
 */
module Merge {
  import opened Wrappers
  import opened Json

  /** The value `deepMerge` recurses into when `t[k]` is missing or not an object. */
  function Target(o: Option<Json>): (r: Json)
    ensures r.Obj?
    ensures o.Some? && o.value.Obj? ==> r == o.value
    ensures (o.None? || !o.value.Obj?) ==> r == EmptyObject
  {
    if o.Some? && o.value.Obj? then o.value else EmptyObject
  }

  /** The value `t[k]` holds after the merge of a source member `sv`. */
  function MergedMember(tv: Option<Json>, sv: Json): Json
    decreases sv, 2
  {
    if IsPlainObject(sv) then MergeInto(Target(tv), sv) else sv
  }

  /** In-place `deepMerge(t, s)`, returning the updated target. */
  function MergeInto(t: Json, s: Json): (r: Json)
    requires t.Obj?
    ensures r.Obj? && r.isArray == t.isArray
    ensures !Truthy(s) || !s.Obj? ==> r == t
    decreases s, 1
  {
    if !Truthy(s) || !s.Obj? then t else Obj(MergeFrom(t.props, s, 0), t.isArray)
  }

  function MergeFrom(tp: seq<Prop>, s: Json, i: nat): seq<Prop>
    requires s.Obj? && i <= |s.props|
    decreases s, 0, |s.props| - i
  {
    if i == |s.props| then tp
    else
      var k := s.props[i].key;
      MergeFrom(Put(tp, k, MergedMember(Get(tp, k), s.props[i].value)), s, i + 1)
  }

  lemma {:induction false} GetMergeFrom(tp: seq<Prop>, s: Json, i: nat, k: string)
    requires s.Obj? && i <= |s.props| && Distinct(s.props)
    ensures Get(MergeFrom(tp, s, i), k)
         == if k in Keys(s.props[i..]) then Some(MergedMember(Get(tp, k), Get(s.props, k).value)) else Get(tp, k)
    decreases |s.props| - i
  {
    if i < |s.props| {
      var ki := s.props[i].key;
      var tp2 := Put(tp, ki, MergedMember(Get(tp, ki), s.props[i].value));
      GetMergeFrom(tp2, s, i + 1, k);
      GetPut(tp, ki, MergedMember(Get(tp, ki), s.props[i].value), k);
      InDrop(s.props, i, k);
      InDrop(s.props, i + 1, k);
      if k == ki {
        GetDistinctAt(s.props, i);
      } else if k in Keys(s.props[i + 1..]) {
        var m :| i + 1 <= m < |s.props| && s.props[m].key == k;
        GetDistinctAt(s.props, m);
      }
    }
  }

  /** A key occurs in a suffix exactly when some property from there on has it. */
  lemma InDrop(props: seq<Prop>, j: nat, k: string)
    requires j <= |props|
    ensures k in Keys(props[j..]) <==> exists m :: j <= m < |props| && props[m].key == k
  {
    var d := props[j..];
    if k in Keys(d) {
      var x :| 0 <= x < |d| && Keys(d)[x] == k;
      assert d[x] == props[j + x];
    }
    if exists m :: j <= m < |props| && props[m].key == k {
      var m :| j <= m < |props| && props[m].key == k;
      assert d[m - j] == props[m];
      assert Keys(d)[m - j] == k;
    }
  }

  /**
   * What every key holds after `deepMerge(t, s)`: a plain-object source
   * member is merged recursively into the target's member (or into a fresh
   * `{}` when that is missing or not an object); any other source member,
   * arrays included, overwrites; keys absent from the source keep their value.
   */
  lemma MergeIntoMember(t: Json, s: Json, k: string)
    requires t.Obj? && s.Obj? && Distinct(s.props)
    ensures Member(MergeInto(t, s), k)
         == if Member(s, k).Some? then Some(MergedMember(Member(t, k), Member(s, k).value)) else Member(t, k)
  {
    GetMergeFrom(t.props, s, 0, k);
    assert s.props[0..] == s.props;
  }

  /** The keys of the result are the target's keys followed by the source's new keys. */
  lemma {:induction false} MergeFromKeys(tp: seq<Prop>, s: Json, i: nat, k: string)
    requires s.Obj? && i <= |s.props|
    ensures k in Keys(MergeFrom(tp, s, i)) <==> k in Keys(tp) || k in Keys(s.props[i..])
    decreases |s.props| - i
  {
    if i < |s.props| {
      var ki := s.props[i].key;
      MergeFromKeys(Put(tp, ki, MergedMember(Get(tp, ki), s.props[i].value)), s, i + 1, k);
      assert s.props[i..] == [s.props[i]] + s.props[i + 1..];
      assert Keys(s.props[i..]) == [ki] + Keys(s.props[i + 1..]);
    }
  }

  /** Keys that are own properties of the non-mutating result. */
  function UnionKeys(a: seq<string>, b: seq<string>): (r: seq<string>)
    ensures forall k :: k in r <==> k in a || k in b
    decreases |b|
  {
    if b == [] then a else if b[0] in a then UnionKeys(a, b[1..]) else UnionKeys(a + [b[0]], b[1..])
  }

  function ObjectKeys(j: Json): seq<string> {
    if j.Obj? then Keys(j.props) else []
  }

  /**
   * app/main_01.js `deepMerge(a, b)`: a falsy b gives a copy of a (or `{}`),
   * a falsy a a copy of b; otherwise each key of either side takes the
   * recursive merge when both members are plain objects, b's member when b
   * has one, and a's member otherwise.
   */
  function MergeCopy(a: Json, b: Json): (r: Json)
    decreases Size(b), 2
  {
    if !Truthy(b) then (if Truthy(a) then a else EmptyObject)
    else if !Truthy(a) then b
    else Obj(CopyMembers(a, b, UnionKeys(ObjectKeys(a), ObjectKeys(b))), a.Obj? && a.isArray)
  }

  function CopyMember(a: Json, b: Json, k: string): Json
    requires Member(a, k).Some? || Member(b, k).Some?
    decreases Size(b), 0, 0
  {
    var va := Member(a, k);
    var vb := Member(b, k);
    if va.Some? && vb.Some? && IsPlainObject(va.value) && IsPlainObject(vb.value) then
      MemberSmaller(b, k);
      MergeCopy(va.value, vb.value)
    else if vb.Some? then vb.value
    else va.value
  }

  function CopyMembers(a: Json, b: Json, keys: seq<string>): (r: seq<Prop>)
    requires forall k :: k in keys ==> Member(a, k).Some? || Member(b, k).Some?
    ensures Keys(r) == keys
    decreases Size(b), 1, |keys|
  {
    if keys == [] then [] else [Prop(keys[0], CopyMember(a, b, keys[0]))] + CopyMembers(a, b, keys[1..])
  }

  lemma {:induction false} GetCopyMembers(a: Json, b: Json, keys: seq<string>, k: string)
    requires forall k :: k in keys ==> Member(a, k).Some? || Member(b, k).Some?
    ensures Get(CopyMembers(a, b, keys), k) == if k in keys then Some(CopyMember(a, b, k)) else None
    decreases |keys|
  {
    if keys != [] && keys[0] != k {
      GetCopyMembers(a, b, keys[1..], k);
    }
  }

  /**
   * The result of the non-mutating merge of two truthy values has exactly
   * the keys of either side, and each one is the pairwise merge of the two
   * members, b's member, or a's member; neither argument is changed.
   */
  lemma MergeCopyMember(a: Json, b: Json, k: string)
    requires Truthy(a) && Truthy(b)
    ensures Member(MergeCopy(a, b), k).Some? <==> Member(a, k).Some? || Member(b, k).Some?
    ensures Member(a, k).Some? || Member(b, k).Some? ==>
      Member(MergeCopy(a, b), k) == Some(
        if Member(a, k).Some? && Member(b, k).Some? && IsPlainObject(Member(a, k).value) && IsPlainObject(Member(b, k).value)
        then MergeCopy(Member(a, k).value, Member(b, k).value)
        else if Member(b, k).Some? then Member(b, k).value
        else Member(a, k).value)
  {
    var keys := UnionKeys(ObjectKeys(a), ObjectKeys(b));
    forall k' | k' in keys
      ensures Member(a, k').Some? || Member(b, k').Some?
    {
    }
    GetCopyMembers(a, b, keys, k);
  }
}
