/**
 * JavaScript values as the settings, configuration and state records hold
 * them. An object is an ordered list of own properties (`Object.keys`
 * order); an array is an object whose keys are its indices, flagged so
 * that `Array.isArray` can be told apart from a plain object.
 */
module Json {
  import opened Wrappers

  datatype Json = Null | Bool(b: bool) | Num(n: real) | Str(s: string) | Obj(props: seq<Prop>, isArray: bool)

  datatype Prop = Prop(key: string, value: Json)

  const EmptyObject: Json := Obj([], false)

  /** JavaScript truthiness; NaN is not a value of the model. */
  predicate Truthy(j: Json) {
    match j
    case Null => false
    case Bool(b) => b
    case Num(n) => n != 0.0
    case Str(s) => s != ""
    case Obj(_, _) => true
  }

  /** `v && typeof v === "object" && !Array.isArray(v)`. */
  predicate IsPlainObject(j: Json) {
    j.Obj? && !j.isArray
  }

  function Keys(props: seq<Prop>): (ks: seq<string>)
    ensures |ks| == |props|
    ensures forall i :: 0 <= i < |props| ==> ks[i] == props[i].key
  {
    if props == [] then [] else [props[0].key] + Keys(props[1..])
  }

  /** Own property names are distinct, as in every JavaScript object. */
  predicate Distinct(props: seq<Prop>) {
    forall i, j :: 0 <= i < j < |props| ==> props[i].key != props[j].key
  }

  /** Reading `o[k]` as an own property; None stands for `undefined`. */
  function Get(props: seq<Prop>, k: string): (r: Option<Json>)
    ensures r.None? <==> k !in Keys(props)
    ensures r.Some? ==> Prop(k, r.value) in props
  {
    if props == [] then None
    else if props[0].key == k then Some(props[0].value)
    else Get(props[1..], k)
  }

  /** Property read on any value: primitives have no own properties here. */
  function Member(j: Json, k: string): Option<Json> {
    if j.Obj? then Get(j.props, k) else None
  }

  /** `o[k] = v`: an existing key keeps its position, a new key goes last. */
  function Put(props: seq<Prop>, k: string, v: Json): (r: seq<Prop>)
    ensures k in Keys(props) ==> Keys(r) == Keys(props)
    ensures k !in Keys(props) ==> Keys(r) == Keys(props) + [k]
  {
    if props == [] then [Prop(k, v)]
    else if props[0].key == k then [Prop(k, v)] + props[1..]
    else [props[0]] + Put(props[1..], k, v)
  }

  lemma {:induction false} GetPut(props: seq<Prop>, k: string, v: Json, other: string)
    ensures Get(Put(props, k, v), other) == if other == k then Some(v) else Get(props, other)
  {
    if props != [] && props[0].key != k {
      GetPut(props[1..], k, v, other);
    }
  }

  /** A second write to the same key replaces the first. */
  lemma {:induction false} PutPut(props: seq<Prop>, k: string, v: Json, w: Json)
    ensures Put(Put(props, k, v), k, w) == Put(props, k, w)
  {
    if props != [] && props[0].key != k {
      PutPut(props[1..], k, v, w);
    }
  }

  /** A write leaves every other key as it was. */
  lemma PutOthers(props: seq<Prop>, k: string, v: Json)
    ensures Get(Put(props, k, v), k) == Some(v)
    ensures forall x :: x != k ==> Get(Put(props, k, v), x) == Get(props, x)
  {
    forall x {
      GetPut(props, k, v, x);
    }
  }

  lemma {:induction false} PutDistinct(props: seq<Prop>, k: string, v: Json)
    requires Distinct(props)
    ensures Distinct(Put(props, k, v))
  {
    var r := Put(props, k, v);
    if props != [] && props[0].key != k {
      PutDistinct(props[1..], k, v);
      assert props[0].key !in Keys(props[1..]) by {
        forall i | 0 <= i < |props[1..]|
          ensures Keys(props[1..])[i] != props[0].key
        {
          assert props[1..][i] == props[i + 1];
        }
      }
      forall i, j | 0 <= i < j < |r|
        ensures r[i].key != r[j].key
      {
        if i == 0 {
          assert Keys(r)[j] == r[j].key;
          assert r[j].key in Keys(r);
          assert Keys(r)[0] == props[0].key;
          assert Keys(r) == [props[0].key] + Keys(Put(props[1..], k, v));
          assert r[j].key in Keys(Put(props[1..], k, v));
          assert k != props[0].key;
        }
      }
    } else if props != [] {
      forall i, j | 0 <= i < j < |r|
        ensures r[i].key != r[j].key
      {
        assert r[i].key == props[i].key && r[j].key == props[j].key;
      }
    }
  }

  /** In an object with distinct keys, each property is the one its key reads. */
  lemma GetDistinctAt(props: seq<Prop>, i: nat)
    requires i < |props| && Distinct(props)
    ensures Get(props, props[i].key) == Some(props[i].value)
  {
    if i > 0 {
      assert props[0].key != props[i].key;
      assert Distinct(props[1..]) by {
        forall a, b | 0 <= a < b < |props[1..]|
          ensures props[1..][a].key != props[1..][b].key
        {
          assert props[1..][a] == props[a + 1] && props[1..][b] == props[b + 1];
        }
      }
      GetDistinctAt(props[1..], i - 1);
    }
  }

  /** The own properties an object spread copies from a value. */
  function OwnProps(j: Json): (r: seq<Prop>)
    ensures j.Obj? ==> r == j.props
    ensures !j.Obj? ==> r == []
  {
    if j.Obj? then j.props else []
  }

  /** `{ ...base, ...j }`: the own properties of j written over base in order. */
  function Spread(base: seq<Prop>, j: Json): seq<Prop> {
    if j.Obj? then PutAll(base, j.props) else base
  }

  function PutAll(base: seq<Prop>, props: seq<Prop>): seq<Prop>
    decreases |props|
  {
    if props == [] then base else PutAll(Put(base, props[0].key, props[0].value), props[1..])
  }

  /** Spreading keeps every key of base and lets the spread keys win. */
  lemma {:induction false} GetPutAll(base: seq<Prop>, props: seq<Prop>, k: string)
    requires Distinct(props)
    ensures Get(PutAll(base, props), k) == if k in Keys(props) then Get(props, k) else Get(base, k)
    decreases |props|
  {
    if props != [] {
      var b2 := Put(base, props[0].key, props[0].value);
      assert Distinct(props[1..]) by {
        forall i, j | 0 <= i < j < |props[1..]|
          ensures props[1..][i].key != props[1..][j].key
        {
          assert props[1..][i] == props[i + 1] && props[1..][j] == props[j + 1];
        }
      }
      GetPutAll(b2, props[1..], k);
      GetPut(base, props[0].key, props[0].value, k);
      assert Keys(props) == [props[0].key] + Keys(props[1..]);
      if k == props[0].key {
        assert k !in Keys(props[1..]) by {
          forall i | 0 <= i < |props[1..]|
            ensures Keys(props[1..])[i] != k
          {
            assert props[1..][i] == props[i + 1];
          }
        }
      }
    }
  }

  lemma GetSpread(base: seq<Prop>, j: Json, k: string)
    requires j.Obj? ==> Distinct(j.props)
    ensures Get(Spread(base, j), k) == if Member(j, k).Some? then Member(j, k) else Get(base, k)
  {
    if j.Obj? {
      GetPutAll(base, j.props, k);
    }
  }

  /** Number of nodes; a measure for recursion over looked-up members. */
  function Size(j: Json): nat
    decreases j
  {
    match j
    case Obj(props, _) => 1 + SizeFrom(j, 0)
    case _ => 1
  }

  function SizeFrom(j: Json, i: nat): nat
    requires j.Obj? && i <= |j.props|
    decreases j, |j.props| - i
  {
    if i == |j.props| then 0 else Size(j.props[i].value) + SizeFrom(j, i + 1)
  }

  lemma {:induction false} SizeFromBelow(j: Json, i: nat, m: nat)
    requires j.Obj? && i <= m < |j.props|
    ensures Size(j.props[m].value) <= SizeFrom(j, i)
    decreases m - i
  {
    if i < m {
      SizeFromBelow(j, i + 1, m);
    }
  }

  /** A member read from an object is smaller than the object. */
  lemma MemberSmaller(j: Json, k: string)
    requires Member(j, k).Some?
    ensures Size(Member(j, k).value) < Size(j)
  {
    var v := Member(j, k).value;
    var m :| 0 <= m < |j.props| && j.props[m] == Prop(k, v);
    SizeFromBelow(j, 0, m);
  }
}
