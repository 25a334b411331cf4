/**
 * `createStateService` (app/services/stateService.js): one state record,
 * created from `createState` (app/state.js), read by `get` and updated by
 * `patch(path, value)`, which walks a dotted path, creates the missing
 * intermediate objects and assigns the leaf. Reading a property of, or
 * writing one onto, a value that is not an object raises a TypeError
 * (the file is strict-mode code).
 */
module StateService {
  import opened Wrappers
  import opened Json
  import Text

  datatype PatchError = TypeError

  /** The record `createState()` returns. */
  const InitialState: Json := Obj([
    Prop("appState", Null),
    Prop("config", Null),
    Prop("settings", Null),
    Prop("voices", Obj([], true)),
    Prop("availableLanguages", Obj([], true)),
    Prop("texts", Obj([], true)),
    Prop("inputs", Obj([], true)),
    Prop("playQueue", Obj([], true)),
    Prop("currentIndex", Num(0.0)),
    Prop("repeatsRemaining", Num(1.0))
  ], false)

  /** The value the walk moves to: the own property, or a fresh `{}` when missing. */
  function Child(j: Json, k: string): Json {
    match Member(j, k)
    case None => EmptyObject
    case Some(c) => c
  }

  /** Where the walk stands after following the keys of `prefix` from root. */
  function Descend(root: Json, prefix: seq<string>): Json
    decreases |prefix|
  {
    if prefix == [] then root else Child(Descend(root, prefix[..|prefix| - 1]), prefix[|prefix| - 1])
  }

  /** Reading a path through own properties only. */
  function Lookup(root: Json, path: seq<string>): Option<Json>
    decreases |path|
  {
    if path == [] then Some(root)
    else match Member(root, path[0])
      case None => None
      case Some(c) => Lookup(c, path[1..])
  }

  /**
   * The state after `patch`: each intermediate along `parts` (created as `{}`
   * when missing) gets the patched child in place of the old one, and the
   * last object gets the leaf. A non-object on the way makes it fail.
   */
  function Patched(root: Json, parts: seq<string>, value: Json): (r: Result<Json, PatchError>)
    requires |parts| >= 1
    ensures r.Success? ==> root.Obj? && r.value.Obj? && r.value.isArray == root.isArray
    ensures r.Failure? ==> r == Failure(TypeError)
    decreases |parts|
  {
    if !root.Obj? then Failure(TypeError)
    else if |parts| == 1 then Success(Obj(Put(root.props, parts[0], value), root.isArray))
    else
      match Patched(Child(root, parts[0]), parts[1..], value)
      case Failure(e) => Failure(e)
      case Success(c) => Success(Obj(Put(root.props, parts[0], c), root.isArray))
  }

  /** One more key along the walk moves to that key's child. */
  lemma DescendSnoc(root: Json, parts: seq<string>, i: nat)
    requires i < |parts|
    ensures Descend(root, parts[..i + 1]) == Child(Descend(root, parts[..i]), parts[i])
  {
    var p := parts[..i + 1];
    assert p[..|p| - 1] == parts[..i] && p[|p| - 1] == parts[i];
  }

  lemma {:induction false} DescendCons(root: Json, k: string, rest: seq<string>)
    ensures Descend(root, [k] + rest) == Descend(Child(root, k), rest)
    decreases |rest|
  {
    if rest == [] {
      assert ([k] + rest)[..0] == [];
    } else {
      var p, init, last := [k] + rest, rest[..|rest| - 1], rest[|rest| - 1];
      assert p[..|p| - 1] == [k] + init && p[|p| - 1] == last;
      DescendCons(root, k, init);
      assert Descend(root, p) == Child(Descend(root, [k] + init), last);
      assert Descend(Child(root, k), rest) == Child(Descend(Child(root, k), init), last);
    }
  }

  /** Below the first key, the walk along `parts` is the walk from the first child along the rest. */
  lemma DescendShifts(root: Json, parts: seq<string>)
    requires |parts| > 1
    ensures forall m :: 1 <= m <= |parts[1..]| ==> Descend(root, parts[..m]) == Descend(Child(root, parts[0]), parts[1..][..m - 1])
  {
    var rest := parts[1..];
    forall m | 1 <= m <= |rest|
      ensures Descend(root, parts[..m]) == Descend(Child(root, parts[0]), rest[..m - 1])
    {
      assert parts[..m] == [parts[0]] + rest[..m - 1];
      DescendCons(root, parts[0], rest[..m - 1]);
    }
  }

  /** Below an object root, every value on the walk is an object exactly when every value on the first child's walk is one. */
  lemma WalkObjectsShift(root: Json, parts: seq<string>)
    requires root.Obj? && |parts| > 1
    ensures (forall m :: 0 <= m < |parts| ==> Descend(root, parts[..m]).Obj?)
        <==> (forall m :: 0 <= m < |parts[1..]| ==> Descend(Child(root, parts[0]), parts[1..][..m]).Obj?)
  {
    var rest := parts[1..];
    assert parts[..0] == [];
    DescendShifts(root, parts);
    if forall m :: 0 <= m < |parts| ==> Descend(root, parts[..m]).Obj? {
      forall m | 0 <= m < |rest| ensures Descend(Child(root, parts[0]), rest[..m]).Obj? {
        assert Descend(root, parts[..m + 1]).Obj?;
      }
    }
    if forall m :: 0 <= m < |rest| ==> Descend(Child(root, parts[0]), rest[..m]).Obj? {
      forall m | 0 <= m < |parts| ensures Descend(root, parts[..m]).Obj? {
        if m > 0 {
          assert Descend(Child(root, parts[0]), rest[..m - 1]).Obj?;
        }
      }
    }
  }

  /** `patch` succeeds exactly when every value the walk reaches is an object. */
  lemma {:induction false} PatchedSucceedsIff(root: Json, parts: seq<string>, value: Json)
    requires |parts| >= 1
    ensures Patched(root, parts, value).Success? <==> forall m :: 0 <= m < |parts| ==> Descend(root, parts[..m]).Obj?
    decreases |parts|
  {
    assert parts[..0] == [];
    if root.Obj? && |parts| > 1 {
      PatchedSucceedsIff(Child(root, parts[0]), parts[1..], value);
      WalkObjectsShift(root, parts);
    }
  }

  /** After a successful patch, reading the same path yields the value. */
  lemma {:induction false} PatchedThenLookup(root: Json, parts: seq<string>, value: Json)
    requires |parts| >= 1 && Patched(root, parts, value).Success?
    ensures Lookup(Patched(root, parts, value).value, parts) == Some(value)
    decreases |parts|
  {
    var r := Patched(root, parts, value).value;
    PutOthers(root.props, parts[0], Patched(root, parts, value).value.props[0].value);
    if |parts| == 1 {
      PutOthers(root.props, parts[0], value);
    } else {
      var c := Patched(Child(root, parts[0]), parts[1..], value).value;
      PutOthers(root.props, parts[0], c);
      PatchedThenLookup(Child(root, parts[0]), parts[1..], value);
    }
  }

  /**
   * A path that leaves `parts` at some position keeps its value: only the
   * patched path and the intermediates created on it change.
   */
  /** One level of a successful patch: the first key now holds the patched child. */
  lemma PatchedUnfold(root: Json, parts: seq<string>, value: Json)
    requires |parts| >= 1 && Patched(root, parts, value).Success?
    ensures root.Obj?
    ensures |parts| == 1 ==> Patched(root, parts, value).value == Obj(Put(root.props, parts[0], value), root.isArray)
    ensures |parts| > 1 ==> Patched(Child(root, parts[0]), parts[1..], value).Success?
    ensures |parts| > 1 ==>
      Patched(root, parts, value).value == Obj(Put(root.props, parts[0], Patched(Child(root, parts[0]), parts[1..], value).value), root.isArray)
  {
  }

  lemma LookupCons(j: Json, path: seq<string>)
    requires path != []
    ensures Lookup(j, path) == if Member(j, path[0]).Some? then Lookup(Member(j, path[0]).value, path[1..]) else None
  {
  }

  lemma {:induction false} PatchedKeepsOtherPaths(root: Json, parts: seq<string>, value: Json, other: seq<string>, i: nat)
    requires |parts| >= 1 && Patched(root, parts, value).Success?
    requires i < |parts| && i < |other| && other[i] != parts[i]
    requires other[..i] == parts[..i]
    ensures Lookup(Patched(root, parts, value).value, other) == Lookup(root, other)
    decreases i
  {
    if i > 0 {
      PatchedUnfold(root, parts, value);
      assert other[0] == other[..i][0] == parts[..i][0] == parts[0];
      assert other[1..][..i - 1] == other[..i][1..] == parts[..i][1..] == parts[1..][..i - 1];
      PatchedKeepsOtherPaths(Child(root, parts[0]), parts[1..], value, other[1..], i - 1);
      PatchedDescends(root, parts, value, other);
    } else {
      PatchedKeepsSiblings(root, parts, value, other);
    }
  }

  /** A path whose first key differs reads the same before and after. */
  lemma PatchedKeepsSiblings(root: Json, parts: seq<string>, value: Json, other: seq<string>)
    requires |parts| >= 1 && Patched(root, parts, value).Success?
    requires other != [] && other[0] != parts[0]
    ensures Lookup(Patched(root, parts, value).value, other) == Lookup(root, other)
  {
    var r := Patched(root, parts, value).value;
    PatchedUnfold(root, parts, value);
    var leaf := if |parts| == 1 then value else Patched(Child(root, parts[0]), parts[1..], value).value;
    GetPut(root.props, parts[0], leaf, other[0]);
    LookupCons(r, other);
    LookupCons(root, other);
  }

  /** Below the first key, the patched state reads as the patched child. */
  lemma PatchedDescends(root: Json, parts: seq<string>, value: Json, other: seq<string>)
    requires |parts| > 1 && Patched(root, parts, value).Success?
    requires |other| > 1 && other[0] == parts[0]
    requires Lookup(Patched(Child(root, parts[0]), parts[1..], value).value, other[1..]) == Lookup(Child(root, parts[0]), other[1..])
    ensures Lookup(Patched(root, parts, value).value, other) == Lookup(root, other)
  {
    var r := Patched(root, parts, value).value;
    PatchedUnfold(root, parts, value);
    var c := Patched(Child(root, parts[0]), parts[1..], value).value;
    GetPut(root.props, parts[0], c, parts[0]);
    LookupCons(r, other);
    LookupCons(root, other);
    if Member(root, parts[0]).None? {
      ChildOfEmpty(other[1..]);
    }
  }

  /** Nothing can be read below a fresh `{}`. */
  lemma ChildOfEmpty(path: seq<string>)
    requires path != []
    ensures Lookup(EmptyObject, path) == None
  {
  }

  /** The empty prefix reads the patched root itself, an object. */
  lemma PatchedRootIsObject(root: Json, parts: seq<string>, value: Json)
    requires |parts| >= 1 && Patched(root, parts, value).Success?
    ensures var l := Lookup(Patched(root, parts, value).value, parts[..0]); l.Some? && l.value.Obj?
  {
    assert parts[..0] == [];
  }

  /** A non-empty prefix starts with the first key and goes on with a prefix of the rest. */
  lemma PrefixTail(parts: seq<string>, m: nat)
    requires 0 < m <= |parts|
    ensures parts[..m] != [] && parts[..m][0] == parts[0] && parts[..m][1..] == parts[1..][..m - 1]
  {
  }

  /** After a patch along more than one key, the first key holds the patched child. */
  lemma PatchedFirstMember(root: Json, parts: seq<string>, value: Json)
    requires |parts| > 1 && Patched(root, parts, value).Success?
    ensures Patched(Child(root, parts[0]), parts[1..], value).Success?
    ensures Member(Patched(root, parts, value).value, parts[0]) == Some(Patched(Child(root, parts[0]), parts[1..], value).value)
  {
    PatchedUnfold(root, parts, value);
    var c := Patched(Child(root, parts[0]), parts[1..], value).value;
    GetPut(root.props, parts[0], c, parts[0]);
  }

  /** One level down: the prefix of length `m` reads the child's prefix of length `m - 1`, below the patched child. */
  lemma PatchedIntermediateStep(root: Json, parts: seq<string>, value: Json, m: nat)
    requires |parts| >= 1 && Patched(root, parts, value).Success? && 0 < m < |parts|
    requires Patched(Child(root, parts[0]), parts[1..], value).Success?
    ensures Lookup(Patched(root, parts, value).value, parts[..m]) == Lookup(Patched(Child(root, parts[0]), parts[1..], value).value, parts[1..][..m - 1])
  {
    var r := Patched(root, parts, value).value;
    PatchedFirstMember(root, parts, value);
    PrefixTail(parts, m);
    LookupCons(r, parts[..m]);
  }

  /** Every intermediate on a patched path is an object afterwards. */
  lemma {:induction false} PatchedIntermediatesAreObjects(root: Json, parts: seq<string>, value: Json, m: nat)
    requires |parts| >= 1 && Patched(root, parts, value).Success? && m < |parts|
    ensures var l := Lookup(Patched(root, parts, value).value, parts[..m]); l.Some? && l.value.Obj?
    decreases m
  {
    if m == 0 {
      PatchedRootIsObject(root, parts, value);
    } else {
      PatchedUnfold(root, parts, value);
      PatchedIntermediatesAreObjects(Child(root, parts[0]), parts[1..], value, m - 1);
      PatchedIntermediateStep(root, parts, value, m);
    }
  }

  /** The initial settings are null, so a patch below them raises a TypeError. */
  lemma PatchBelowInitialSettingsFails(key: string, value: Json)
    ensures Patched(InitialState, ["settings", key], value) == Failure(TypeError)
  {
    assert Get(InitialState.props, "settings") == Some(Null);
  }

  /** A top-level key of the initial record is replaced in place. */
  lemma PatchInitialTopLevel(value: Json)
    ensures Patched(InitialState, ["currentIndex"], value).Success?
    ensures Member(Patched(InitialState, ["currentIndex"], value).value, "currentIndex") == Some(value)
    ensures Keys(Patched(InitialState, ["currentIndex"], value).value.props) == Keys(InitialState.props)
  {
    PutOthers(InitialState.props, "currentIndex", value);
  }

  /** The walk reaching a non-object makes the patch fail. */
  lemma PatchedFailsAt(root: Json, parts: seq<string>, value: Json, i: nat)
    requires i < |parts| && !Descend(root, parts[..i]).Obj?
    ensures Patched(root, parts, value) == Failure(TypeError)
  {
    PatchedSucceedsIff(root, parts, value);
  }

  /** One assignment on the way back from the leaf to the root. */
  lemma PatchedStep(root: Json, parts: seq<string>, value: Json, j: nat, acc: Json)
    requires j < |parts| - 1 && Descend(root, parts[..j]).Obj?
    requires Patched(Descend(root, parts[..j + 1]), parts[j + 1..], value) == Success(acc)
    ensures var d := Descend(root, parts[..j]);
      Patched(d, parts[j..], value) == Success(Obj(Put(d.props, parts[j], acc), d.isArray))
  {
    assert parts[..j + 1][..j] == parts[..j];
    assert parts[j..][1..] == parts[j + 1..];
  }

  /** `trail` holds the objects met along the first |trail| keys of `parts`, the root first. */
  ghost predicate IsTrail(root: Json, parts: seq<string>, trail: seq<Json>)
  {
    |trail| <= |parts| && forall m :: 0 <= m < |trail| ==> trail[m] == Descend(root, parts[..m]) && trail[m].Obj?
  }

  /**
   * The `while` loop of `patch`: from the root along all keys but the last,
   * keeping each object it passes and moving on to its child, or a fresh `{}`.
   * It stops with a TypeError at the first non-object, the last one included.
   */
  method Walk(root: Json, parts: seq<string>, value: Json) returns (trail: seq<Json>, ref: Json, ok: bool)
    requires |parts| >= 1
    ensures ok ==> |trail| == |parts| - 1 && ref == Descend(root, parts[..|parts| - 1]) && ref.Obj?
    ensures ok ==> IsTrail(root, parts, trail)
    ensures !ok ==> Patched(root, parts, value) == Failure(TypeError)
  {
    trail, ref := [], root;
    var i := 0;
    while i < |parts| - 1
      invariant 0 <= i <= |parts| - 1
      invariant |trail| == i
      invariant ref == Descend(root, parts[..i])
      invariant IsTrail(root, parts, trail)
    {
      if !ref.Obj? {
        PatchedFailsAt(root, parts, value, i);
        return trail, ref, false;
      }
      DescendSnoc(root, parts, i);
      trail := trail + [ref];
      ref := Child(ref, parts[i]);
      i := i + 1;
    }
    if !ref.Obj? {
      PatchedFailsAt(root, parts, value, i);
      return trail, ref, false;
    }
    assert i == |parts| - 1 && |trail| == i;
    ok := true;
  }

  /** The assignments of `patch` from the leaf back to the root, each object taking the rebuilt child. */
  method Rebuild(root: Json, parts: seq<string>, value: Json, trail: seq<Json>, ref: Json) returns (acc: Json)
    requires |parts| >= 1 && |trail| == |parts| - 1 && ref == Descend(root, parts[..|parts| - 1]) && ref.Obj?
    requires IsTrail(root, parts, trail)
    ensures Patched(root, parts, value) == Success(acc)
  {
    var i := |parts| - 1;
    acc := Obj(Put(ref.props, parts[i], value), ref.isArray);
    assert parts[i..] == [parts[i]];
    var j := i;
    while j > 0
      invariant 0 <= j <= i
      invariant Patched(Descend(root, parts[..j]), parts[j..], value) == Success(acc)
    {
      j := j - 1;
      var a := trail[j];
      PatchedStep(root, parts, value, j, acc);
      acc := Obj(Put(a.props, parts[j], acc), a.isArray);
    }
    assert parts[..0] == [] && parts[0..] == parts;
  }

  class StateService {
    var state: Json

    constructor ()
      ensures state == InitialState
    {
      state := InitialState;
    }

    /**
     * `patch(path, value)`: the walk of the while loop, keeping the objects it
     * passes, then the in-place assignments from the leaf back to the root.
     * On a TypeError the state is left as it was.
     */
    method Patch(path: string, value: Json) returns (r: Result<Json, PatchError>)
      modifies this`state
      ensures r == Patched(old(state), Text.Split(path, '.'), value)
      ensures r.Success? ==> state == r.value
      ensures r.Failure? ==> state == old(state)
    {
      var parts := Text.Split(path, '.');
      var trail, ref, ok := Walk(state, parts, value);
      if !ok {
        return Failure(TypeError);
      }
      var acc := Rebuild(state, parts, value, trail, ref);
      state := acc;
      r := Success(acc);
    }
  }
}
