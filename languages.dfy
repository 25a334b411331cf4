/**
 * The list of language codes offered in the language select, computed
 * from the voice catalogue: the base subtag of each voice's `lang`,
 * upper-cased, deduplicated and sorted, plus the entry "ALL". The
 * revisions differ in the separators, in dropping empty codes and in
 * where "ALL" goes.
 */
module Languages {
  import opened Text
  import opened Voices

  /** Where "ALL" is placed. */
  datatype Placement = PrependIfAbsent | AppendIfAbsent | AppendAlways

  datatype Variant = Variant(dashOnly: bool, dropEmpty: bool, placement: Placement)

  /** app/main_00.js: split on `-` or `_`, drop empties, prepend "ALL". */
  const BusRevision := Variant(false, true, PrependIfAbsent)
  /** app/main.js and script/script_09.js: split on `-`, drop empties, append "ALL". */
  const StoreRevision := Variant(true, true, AppendIfAbsent)
  /** app/main_01.js: split on `-` or `_`, keep empties, prepend "ALL". */
  const FlagsRevision := Variant(false, false, PrependIfAbsent)
  /** script/script_05.js and script/script_02.js: split on `-`, keep empties, always append "ALL". */
  const ScriptRevision := Variant(true, false, AppendAlways)

  /** Code-unit order, the order of `Array.prototype.sort` on strings. */
  predicate Less(a: string, b: string)
    decreases |a|
  {
    if a == [] then b != []
    else if b == [] then false
    else if a[0] != b[0] then a[0] < b[0]
    else Less(a[1..], b[1..])
  }

  lemma {:induction false} LessIrreflexive(a: string)
    ensures !Less(a, a)
    decreases |a|
  {
    if a != [] {
      LessIrreflexive(a[1..]);
    }
  }

  lemma {:induction false} LessTransitive(a: string, b: string, c: string)
    requires Less(a, b) && Less(b, c)
    ensures Less(a, c)
    decreases |a|
  {
    if a != [] && b != [] && c != [] && a[0] == b[0] && b[0] == c[0] {
      LessTransitive(a[1..], b[1..], c[1..]);
    }
  }

  lemma {:induction false} LessTotal(a: string, b: string)
    requires a != b
    ensures Less(a, b) || Less(b, a)
    decreases |a|
  {
    if a != [] && b != [] && a[0] == b[0] {
      assert a == [a[0]] + a[1..] && b == [b[0]] + b[1..];
      LessTotal(a[1..], b[1..]);
    }
  }

  predicate StrictlySorted(s: seq<string>) {
    forall i, j :: 0 <= i < j < |s| ==> Less(s[i], s[j])
  }

  /** Inserts x into a strictly sorted list unless it is already there. */
  function Insert(x: string, s: seq<string>): (r: seq<string>)
    requires StrictlySorted(s)
    ensures StrictlySorted(r)
    ensures forall y :: y in r <==> y == x || y in s
  {
    if s == [] then [x]
    else if x == s[0] then s
    else if Less(x, s[0]) then
      assert forall j :: 0 < j < |s| ==> Less(x, s[j]) by {
        forall j | 0 < j < |s| { LessTransitive(x, s[0], s[j]); }
      }
      [x] + s
    else
      LessTotal(x, s[0]);
      var t := Insert(x, s[1..]);
      assert forall y :: y in t ==> Less(s[0], y) by {
        forall y | y in t ensures Less(s[0], y) {
          if y != x {
            var j :| 0 <= j < |s[1..]| && s[1..][j] == y;
            assert s[j + 1] == y;
          }
        }
      }
      [s[0]] + t
  }

  /** `Array.from(new Set(xs)).sort()`. */
  function SortDistinct(xs: seq<string>): (r: seq<string>)
    ensures StrictlySorted(r)
    ensures forall y :: y in r <==> y in xs
  {
    if xs == [] then [] else Insert(xs[|xs| - 1], SortDistinct(xs[..|xs| - 1]))
  }

  /** The head of a strictly sorted list precedes every other element. */
  lemma HeadIsLeast(s: seq<string>)
    requires StrictlySorted(s) && s != []
    ensures forall y :: y in s ==> y == s[0] || Less(s[0], y)
  {
  }

  lemma SameElementsBothEmpty(a: seq<string>, b: seq<string>)
    requires forall y :: y in a <==> y in b
    ensures a == [] <==> b == []
  {
    if a != [] {
      assert a[0] in b;
    }
    if b != [] {
      assert b[0] in a;
    }
  }

  /** A strictly sorted list is determined by its elements. */
  lemma {:induction false} SortedUnique(a: seq<string>, b: seq<string>)
    requires StrictlySorted(a) && StrictlySorted(b)
    requires forall y :: y in a <==> y in b
    ensures a == b
    decreases |a|
  {
    SameElementsBothEmpty(a, b);
    if a != [] {
      HeadIsLeast(a);
      HeadIsLeast(b);
      assert a[0] in b && b[0] in a;
      if a[0] != b[0] {
        LessTransitive(a[0], b[0], a[0]);
        LessIrreflexive(a[0]);
      }
      forall y
        ensures y in a[1..] <==> y in b[1..]
      {
        if y in a[1..] {
          var j :| 1 <= j < |a| && a[j] == y;
          assert y in b;
          if y == b[0] {
            LessIrreflexive(y);
          }
        }
        if y in b[1..] {
          var j :| 1 <= j < |b| && b[j] == y;
          assert y in a;
          if y == a[0] {
            LessIrreflexive(y);
          }
        }
      }
      SortedUnique(a[1..], b[1..]);
      assert a == [a[0]] + a[1..];
      assert b == [b[0]] + b[1..];
    }
  }

  /** The code a voice contributes: its first segment, upper-cased. */
  function Code(v: Voice, dashOnly: bool): string {
    Upper(FirstSegment(v.lang, dashOnly))
  }

  /** The codes of the catalogue in order, without the empty ones when requested. */
  function Codes(voices: seq<Voice>, variant: Variant): (r: seq<string>)
    ensures forall c :: c in r <==> exists v :: v in voices && c == Code(v, variant.dashOnly) && (variant.dropEmpty ==> c != "")
  {
    if voices == [] then []
    else
      var c := Code(voices[0], variant.dashOnly);
      var rest := Codes(voices[1..], variant);
      assert forall v :: v in voices <==> v == voices[0] || v in voices[1..];
      if variant.dropEmpty && c == "" then rest else [c] + rest
  }

  /** `computeAvailableLanguages` and the language list of each revision. */
  function AvailableLanguages(voices: seq<Voice>, variant: Variant): (r: seq<string>)
    ensures "ALL" in r
  {
    var sorted := SortDistinct(Codes(voices, variant));
    match variant.placement
    case PrependIfAbsent => if "ALL" in sorted then sorted else ["ALL"] + sorted
    case AppendIfAbsent => if "ALL" in sorted then sorted else sorted + ["ALL"]
    case AppendAlways => sorted + ["ALL"]
  }

  /** A voice whose lang yields code c. */
  predicate Offers(voices: seq<Voice>, variant: Variant, c: string) {
    exists v :: v in voices && c == Code(v, variant.dashOnly) && (variant.dropEmpty ==> c != "")
  }

  /**
   * The list holds "ALL" and exactly the codes the catalogue offers; apart
   * from "ALL" it is sorted without repetition; "ALL" heads the list or
   * ends it unless a voice already offers it; the empty code appears only
   * in the revisions that keep it.
   */
  lemma AvailableLanguagesShape(voices: seq<Voice>, variant: Variant)
    ensures var r := AvailableLanguages(voices, variant);
      "ALL" in r
      && (forall c :: c in r <==> c == "ALL" || Offers(voices, variant, c))
      && (variant.dropEmpty ==> "" !in r)
      && (!Offers(voices, variant, "ALL") && variant.placement == PrependIfAbsent ==> r[0] == "ALL" && StrictlySorted(r[1..]))
      && (!Offers(voices, variant, "ALL") || variant.placement == AppendAlways ==> r[|r| - 1] == "ALL" || variant.placement == PrependIfAbsent)
      && (variant.placement != AppendAlways ==> forall i, j :: 0 <= i < j < |r| ==> r[i] != r[j])
  {
    var sorted := SortDistinct(Codes(voices, variant));
    var r := AvailableLanguages(voices, variant);
    if variant.placement != AppendAlways {
      forall i, j | 0 <= i < j < |r|
        ensures r[i] != r[j]
      {
        if "ALL" in sorted {
          LessIrreflexive(r[i]);
        } else if variant.placement == PrependIfAbsent {
          if i == 0 {
            assert r[j] == sorted[j - 1];
          } else {
            assert r[i] == sorted[i - 1] && r[j] == sorted[j - 1];
            LessIrreflexive(r[i]);
          }
        } else {
          if j == |r| - 1 {
            assert r[i] == sorted[i];
          } else {
            LessIrreflexive(r[i]);
          }
        }
      }
    }
    if !Offers(voices, variant, "ALL") && variant.placement == PrependIfAbsent {
      assert r[1..] == sorted;
    }
  }

  /**
   * The order of the list in every revision: sorted throughout when a voice
   * already offers "ALL" and it is not appended again; otherwise "ALL" heads
   * or ends a sorted list of the codes.
   */
  lemma AvailableLanguagesSorted(voices: seq<Voice>, variant: Variant)
    ensures var r := AvailableLanguages(voices, variant);
      (Offers(voices, variant, "ALL") && variant.placement != AppendAlways ==> StrictlySorted(r))
      && (!Offers(voices, variant, "ALL") && variant.placement == PrependIfAbsent ==> r[0] == "ALL" && StrictlySorted(r[1..]))
      && (!Offers(voices, variant, "ALL") && variant.placement == AppendIfAbsent ==> r[|r| - 1] == "ALL" && StrictlySorted(r[..|r| - 1]))
      && (variant.placement == AppendAlways ==> r[|r| - 1] == "ALL" && StrictlySorted(r[..|r| - 1]))
  {
    var sorted := SortDistinct(Codes(voices, variant));
    assert "ALL" in sorted <==> Offers(voices, variant, "ALL");
    var r := AvailableLanguages(voices, variant);
    if "ALL" !in sorted || variant.placement == AppendAlways {
      match variant.placement
      case PrependIfAbsent => assert r[1..] == sorted;
      case AppendIfAbsent => assert r[..|r| - 1] == sorted;
      case AppendAlways => assert r[..|r| - 1] == sorted;
    }
  }

  /** The list depends only on which codes the catalogue offers, not on the order of the voices. */
  lemma AvailableLanguagesOrderFree(a: seq<Voice>, b: seq<Voice>, variant: Variant)
    requires forall c :: Offers(a, variant, c) <==> Offers(b, variant, c)
    ensures AvailableLanguages(a, variant) == AvailableLanguages(b, variant)
  {
    forall y
      ensures y in SortDistinct(Codes(a, variant)) <==> y in SortDistinct(Codes(b, variant))
    {
      assert Offers(a, variant, y) <==> Offers(b, variant, y);
    }
    SortedUnique(SortDistinct(Codes(a, variant)), SortDistinct(Codes(b, variant)));
  }

  /** A voice without a lang contributes the empty code where empties are kept. */
  lemma EmptyCodeKept(voices: seq<Voice>, variant: Variant)
    requires !variant.dropEmpty
    requires exists v :: v in voices && v.lang == ""
    ensures "" in AvailableLanguages(voices, variant)
  {
    var v :| v in voices && v.lang == "";
    assert Code(v, variant.dashOnly) == "";
    AvailableLanguagesShape(voices, variant);
  }
}
