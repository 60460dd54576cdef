/** Ordering of the reference options (lines 108-123 of
    webapp/static/Portfolio.js): `Array.prototype.sort` with a comparator that
    puts the previously chosen reference first, then the recommended
    references, and otherwise keeps the input order (the sort is stable). */
module ReferenceOrder {
  import opened Common
  import opened Strings

  /** What the comparator looks at: the previously chosen reference (if
      any) and the recommended references. */
  datatype SortContext = SortContext(selected: Option<string>, recommended: seq<string>)

  /** A reference "matches" the chosen one when it equals it or starts with
      it followed by " -". A missing or empty chosen reference is falsy in
      JavaScript and matches nothing. */
  predicate MatchesSelected(ref: string, selected: Option<string>)
    ensures MatchesSelected(ref, selected) ==> selected.Some? && selected.value != "" && StartsWith(ref, selected.value)
  {
    if selected.Some? && selected.value != "" && StartsWith(ref, selected.value + " -") then
      StartsWithAppend(ref, selected.value, " -");
      true
    else
      selected.Some? && selected.value != "" && ref == selected.value
  }

  /** The catalog's "1234 - Premium Roll" matches a chosen "1234". */
  lemma PrefixRuleExample()
    ensures MatchesSelected("1234 - Premium Roll", Some("1234"))
  {
    assert ("1234 - Premium Roll")[..6] == "1234" + " -";
  }

  /** The comparator of line 109, returning -1, 1 or 0; a reference
      compares equal to itself. */
  function Compare(a: string, b: string, ctx: SortContext): (c: int)
    ensures c == -1 || c == 0 || c == 1
    ensures a == b ==> c == 0
  {
    var aSelected := MatchesSelected(a, ctx.selected);
    var bSelected := MatchesSelected(b, ctx.selected);
    var aRecommended := a in ctx.recommended;
    var bRecommended := b in ctx.recommended;
    if aSelected && !bSelected then -1
    else if !aSelected && bSelected then 1
    else if aRecommended && !bRecommended then -1
    else if !aRecommended && bRecommended then 1
    else 0
  }

  /** The tier of a reference: 0 chosen and recommended, 1 chosen only,
      2 recommended only, 3 neither. */
  function Rank(x: string, ctx: SortContext): (r: nat)
    ensures r <= 3
    ensures r <= 1 <==> MatchesSelected(x, ctx.selected)
    ensures r % 2 == 0 <==> x in ctx.recommended
  {
    (if MatchesSelected(x, ctx.selected) then 0 else 2) + (if x in ctx.recommended then 0 else 1)
  }

  /** The comparator orders by tier, so it is a consistent comparison
      (antisymmetric and transitive), as a stable sort needs. */
  lemma CompareIsTierOrder(a: string, b: string, ctx: SortContext)
    ensures Compare(a, b, ctx) < 0 <==> Rank(a, ctx) < Rank(b, ctx)
    ensures Compare(a, b, ctx) == 0 <==> Rank(a, ctx) == Rank(b, ctx)
    ensures Compare(a, b, ctx) > 0 <==> Rank(a, ctx) > Rank(b, ctx)
    ensures Compare(a, b, ctx) == -Compare(b, a, ctx)
  {
  }

  /** Inserts `x` after every element of tier at most its own, counting
      from the end: the step a stable insertion sort makes. */
  function Insert(p: seq<string>, x: string, ctx: SortContext): (r: seq<string>)
    ensures |r| == |p| + 1
  {
    if |p| == 0 || Rank(p[|p| - 1], ctx) <= Rank(x, ctx) then p + [x]
    else Insert(p[..|p| - 1], x, ctx) + [p[|p| - 1]]
  }

  /** The result of the stable sort of `s` by the comparator. */
  function SortSpec(s: seq<string>, ctx: SortContext): (r: seq<string>)
    ensures |r| == |s|
  {
    if |s| == 0 then [] else Insert(SortSpec(s[..|s| - 1], ctx), s[|s| - 1], ctx)
  }

  /** The elements of tier `r`, in order. */
  function Filter(s: seq<string>, r: nat, ctx: SortContext): seq<string> {
    if |s| == 0 then []
    else Filter(s[..|s| - 1], r, ctx) + (if Rank(s[|s| - 1], ctx) == r then [s[|s| - 1]] else [])
  }

  predicate SortedByRank(t: seq<string>, ctx: SortContext) {
    forall i, j :: 0 <= i < j < |t| ==> Rank(t[i], ctx) <= Rank(t[j], ctx)
  }

  lemma FilterAppend(s: seq<string>, x: string, r: nat, ctx: SortContext)
    ensures Filter(s + [x], r, ctx) == Filter(s, r, ctx) + (if Rank(x, ctx) == r then [x] else [])
  {
    assert (s + [x])[..|s|] == s;
  }

  lemma {:induction false} InsertPermutes(p: seq<string>, x: string, ctx: SortContext)
    ensures multiset(Insert(p, x, ctx)) == multiset(p) + multiset{x}
  {
    if |p| > 0 && Rank(p[|p| - 1], ctx) > Rank(x, ctx) {
      InsertPermutes(p[..|p| - 1], x, ctx);
      assert p == p[..|p| - 1] + [p[|p| - 1]];
    }
  }

  lemma {:induction false} InsertFilter(p: seq<string>, x: string, r: nat, ctx: SortContext)
    ensures Filter(Insert(p, x, ctx), r, ctx) == Filter(p, r, ctx) + (if Rank(x, ctx) == r then [x] else [])
  {
    if |p| == 0 || Rank(p[|p| - 1], ctx) <= Rank(x, ctx) {
      FilterAppend(p, x, r, ctx);
    } else {
      var init, last := p[..|p| - 1], p[|p| - 1];
      var q := Insert(init, x, ctx);
      var ex := if Rank(x, ctx) == r then [x] else [];
      var el := if Rank(last, ctx) == r then [last] else [];
      assert p == init + [last];
      calc {
        Filter(Insert(p, x, ctx), r, ctx);
        Filter(q + [last], r, ctx);
        { FilterAppend(q, last, r, ctx); }
        Filter(q, r, ctx) + el;
        { InsertFilter(init, x, r, ctx); }
        Filter(init, r, ctx) + ex + el;
        { assert ex == [] || el == []; }
        Filter(init, r, ctx) + el + ex;
        { FilterAppend(init, last, r, ctx); }
        Filter(p, r, ctx) + ex;
      }
    }
  }

  lemma {:induction false} InsertSorted(p: seq<string>, x: string, ctx: SortContext)
    requires SortedByRank(p, ctx)
    ensures SortedByRank(Insert(p, x, ctx), ctx)
  {
    if |p| > 0 && Rank(p[|p| - 1], ctx) > Rank(x, ctx) {
      var init, last := p[..|p| - 1], p[|p| - 1];
      InsertSorted(init, x, ctx);
      var q := Insert(init, x, ctx);
      InsertPermutes(init, x, ctx);
      forall i | 0 <= i < |q|
        ensures Rank(q[i], ctx) <= Rank(last, ctx)
      {
        assert q[i] in multiset(q);
        assert q[i] == x || q[i] in multiset(init);
        if q[i] != x {
          var k :| 0 <= k < |init| && init[k] == q[i];
          assert p[k] == init[k];
        }
      }
    }
  }

  /** The sort returns a permutation of its input. */
  lemma {:induction false} SortPermutes(s: seq<string>, ctx: SortContext)
    ensures multiset(SortSpec(s, ctx)) == multiset(s)
  {
    if |s| > 0 {
      SortPermutes(s[..|s| - 1], ctx);
      InsertPermutes(SortSpec(s[..|s| - 1], ctx), s[|s| - 1], ctx);
      assert s == s[..|s| - 1] + [s[|s| - 1]];
    }
  }

  /** The sort orders by tier: chosen references first, recommended next. */
  lemma {:induction false} SortOrdersByTier(s: seq<string>, ctx: SortContext)
    ensures SortedByRank(SortSpec(s, ctx), ctx)
  {
    if |s| > 0 {
      SortOrdersByTier(s[..|s| - 1], ctx);
      InsertSorted(SortSpec(s[..|s| - 1], ctx), s[|s| - 1], ctx);
    }
  }

  /** The sort is stable: within each tier the input order is kept. */
  lemma {:induction false} SortIsStable(s: seq<string>, r: nat, ctx: SortContext)
    ensures Filter(SortSpec(s, ctx), r, ctx) == Filter(s, r, ctx)
  {
    if |s| > 0 {
      var init, last := s[..|s| - 1], s[|s| - 1];
      SortIsStable(init, r, ctx);
      InsertFilter(SortSpec(init, ctx), last, r, ctx);
    }
  }

  lemma {:induction false} FilterAboveIsEmpty(t: seq<string>, k: nat, r: nat, ctx: SortContext)
    requires forall i :: 0 <= i < |t| ==> Rank(t[i], ctx) <= k
    requires r > k
    ensures Filter(t, r, ctx) == []
  {
    if |t| > 0 {
      FilterAboveIsEmpty(t[..|t| - 1], k, r, ctx);
    }
  }

  /** The four tiers of `t`, one after the other. */
  function Tiers(t: seq<string>, ctx: SortContext): seq<string> {
    Filter(t, 0, ctx) + Filter(t, 1, ctx) + Filter(t, 2, ctx) + Filter(t, 3, ctx)
  }

  /** Four tiers, of which those above `k` are empty, with `x` appended
      to tier `k`, are the four tiers followed by `x`. */
  lemma AppendToTier(f0: seq<string>, f1: seq<string>, f2: seq<string>, f3: seq<string>, x: string, k: nat)
    requires k <= 3
    requires k < 3 ==> f3 == []
    requires k < 2 ==> f2 == []
    requires k < 1 ==> f1 == []
    ensures (f0 + (if k == 0 then [x] else [])) + (f1 + (if k == 1 then [x] else []))
            + (f2 + (if k == 2 then [x] else [])) + (f3 + (if k == 3 then [x] else []))
            == f0 + f1 + f2 + f3 + [x]
  {
  }

  /** Appending an element of the highest tier so far appends it to the tiers. */
  lemma TiersAppend(init: seq<string>, x: string, ctx: SortContext)
    requires forall i :: 0 <= i < |init| ==> Rank(init[i], ctx) <= Rank(x, ctx)
    ensures Tiers(init + [x], ctx) == Tiers(init, ctx) + [x]
  {
    var k := Rank(x, ctx);
    FilterAppend(init, x, 0, ctx);
    FilterAppend(init, x, 1, ctx);
    FilterAppend(init, x, 2, ctx);
    FilterAppend(init, x, 3, ctx);
    if k < 3 { FilterAboveIsEmpty(init, k, 3, ctx); }
    if k < 2 { FilterAboveIsEmpty(init, k, 2, ctx); }
    if k < 1 { FilterAboveIsEmpty(init, k, 1, ctx); }
    AppendToTier(Filter(init, 0, ctx), Filter(init, 1, ctx), Filter(init, 2, ctx), Filter(init, 3, ctx), x, k);
  }

  lemma {:induction false} SortedIsTiers(t: seq<string>, ctx: SortContext)
    requires SortedByRank(t, ctx)
    ensures t == Tiers(t, ctx)
  {
    if |t| > 0 {
      var init, x := t[..|t| - 1], t[|t| - 1];
      assert SortedByRank(init, ctx);
      SortedIsTiers(init, ctx);
      forall i | 0 <= i < |init|
        ensures Rank(init[i], ctx) <= Rank(x, ctx)
      {
        assert init[i] == t[i];
      }
      TiersAppend(init, x, ctx);
      assert t == init + [x];
    }
  }

  /** The sorted list is: the chosen and recommended references, the
      chosen ones only, the recommended ones only, then the rest, each
      group in input order. */
  lemma SortIsTierPartition(s: seq<string>, ctx: SortContext)
    ensures SortSpec(s, ctx) == Tiers(s, ctx)
  {
    var t := SortSpec(s, ctx);
    SortOrdersByTier(s, ctx);
    SortedIsTiers(t, ctx);
    SortIsStable(s, 0, ctx);
    SortIsStable(s, 1, ctx);
    SortIsStable(s, 2, ctx);
    SortIsStable(s, 3, ctx);
  }

  lemma InsertStep(p: seq<string>, j: nat, x: string, ctx: SortContext)
    requires 0 < j <= |p| && Rank(p[j - 1], ctx) > Rank(x, ctx)
    ensures Insert(p[..j], x, ctx) + p[j..] == Insert(p[..j - 1], x, ctx) + p[j - 1..]
  {
    assert p[..j][..j - 1] == p[..j - 1];
    assert [p[j - 1]] + p[j..] == p[j - 1..];
  }

  lemma InsertStop(p: seq<string>, j: nat, x: string, ctx: SortContext)
    requires j <= |p| && (j == 0 || Rank(p[j - 1], ctx) <= Rank(x, ctx))
    ensures Insert(p[..j], x, ctx) == p[..j] + [x]
  {
  }

  /** The comparator as the sort calls it. */
  method Comparator(a: string, b: string, ctx: SortContext) returns (c: int)
    ensures c == Compare(a, b, ctx)
    ensures c > 0 <==> Rank(a, ctx) > Rank(b, ctx)
  {
    c := Compare(a, b, ctx);
    CompareIsTierOrder(a, b, ctx);
  }

  /** Swapping the element `x` at index `j` with its left neighbour moves
      it one place to the left. */
  lemma SwapLeft(p: seq<string>, j: nat, x: string, rest: seq<string>)
    requires 0 < j <= |p|
    ensures (p[..j] + [x] + p[j..] + rest)[j - 1 := x][j := p[j - 1]] == p[..j - 1] + [x] + p[j - 1..] + rest
  {
    var before := p[..j] + [x] + p[j..] + rest;
    var after := p[..j - 1] + [x] + p[j - 1..] + rest;
    assert |before[j - 1 := x][j := p[j - 1]]| == |after|;
    forall k | 0 <= k < |after|
      ensures before[j - 1 := x][j := p[j - 1]][k] == after[k]
    {
      if k < j - 1 {
      } else if k == j - 1 {
      } else if k == j {
      } else if k < |p| + 1 {
        assert after[k] == p[k - 1];
      } else {
      }
    }
  }

  /** One pass of the insertion: the element at index `i` moves left past
      every element the comparator puts strictly after it. */
  method InsertAt(a: array<string>, i: nat, ctx: SortContext)
    requires i < a.Length
    modifies a
    ensures a[..i + 1] == Insert(old(a[..i]), old(a[i]), ctx)
    ensures a[i + 1..] == old(a[i + 1..])
  {
    ghost var p := a[..i];
    ghost var x := a[i];
    ghost var rest := a[i + 1..];
    var j := i;
    var settled := false;
    assert p[..j] == p && p[j..] == [];
    assert a[..] == p[..j] + [x] + p[j..] + rest;
    while j > 0 && !settled
      invariant 0 <= j <= i
      invariant a[..] == p[..j] + [x] + p[j..] + rest
      invariant Insert(p, x, ctx) == Insert(p[..j], x, ctx) + p[j..]
      invariant settled ==> j > 0 && Rank(p[j - 1], ctx) <= Rank(x, ctx)
      decreases j, !settled
    {
      assert a[j] == x && a[j - 1] == p[j - 1];
      var c := Comparator(a[j - 1], a[j], ctx);
      if c > 0 {
        InsertStep(p, j, x, ctx);
        SwapLeft(p, j, x, rest);
        a[j - 1], a[j] := a[j], a[j - 1];
        j := j - 1;
      } else {
        settled := true;
      }
    }
    InsertStop(p, j, x, ctx);
    assert a[..] == Insert(p, x, ctx) + rest;
    assert a[..][..i + 1] == a[..i + 1];
  }

  /** `data.referencias.sort(comparator)`, in place. Modelled as a stable
      insertion sort that calls the comparator. */
  method SortReferences(a: array<string>, ctx: SortContext)
    modifies a
    ensures a[..] == SortSpec(old(a[..]), ctx)
  {
    ghost var s := a[..];
    for i := 0 to a.Length
      invariant a[..i] == SortSpec(s[..i], ctx)
      invariant a[i..] == s[i..]
    {
      InsertAt(a, i, ctx);
      assert s[..i + 1][..i] == s[..i];
      assert a[i + 1..] == s[i + 1..];
    }
    assert s[..a.Length] == s;
  }

  /** `option.selected` (line 138): the option equals the select's current
      value or the chosen reference, or starts with the chosen reference
      followed by " -" (the prefix test only for a non-empty one). */
  predicate IsPreselected(ref: string, currentValue: string, selected: Option<string>)
    ensures ref == currentValue ==> IsPreselected(ref, currentValue, selected)
    ensures IsPreselected(ref, currentValue, selected) && ref != currentValue ==>
              selected.Some? && StartsWith(ref, selected.value)
  {
    if selected.Some? && selected.value != "" && StartsWith(ref, selected.value + " -") then
      StartsWithAppend(ref, selected.value, " -");
      true
    else
      ref == currentValue || (selected.Some? && ref == selected.value)
  }

  /** Pre-selection is the comparator's match, the current value, or the
      one case where they differ: an empty chosen reference pre-selects an
      empty option although it matches nothing in the sort. */
  lemma PreselectedVersusMatch(ref: string, currentValue: string, selected: Option<string>)
    ensures IsPreselected(ref, currentValue, selected) <==>
              ref == currentValue || MatchesSelected(ref, selected) || (selected == Some("") && ref == "")
  {
  }
}
