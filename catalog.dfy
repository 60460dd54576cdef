/** The product catalog (`productData`) and the recommendation lookup of
    webapp/static/Portfolio.js: the cell for a product, segment and traffic
    level, the flattened and de-duplicated recommended references, and the
    `hasReferences` and first-dispenser choices of the results page. */
module Catalog {
  import opened Common

  /** One recommendation: its positioning text, its references and its
      dispensers (a missing list is the empty list). */
  datatype Entry = Entry(posicionamiento: string, referencias: seq<string>, dispensador: seq<string>)

  /** A catalog cell holds nothing, one entry, or an array of entries. */
  datatype Cell = Absent | Single(entry: Entry) | Multiple(entries: seq<Entry>)

  /** product -> segment -> traffic-level label -> cell. A missing key at any
      level (or a `null` cell) means no recommendation. */
  type Catalog = map<string, map<string, map<string, Cell>>>

  /** `productData[product]?.[segment]?.[level]` */
  function Lookup(catalog: Catalog, product: string, segment: string, level: string): (c: Cell)
    ensures c != Absent ==>
              product in catalog && segment in catalog[product] && level in catalog[product][segment]
              && c == catalog[product][segment][level]
    ensures product in catalog && segment in catalog[product] && level in catalog[product][segment] ==>
              c == catalog[product][segment][level]
  {
    if product in catalog && segment in catalog[product] && level in catalog[product][segment]
    then catalog[product][segment][level]
    else Absent
  }

  /** The references of every entry, concatenated in order. */
  function Concat(es: seq<Entry>): seq<string> {
    if |es| == 0 then [] else Concat(es[..|es| - 1]) + es[|es| - 1].referencias
  }

  /** The recommended references before de-duplication: nothing for an
      absent cell, the entry's references for a single entry, every entry's
      references in order for an array, so the first entry's references
      come first. */
  function Flatten(c: Cell): (r: seq<string>)
    ensures c.Absent? ==> r == []
    ensures c.Multiple? && |c.entries| > 0 ==> c.entries[0].referencias <= r
  {
    match c
    case Absent => []
    case Single(e) => e.referencias
    case Multiple(es) =>
      if |es| > 0 then ConcatStartsWithFirst(es); Concat(es) else Concat(es)
  }

  /** A reference is in the concatenation iff some entry lists it. */
  lemma {:induction false} ConcatMembership(es: seq<Entry>, x: string)
    ensures x in Concat(es) <==> exists i :: 0 <= i < |es| && x in es[i].referencias
  {
    if |es| > 0 {
      var init := es[..|es| - 1];
      ConcatMembership(init, x);
      if x in Concat(init) {
        var i :| 0 <= i < |init| && x in init[i].referencias;
        assert es[i] == init[i];
      }
      if exists i :: 0 <= i < |es| && x in es[i].referencias {
        var i :| 0 <= i < |es| && x in es[i].referencias;
        if i < |es| - 1 { assert init[i] == es[i]; }
      }
    }
  }

  /** `[...new Set(s)]`: the distinct elements of `s`, each at the place of
      its first occurrence. */
  function Dedup(s: seq<string>): (r: seq<string>)
    ensures NoDuplicates(r)
    ensures forall x :: x in r <==> x in s
    ensures |r| <= |s|
  {
    if |s| == 0 then []
    else
      var d := Dedup(s[..|s| - 1]);
      assert forall x :: x in s <==> x in s[..|s| - 1] || x == s[|s| - 1];
      if s[|s| - 1] in d then d else d + [s[|s| - 1]]
  }

  /** The index of the first occurrence of `x` in `s`. */
  function FirstIndex(s: seq<string>, x: string): (k: nat)
    requires x in s
    ensures k < |s| && s[k] == x
    ensures forall j :: 0 <= j < k ==> s[j] != x
  {
    var init := s[..|s| - 1];
    if x in init then FirstIndex(init, x) else |s| - 1
  }

  /** De-duplication keeps the order of first occurrences. */
  lemma {:induction false} DedupKeepsFirstOccurrenceOrder(s: seq<string>)
    ensures forall i, j :: 0 <= i < j < |Dedup(s)| ==> FirstIndex(s, Dedup(s)[i]) < FirstIndex(s, Dedup(s)[j])
  {
    if |s| > 0 {
      var init := s[..|s| - 1];
      var d := Dedup(init);
      DedupKeepsFirstOccurrenceOrder(init);
      forall x | x in init
        ensures FirstIndex(s, x) == FirstIndex(init, x)
      {
      }
      var r := Dedup(s);
      forall i, j | 0 <= i < j < |r|
        ensures FirstIndex(s, r[i]) < FirstIndex(s, r[j])
      {
        assert r[i] == d[i] && r[i] in init;
        if j < |d| {
          assert r[j] == d[j] && r[j] in init;
          assert FirstIndex(init, d[i]) < FirstIndex(init, d[j]);
        } else {
          assert r[j] == s[|s| - 1] && r[j] !in init;
          assert FirstIndex(s, r[j]) == |s| - 1;
          assert FirstIndex(s, r[i]) == FirstIndex(init, r[i]) < |init|;
        }
      }
    }
  }

  /** The first recommended reference is the first one listed. */
  lemma DedupKeepsHead(s: seq<string>)
    requires |s| > 0
    ensures |Dedup(s)| > 0 && Dedup(s)[0] == s[0]
  {
    var r := Dedup(s);
    DedupKeepsFirstOccurrenceOrder(s);
    assert s[0] in r;
  }

  /** The concatenation starts with the first entry's references. */
  lemma {:induction false} ConcatStartsWithFirst(es: seq<Entry>)
    requires |es| > 0
    ensures |es[0].referencias| <= |Concat(es)|
    ensures Concat(es)[..|es[0].referencias|] == es[0].referencias
  {
    if |es| > 1 {
      var init := es[..|es| - 1];
      ConcatStartsWithFirst(init);
      assert init[0] == es[0];
      assert Concat(es) == Concat(init) + es[|es| - 1].referencias;
    } else {
      assert es[..0] == [];
    }
  }

  /** The recommended references used to highlight and order the options:
      lines 81-97 of webapp/static/Portfolio.js. The array case concatenates
      entry by entry; the result is then de-duplicated, first occurrence
      first. */
  method RecommendedReferences(c: Cell) returns (refs: seq<string>)
    ensures refs == Dedup(Flatten(c))
  {
    var all: seq<string> := [];
    match c {
      case Absent =>
      case Multiple(es) =>
        for i := 0 to |es|
          invariant all == Concat(es[..i])
        {
          assert es[..i + 1][..i] == es[..i];
          all := all + es[i].referencias;
        }
        assert es[..|es|] == es;
      case Single(e) =>
        all := e.referencias;
    }
    refs := [];
    for i := 0 to |all|
      invariant refs == Dedup(all[..i])
    {
      assert all[..i + 1][..i] == all[..i];
      if all[i] !in refs {
        refs := refs + [all[i]];
      }
    }
    assert all[..|all|] == all;
  }

  /** An absent cell recommends nothing; every entry's references are
      recommended in the array case. */
  lemma RecommendedMembership(c: Cell, x: string)
    ensures c == Absent ==> Dedup(Flatten(c)) == []
    ensures c.Single? ==> (x in Dedup(Flatten(c)) <==> x in c.entry.referencias)
    ensures c.Multiple? ==>
              (x in Dedup(Flatten(c)) <==> exists i :: 0 <= i < |c.entries| && x in c.entries[i].referencias)
  {
    if c.Multiple? {
      ConcatMembership(c.entries, x);
    }
  }

  /** `hasReferences`: the first array entry, or the single entry, has a
      non-empty reference list, so something is recommended. */
  predicate HasReferences(c: Cell)
    ensures HasReferences(c) ==> |Flatten(c)| > 0
  {
    match c
    case Absent => false
    case Single(e) => |e.referencias| > 0
    case Multiple(es) => |es| > 0 && |es[0].referencias| > 0
  }

  /** The dispenser shown on the results page: the first `dispensador` of
      the first array entry or of the single entry (lines 356-363). */
  function FirstDispenser(c: Cell): (d: Option<string>)
    ensures d.Some? <==>
              (c.Single? && |c.entry.dispensador| > 0)
              || (c.Multiple? && |c.entries| > 0 && |c.entries[0].dispensador| > 0)
    ensures c.Single? && d.Some? ==> d.value == c.entry.dispensador[0]
    ensures c.Multiple? && d.Some? ==> d.value == c.entries[0].dispensador[0]
  {
    match c
    case Absent => None
    case Single(e) => if |e.dispensador| > 0 then Some(e.dispensador[0]) else None
    case Multiple(es) =>
      if |es| > 0 && |es[0].dispensador| > 0 then Some(es[0].dispensador[0]) else None
  }

  /** The page shows a dispenser image only for a non-empty name. */
  predicate ShowsDispenser(c: Cell) {
    var d := FirstDispenser(c);
    d.Some? && d.value != ""
  }

  /** Which block the results page renders for a product (lines 411-418). */
  datatype View = NoRecommendations | MultipleRecommendations | SingleRecommendation

  function ViewOf(c: Cell): (v: View)
    ensures v == NoRecommendations <==> !HasReferences(c)
    ensures v == MultipleRecommendations ==> c.Multiple?
    ensures v == SingleRecommendation ==> c.Single?
  {
    if !HasReferences(c) then NoRecommendations
    else if c.Multiple? then MultipleRecommendations
    else SingleRecommendation
  }

  /** An array whose first entry has no references is shown as "no
      recommendations", even when later entries recommend references. */
  lemma LaterEntriesDoNotMakeReferences(e0: Entry, e1: Entry)
    requires |e0.referencias| == 0 && |e1.referencias| > 0
    ensures ViewOf(Multiple([e0, e1])) == NoRecommendations
    ensures e1.referencias[0] in Dedup(Flatten(Multiple([e0, e1])))
  {
    RecommendedMembership(Multiple([e0, e1]), e1.referencias[0]);
  }
}
