/** The single application state of webapp/static/state.js and its
    mutators. The module-level `state` object becomes one `AppState`
    instance; each exported function becomes a method that may change only
    the fields it assigns. */
module State {
  import opened Common
  import opened Company
  import opened Catalog

  /** `list.includes(x) ? list : [...list, x]`: the push of the add
      operations, made only when the item is absent. */
  function AddIfAbsent(s: seq<string>, x: string): (r: seq<string>)
    ensures x in r
    ensures forall y :: y in r <==> y in s || y == x
  {
    if x in s then s else s + [x]
  }

  /** `list.filter(p => p !== x)` */
  function Without(s: seq<string>, x: string): (r: seq<string>)
    ensures |r| <= |s|
  {
    if |s| == 0 then []
    else Without(s[..|s| - 1], x) + (if s[|s| - 1] == x then [] else [s[|s| - 1]])
  }

  /** Filtering keeps every element other than `x`, and only those. */
  lemma {:induction false} WithoutMembership(s: seq<string>, x: string)
    ensures forall y :: y in Without(s, x) <==> y in s && y != x
  {
    if |s| > 0 {
      var init, last := s[..|s| - 1], s[|s| - 1];
      WithoutMembership(init, x);
      assert s == init + [last];
    }
  }

  /** Adding an absent item appends exactly one copy of it; adding a
      present item changes nothing. */
  lemma AddIfAbsentCounts(s: seq<string>, x: string)
    ensures x !in s ==> AddIfAbsent(s, x) == s + [x] && multiset(AddIfAbsent(s, x))[x] == 1
    ensures x in s ==> AddIfAbsent(s, x) == s
  {
    if x !in s {
      assert multiset(s)[x] == 0;
    }
  }

  /** Adding keeps a duplicate-free list duplicate-free. */
  lemma AddIfAbsentKeepsNoDuplicates(s: seq<string>, x: string)
    requires NoDuplicates(s)
    ensures NoDuplicates(AddIfAbsent(s, x))
  {
  }

  /** One step of the filter on multisets: appending `last` unless it is
      `x` keeps the count of every element but `x`, which stays 0. */
  lemma ZeroAfterSnoc(kept: seq<string>, init: seq<string>, prefix: seq<string>, last: string, x: string)
    requires multiset(prefix) == multiset(init)[x := 0]
    requires kept == if last == x then [] else [last]
    ensures multiset(prefix + kept) == multiset(init + [last])[x := 0]
  {
    assert multiset(init + [last]) == multiset(init) + multiset{last};
    assert multiset(prefix + kept) == multiset(prefix) + multiset(kept);
  }

  /** Filtering removes every occurrence of `x` and no other element. */
  lemma {:induction false} WithoutMultiset(s: seq<string>, x: string)
    ensures multiset(Without(s, x)) == multiset(s)[x := 0]
  {
    if |s| > 0 {
      var init := s[..|s| - 1];
      var last := s[|s| - 1];
      var kept := if last == x then [] else [last];
      WithoutMultiset(init, x);
      ZeroAfterSnoc(kept, init, Without(init, x), last, x);
      assert init + [last] == s;
    }
  }

  /** Filtering distributes over concatenation, so the elements that stay
      keep their relative order. */
  lemma {:induction false} WithoutAppend(s: seq<string>, t: seq<string>, x: string)
    ensures Without(s + t, x) == Without(s, x) + Without(t, x)
  {
    if |t| > 0 {
      var tInit := t[..|t| - 1];
      WithoutAppend(s, tInit, x);
      assert (s + t)[..|s + t| - 1] == s + tInit;
    } else {
      assert s + t == s;
    }
  }

  /** Removing an absent item changes nothing. */
  lemma {:induction false} WithoutAbsent(s: seq<string>, x: string)
    requires x !in s
    ensures Without(s, x) == s
  {
    if |s| > 0 {
      WithoutAbsent(s[..|s| - 1], x);
    }
  }

  /** Filtering keeps a duplicate-free list duplicate-free. */
  lemma {:induction false} WithoutKeepsNoDuplicates(s: seq<string>, x: string)
    requires NoDuplicates(s)
    ensures NoDuplicates(Without(s, x))
  {
    if |s| > 0 {
      var init := s[..|s| - 1];
      assert forall i, j :: 0 <= i < j < |init| ==> init[i] == s[i] && init[j] == s[j];
      WithoutKeepsNoDuplicates(init, x);
      var last := s[|s| - 1];
      assert last !in init;
      if last != x {
        WithoutMembership(init, x);
        assert last !in Without(init, x);
        assert Without(s, x) == Without(init, x) + [last];
      }
    }
  }

  /** Removing after adding is removing. */
  lemma RemoveAfterAdd(s: seq<string>, x: string)
    ensures Without(AddIfAbsent(s, x), x) == Without(s, x)
  {
    if x !in s {
      WithoutAppend(s, [x], x);
      assert Without([x], x) == [];
    }
  }

  /** The state object. `currentStep` is an unbounded number: state.js
      itself never checks it. */
  class AppState {
    var companyData: CompanyData
    var consumptionData: ConsumptionData
    var productData: Catalog
    var currentStep: int
    var selectedProducts: seq<string>
    var selectedPublicTypes: seq<string>
    var selectedBathroomSegment: string

    /** The initial state. */
    constructor ()
      ensures companyData == EmptyCompanyData && consumptionData == map[] && productData == map[]
      ensures currentStep == 0
      ensures selectedProducts == [] && selectedPublicTypes == [] && selectedBathroomSegment == ""
    {
      companyData := EmptyCompanyData;
      consumptionData := map[];
      productData := map[];
      currentStep := 0;
      selectedProducts := [];
      selectedPublicTypes := [];
      selectedBathroomSegment := "";
    }

    /** `updateCompanyData(data)`: a shallow merge. */
    method UpdateCompanyData(data: CompanyData)
      modifies this`companyData
      ensures companyData == Merge(old(companyData), data)
    {
      companyData := Merge(companyData, data);
    }

    method SetConsumptionData(data: ConsumptionData)
      modifies this`consumptionData
      ensures consumptionData == data
    {
      consumptionData := data;
    }

    method SetProductData(data: Catalog)
      modifies this`productData
      ensures productData == data
    {
      productData := data;
    }

    method SetCurrentStep(step: int)
      modifies this`currentStep
      ensures currentStep == step
    {
      currentStep := step;
    }

    /** `state.currentStep++`, with no bound. */
    method NextStep()
      modifies this`currentStep
      ensures currentStep == old(currentStep) + 1
    {
      currentStep := currentStep + 1;
    }

    /** `state.currentStep--`, with no bound. */
    method PreviousStep()
      modifies this`currentStep
      ensures currentStep == old(currentStep) - 1
    {
      currentStep := currentStep - 1;
    }

    method AddSelectedProduct(product: string)
      modifies this`selectedProducts
      ensures selectedProducts == AddIfAbsent(old(selectedProducts), product)
      ensures product !in old(selectedProducts) ==> multiset(selectedProducts)[product] == 1
    {
      AddIfAbsentCounts(selectedProducts, product);
      if product !in selectedProducts {
        selectedProducts := selectedProducts + [product];
      }
    }

    method RemoveSelectedProduct(product: string)
      modifies this`selectedProducts
      ensures selectedProducts == Without(old(selectedProducts), product)
      ensures multiset(selectedProducts) == multiset(old(selectedProducts))[product := 0]
    {
      WithoutMultiset(selectedProducts, product);
      selectedProducts := Without(selectedProducts, product);
    }

    method AddSelectedPublicType(publicType: string)
      modifies this`selectedPublicTypes
      ensures selectedPublicTypes == AddIfAbsent(old(selectedPublicTypes), publicType)
      ensures publicType !in old(selectedPublicTypes) ==> multiset(selectedPublicTypes)[publicType] == 1
    {
      AddIfAbsentCounts(selectedPublicTypes, publicType);
      if publicType !in selectedPublicTypes {
        selectedPublicTypes := selectedPublicTypes + [publicType];
      }
    }

    method RemoveSelectedPublicType(publicType: string)
      modifies this`selectedPublicTypes
      ensures selectedPublicTypes == Without(old(selectedPublicTypes), publicType)
      ensures multiset(selectedPublicTypes) == multiset(old(selectedPublicTypes))[publicType := 0]
    {
      WithoutMultiset(selectedPublicTypes, publicType);
      selectedPublicTypes := Without(selectedPublicTypes, publicType);
    }

    method SetSelectedBathroomSegment(segment: string)
      modifies this`selectedBathroomSegment
      ensures selectedBathroomSegment == segment
    {
      selectedBathroomSegment := segment;
    }

    /** `resetState()`: everything back to its initial value except the
        product catalog, which stays loaded. */
    method ResetState()
      modifies this`companyData, this`consumptionData, this`currentStep
      modifies this`selectedProducts, this`selectedPublicTypes, this`selectedBathroomSegment
      ensures companyData == EmptyCompanyData && consumptionData == map[]
      ensures currentStep == 0
      ensures selectedProducts == [] && selectedPublicTypes == [] && selectedBathroomSegment == ""
      ensures productData == old(productData)
    {
      companyData := EmptyCompanyData;
      consumptionData := map[];
      currentStep := 0;
      selectedProducts := [];
      selectedPublicTypes := [];
      selectedBathroomSegment := "";
    }
  }
}
