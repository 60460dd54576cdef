/** The reference list of one product on the results page
    (`loadReferencesForProduct` in webapp/static/Portfolio.js, lines 77-138):
    the traffic level and segment of the profile, the recommended
    references of the catalog cell, the previously chosen reference, and the
    in-place sort of the available references. The fetch of the available
    references and the building of the option elements are not modelled:
    the references arrive as an array, and each option is described by its
    text and its pre-selection. */
module Recommendation {
  import opened Common
  import opened Strings
  import opened JsNumbers
  import opened Traffic
  import opened Catalog
  import opened Company
  import opened ReferenceOrder

  /** `companyData.numMujeres + companyData.numHombres` (line 78). */
  function ProfileEmployees(cd: CompanyData): (n: Number)
    ensures n.Int? <==> cd.numMujeres.Some? && cd.numMujeres.value.Int? && cd.numHombres.Some? && cd.numHombres.value.Int?
    ensures n.Int? ==> n.value == cd.numMujeres.value.value + cd.numHombres.value.value
  {
    Add(FieldNumber(cd.numMujeres), FieldNumber(cd.numHombres))
  }

  /** The traffic level of the profile (line 79): Pico when the head count
      is not a number, otherwise the level of the integer inputs. */
  function ProfileLevel(cd: CompanyData): (l: TrafficLevel)
    ensures ProfileEmployees(cd).NaN? ==> l == Pico
    ensures var d, h := FieldNumber(cd.diasLaborales), FieldNumber(cd.horasLaborales);
            ProfileEmployees(cd).Int? && d.Int? && h.Int? ==>
              l == DetermineTrafficLevel(ProfileEmployees(cd).value, d.value, h.value)
  {
    DetermineTrafficLevelJs(ProfileEmployees(cd), FieldNumber(cd.diasLaborales), FieldNumber(cd.horasLaborales))
  }

  /** The segment key of the catalog lookup: a missing
      `bathroomSegment` is the property name "undefined". */
  function SegmentKey(cd: CompanyData): (k: string)
    ensures cd.bathroomSegment.Some? ==> k == cd.bathroomSegment.value
    ensures cd.bathroomSegment.None? ==> k == "undefined"
  {
    cd.bathroomSegment.GetOr("undefined")
  }

  /** The catalog cell for a product and the profile (line 83). */
  function ProfileCell(cd: CompanyData, catalog: Catalog, product: string): (c: Cell)
    ensures c != Absent ==> product in catalog && SegmentKey(cd) in catalog[product]
                            && ProfileLevel(cd).Label() in catalog[product][SegmentKey(cd)]
  {
    Lookup(catalog, product, SegmentKey(cd), ProfileLevel(cd).Label())
  }

  /** `companyData.selectedReferences?.[p]` is neither `null` nor
      `undefined`. */
  predicate HasExplicitChoice(cd: CompanyData, product: string) {
    cd.selectedReferences.Some? && product in cd.selectedReferences.value
    && cd.selectedReferences.value[product].Some?
  }

  /** `companyData.selectedReferences?.[p] ?? consumptionData[p]?.referencia_usada ?? null`
      (lines 104-106): the explicit choice, else the reference the backend
      used, else none. Only `null`/`undefined` fall through, so an empty
      choice is kept. */
  function ResolveSelectedReference(cd: CompanyData, consumption: ConsumptionData, product: string): (r: Option<string>)
    ensures HasExplicitChoice(cd, product) ==> r == cd.selectedReferences.value[product]
    ensures !HasExplicitChoice(cd, product) && r.Some? ==>
              product in consumption && consumption[product].referenciaUsada == r
    ensures r.None? ==>
              !HasExplicitChoice(cd, product) && (product !in consumption || consumption[product].referenciaUsada.None?)
  {
    if HasExplicitChoice(cd, product) then cd.selectedReferences.value[product]
    else if product in consumption then consumption[product].referenciaUsada
    else None
  }

  /** An empty explicit choice does not fall through to the backend's
      reference, yet it matches no option in the sort. */
  lemma EmptyChoiceDoesNotFallThrough(cd: CompanyData, consumption: ConsumptionData, product: string, ref: string)
    requires cd.selectedReferences == Some(map[product := Some("")])
    ensures ResolveSelectedReference(cd, consumption, product) == Some("")
    ensures !MatchesSelected(ref, ResolveSelectedReference(cd, consumption, product))
  {
  }

  /** One option of the select: the reference, whether it is starred as
      recommended, and whether it is pre-selected. */
  datatype OptionView = OptionView(ref: string, recommended: bool, selected: bool)

  /** Lines 126-139 for one reference. */
  function OptionFor(ref: string, recommended: seq<string>, currentValue: string, selected: Option<string>): (o: OptionView)
    ensures o.ref == ref
    ensures o.recommended <==> ref in recommended
    ensures o.selected <==> IsPreselected(ref, currentValue, selected)
  {
    OptionView(ref, |recommended| > 0 && ref in recommended, IsPreselected(ref, currentValue, selected))
  }

  /** The star text of an option. */
  function OptionText(o: OptionView): (t: string)
    ensures o.recommended ==> t == "⭐ " + o.ref + " (Recomendado)"
    ensures !o.recommended ==> t == o.ref
  {
    if o.recommended then "⭐ " + o.ref + " (Recomendado)" else o.ref
  }

  /** `loadReferencesForProduct` once the available references have
      arrived in `available`: computes the recommended references and the
      chosen one, sorts `available` in place, and describes the options in
      the sorted order. */
  method LoadReferences(available: array<string>, currentValue: string, cd: CompanyData,
                        consumption: ConsumptionData, catalog: Catalog, product: string)
    returns (recommended: seq<string>, selected: Option<string>, options: seq<OptionView>)
    modifies available
    ensures recommended == Dedup(Flatten(ProfileCell(cd, catalog, product)))
    ensures selected == ResolveSelectedReference(cd, consumption, product)
    ensures available[..] == SortSpec(old(available[..]), SortContext(selected, recommended))
    ensures |options| == available.Length
    ensures forall i :: 0 <= i < |options| ==> options[i] == OptionFor(available[i], recommended, currentValue, selected)
  {
    var level := DetermineTrafficLevelJs(ProfileEmployees(cd), FieldNumber(cd.diasLaborales), FieldNumber(cd.horasLaborales));
    var cell := Lookup(catalog, product, SegmentKey(cd), level.Label());
    recommended := RecommendedReferences(cell);
    selected := ResolveSelectedReference(cd, consumption, product);
    SortReferences(available, SortContext(selected, recommended));
    options := [];
    for i := 0 to available.Length
      invariant |options| == i
      invariant forall k :: 0 <= k < i ==> options[k] == OptionFor(available[k], recommended, currentValue, selected)
    {
      options := options + [OptionFor(available[i], recommended, currentValue, selected)];
    }
  }

  /** With nothing chosen and nothing recommended (no catalog cell), the
      references keep the order in which they arrived. */
  lemma {:induction false} NoPreferenceKeepsOrder(s: seq<string>)
    ensures SortSpec(s, SortContext(None, [])) == s
  {
    if |s| > 0 {
      NoPreferenceKeepsOrder(s[..|s| - 1]);
      assert s[..|s| - 1] + [s[|s| - 1]] == s;
    }
  }

  /** A profile of 150 women and 50 men working 30 days of 12 hours has
      "Tráfico Alto": 200 × 1.3 × 1.4 = 364. */
  lemma ProfileExample(cd: CompanyData)
    requires cd.numMujeres == Some(Int(150)) && cd.numHombres == Some(Int(50))
    requires cd.diasLaborales == Some(Int(30)) && cd.horasLaborales == Some(Int(12))
    ensures ProfileLevel(cd) == Alto && ProfileLevel(cd).Label() == "Tráfico Alto"
  {
    Examples();
  }

  /** A profile whose head counts are missing has a NaN total and falls in
      "Tráfico Pico". */
  lemma MissingHeadCountIsPico(cd: CompanyData)
    requires cd.numMujeres.None?
    ensures ProfileLevel(cd) == Pico
  {
  }

  /** The reference shown with its image on the results page (line 352):
      the same resolution with `''` as last resort; the image block appears
      only for a non-empty reference (line 386). */
  function DisplayedReference(cd: CompanyData, consumption: ConsumptionData, product: string): (r: string)
    ensures ResolveSelectedReference(cd, consumption, product).None? ==> r == ""
    ensures ResolveSelectedReference(cd, consumption, product).Some? ==> r == ResolveSelectedReference(cd, consumption, product).value
  {
    ResolveSelectedReference(cd, consumption, product).GetOr("")
  }
}
