/** The logic of webapp/static/api.js around its requests: the default
    reference of each product in `calculateConsumption`, the defaults of the
    request bodies, the reference number `recalcularConsumo` extracts, and
    the product-to-column mapping of `saveReporte`. The requests themselves
    are not sent: each operation returns the body it would post. */
module Api {
  import opened Common
  import opened Strings
  import opened JsNumbers
  import opened Catalog
  import opened Company
  import opened State
  import opened UiHandlers

  /** The references that feed the default (lines 50-58): those of the
      first array entry, or of the single entry; none for a missing cell or
      an empty array. */
  function DefaultReferenceList(c: Cell): (refs: seq<string>)
    ensures c.Single? ==> refs == c.entry.referencias
    ensures c.Multiple? && |c.entries| > 0 ==> refs == c.entries[0].referencias
    ensures c.Absent? || (c.Multiple? && |c.entries| == 0) ==> refs == []
  {
    match c
    case Absent => []
    case Single(e) => e.referencias
    case Multiple(es) => if |es| > 0 then es[0].referencias else []
  }

  /** The default reference of a product (lines 63-68): the first of
      those references, or `null` when there are none. */
  function DefaultReference(c: Cell): (d: Option<string>)
    ensures d.None? <==> DefaultReferenceList(c) == []
    ensures d.Some? ==> d.value in DefaultReferenceList(c)
  {
    var refs := DefaultReferenceList(c);
    if |refs| > 0 then Some(refs[0]) else None
  }

  /** A product has a default exactly when the results page says it has
      references, and the default is then the first recommended reference
      (the first element of the flattened, de-duplicated list). */
  lemma DefaultIsFirstRecommended(c: Cell)
    ensures DefaultReference(c).Some? <==> HasReferences(c)
    ensures DefaultReference(c).Some? ==>
              |Dedup(Flatten(c))| > 0 && DefaultReference(c).value == Dedup(Flatten(c))[0]
  {
    if DefaultReference(c).Some? {
      var all := Flatten(c);
      if c.Multiple? {
        ConcatStartsWithFirst(c.entries);
      }
      assert all[0] == DefaultReferenceList(c)[0];
      DedupKeepsHead(all);
    }
  }

  /** Only the first entry of an array feeds the default: entries after
      it change nothing, even when the first one has no references. */
  lemma OnlyFirstEntryFeedsDefault(first: Entry, rest: seq<Entry>)
    ensures DefaultReference(Multiple([first] + rest)) == DefaultReference(Single(first))
    ensures |first.referencias| == 0 ==> DefaultReference(Multiple([first] + rest)) == None
  {
  }

  /** The `forEach` of lines 47-69: every product gets its reference list
      and its default, and no other key is written. */
  method DefaultReferences(products: seq<string>, catalog: Catalog, segment: string, level: string)
    returns (referencias: map<string, seq<string>>, selected: map<string, Option<string>>)
    ensures referencias.Keys == selected.Keys == set p | p in products
    ensures forall p :: p in selected ==>
              selected[p] == DefaultReference(Lookup(catalog, p, segment, level))
              && referencias[p] == DefaultReferenceList(Lookup(catalog, p, segment, level))
  {
    referencias := map[];
    selected := map[];
    for i := 0 to |products|
      invariant referencias.Keys == selected.Keys == set p | p in products[..i]
      invariant forall p :: p in selected ==>
                  selected[p] == DefaultReference(Lookup(catalog, p, segment, level))
                  && referencias[p] == DefaultReferenceList(Lookup(catalog, p, segment, level))
    {
      var product := products[i];
      var productReferences := ProductReferences(Lookup(catalog, product, segment, level));
      referencias := referencias[product := productReferences];
      ghost var default := DefaultReference(Lookup(catalog, product, segment, level));
      if |productReferences| > 0 {
        selected := selected[product := Some(productReferences[0])];
      } else {
        selected := selected[product := None];
      }
      assert selected[product] == default;
      assert products[..i + 1] == products[..i] + [product];
    }
    assert products[..|products|] == products;
  }

  /** Lines 50-58 for one recommendation. */
  method ProductReferences(recommendation: Cell) returns (productReferences: seq<string>)
    ensures productReferences == DefaultReferenceList(recommendation)
  {
    productReferences := [];
    if recommendation != Absent {
      if recommendation.Multiple? && |recommendation.entries| > 0 {
        productReferences := recommendation.entries[0].referencias;
      } else if recommendation.Single? {
        productReferences := recommendation.entry.referencias;
      }
    }
  }

  /** `companyData.proporciones || {}` as the JSON object sent. */
  function ProportionsOrEmpty(p: Option<Proportions>): (o: map<string, int>)
    ensures p.None? <==> o == map[]
    ensures p.Some? ==> o.Keys == {"administrativo", "operativo"}
                        && o["administrativo"] == p.value.administrativo
                        && o["operativo"] == p.value.operativo
  {
    match p
    case None => map[]
    case Some(q) =>
      var o := map["administrativo" := q.administrativo, "operativo" := q.operativo];
      assert "administrativo" in o;
      o
  }

  /** `companyData.numVisitantes || 0`. */
  function VisitorsOrZero(v: Option<int>): (n: int)
    ensures n == 0 <==> v.None? || v.value == 0
    ensures n != 0 ==> v == Some(n)
  {
    match v
    case None => 0
    case Some(k) => k
  }

  /** The body posted to the consumption endpoint (lines 74-85). */
  datatype ConsumptionRequest = ConsumptionRequest(
    numMujeres: Option<Number>,
    numHombres: Option<Number>,
    diasLaborales: Option<Number>,
    horasLaborales: Option<Number>,
    tipoPublico: Option<seq<string>>,
    sector: Option<string>,
    productos: seq<string>,
    referencias: map<string, Option<string>>,
    proporciones: map<string, int>,
    numVisitantes: int)

  /** `calculateConsumption` up to the request: the defaults are stored in
      `companyData.selectedReferences` and the body is built. Without a
      product list the `forEach` throws, the error is caught, and nothing
      is stored or sent. */
  method PrepareConsumption(s: AppState, segment: string, level: string) returns (request: Option<ConsumptionRequest>)
    modifies s`companyData
    ensures old(s.companyData.products).None? ==> request.None? && s.companyData == old(s.companyData)
    ensures old(s.companyData.products).Some? ==>
              var cd := old(s.companyData);
              var products := cd.products.value;
              request.Some?
              && s.companyData == cd.(selectedReferences := Some(request.value.referencias))
              && request.value.referencias.Keys == set p | p in products
              && (forall p :: p in request.value.referencias ==>
                    request.value.referencias[p] == DefaultReference(Lookup(s.productData, p, segment, level)))
              && request.value.numMujeres == cd.numMujeres && request.value.numHombres == cd.numHombres
              && request.value.diasLaborales == cd.diasLaborales && request.value.horasLaborales == cd.horasLaborales
              && request.value.tipoPublico == cd.tipoPublico && request.value.sector == cd.sector
              && request.value.productos == products
              && request.value.proporciones == ProportionsOrEmpty(cd.proporciones)
              && request.value.numVisitantes == VisitorsOrZero(cd.numVisitantes)
  {
    var companyData := s.companyData;
    if companyData.products.None? {
      return None;
    }
    var _, selectedReferences := DefaultReferences(companyData.products.value, s.productData, segment, level);
    s.UpdateCompanyData(EmptyCompanyData.(selectedReferences := Some(selectedReferences)));
    request := Some(ConsumptionRequest(
      companyData.numMujeres, companyData.numHombres, companyData.diasLaborales, companyData.horasLaborales,
      companyData.tipoPublico, companyData.sector, companyData.products.value, selectedReferences,
      ProportionsOrEmpty(companyData.proporciones), VisitorsOrZero(companyData.numVisitantes)));
  }

  /** The body posted to the recalculation endpoint (lines 142-153). */
  datatype RecalcRequest = RecalcRequest(
    numMujeres: Option<Number>,
    numHombres: Option<Number>,
    diasLaborales: Option<Number>,
    horasLaborales: Option<Number>,
    tipoPublico: Option<seq<string>>,
    sector: Option<string>,
    producto: string,
    referencia: string,
    proporciones: map<string, int>,
    numVisitantes: int)

  /** The recalculation body for the option now selected. */
  function RecalcRequestFor(cd: CompanyData, producto: string, nuevaReferencia: string): (r: RecalcRequest)
    ensures r.numMujeres == cd.numMujeres && r.numHombres == cd.numHombres
    ensures r.diasLaborales == cd.diasLaborales && r.horasLaborales == cd.horasLaborales
    ensures r.tipoPublico == cd.tipoPublico && r.sector == cd.sector
    ensures r.producto == producto && r.referencia == nuevaReferencia
    ensures r.proporciones == ProportionsOrEmpty(cd.proporciones)
    ensures r.numVisitantes == VisitorsOrZero(cd.numVisitantes)
  {
    RecalcRequest(cd.numMujeres, cd.numHombres, cd.diasLaborales, cd.horasLaborales,
                  cd.tipoPublico, cd.sector, producto, nuevaReferencia,
                  ProportionsOrEmpty(cd.proporciones), VisitorsOrZero(cd.numVisitantes))
  }

  /** The number shown and used for the image after a recalculation
      (lines 172-173): the leading digits of the value, or the whole value
      when it does not start with a digit. */
  function ReferenceNumber(value: string): (r: string)
    ensures StartsWith(value, r)
    ensures |value| > 0 && IsDigit(value[0]) ==> |r| > 0 && AllDigits(r) && (|r| < |value| ==> !IsDigit(value[|r|]))
    ensures |value| == 0 || !IsDigit(value[0]) ==> r == value
  {
    var ds := LeadingDigits(value);
    if |ds| > 0 then ds else value
  }

  /** Extracting twice is extracting once. */
  lemma ReferenceNumberIdempotent(value: string)
    ensures ReferenceNumber(ReferenceNumber(value)) == ReferenceNumber(value)
  {
    var r := ReferenceNumber(value);
    if |value| > 0 && IsDigit(value[0]) {
      LeadingDigitsOfDigitsThen(r, "");
      assert r + "" == r;
    }
  }

  /** A catalog reference "<number> - <name>" gives its number, and its
      image is the number's image. */
  lemma ReferenceNumberOfCatalogText(n: nat, name: string)
    ensures ReferenceNumber(NatToDigits(n) + " - " + name) == NatToDigits(n)
    ensures ReferenceImagePath(ReferenceNumber(NatToDigits(n) + " - " + name)) == ImageDirectory + NatToDigits(n) + ".png"
  {
    var ds := NatToDigits(n);
    LeadingDigitsOfDigitsThen(ds, " - " + name);
    assert ds + " - " + name == ds + (" - " + name);
  }

  /** The report column pairs. */
  datatype Column = Papel | Jabones | Toallas

  /** The column a product fills (lines 265-274), by its lower-cased name:
      "papel" first, then "jabón" or "jabon", then "toalla"; any other
      product fills nothing. */
  function ColumnFor(producto: string): (c: Option<Column>)
    ensures c == Some(Papel) <==> Contains(ToLower(producto), "papel")
    ensures c == Some(Jabones) <==>
              !Contains(ToLower(producto), "papel")
              && (Contains(ToLower(producto), "jabón") || Contains(ToLower(producto), "jabon"))
    ensures c == Some(Toallas) <==>
              !Contains(ToLower(producto), "papel") && !Contains(ToLower(producto), "jabón")
              && !Contains(ToLower(producto), "jabon") && Contains(ToLower(producto), "toalla")
  {
    var lower := ToLower(producto);
    if Contains(lower, "papel") then Some(Papel)
    else if Contains(lower, "jabón") || Contains(lower, "jabon") then Some(Jabones)
    else if Contains(lower, "toalla") then Some(Toallas)
    else None
  }

  /** The mapping does not depend on letter case. */
  lemma ColumnForIgnoresCase(producto: string)
    ensures ColumnFor(ToLower(producto)) == ColumnFor(producto)
  {
    ToLowerIdempotent(producto);
  }

  /** The three product names of the wizard fill the three column pairs. */
  lemma PapelColumn()
    ensures ColumnFor("Papel Higiénico") == Some(Papel)
  {
    assert OccursAt(ToLower("Papel Higiénico"), "papel", 0);
  }

  lemma JabonesColumn()
    ensures ColumnFor("Jabones y Gel") == Some(Jabones)
  {
    var j := ToLower("Jabones y Gel");
    assert OccursAt(j, "jabon", 0);
    LowerLetterAbsent("Jabones y Gel", 'p', 'P');
    NotContainsWithoutFirstChar(j, "papel");
  }

  lemma ToallasColumn()
    ensures ColumnFor("Toallas de Manos") == Some(Toallas)
  {
    var t := ToLower("Toallas de Manos");
    assert OccursAt(t, "toalla", 0);
    LowerLetterAbsent("Toallas de Manos", 'p', 'P');
    LowerLetterAbsent("Toallas de Manos", 'j', 'J');
    NotContainsWithoutFirstChar(t, "papel");
    NotContainsWithoutFirstChar(t, "jabón");
    NotContainsWithoutFirstChar(t, "jabon");
  }

  /** One reference/consumption column pair; `None` is `null`. */
  datatype ColumnPair = ColumnPair(ref: Option<string>, cons: Option<real>)

  const NullPair: ColumnPair := ColumnPair(None, None)

  datatype ReportColumns = ReportColumns(papel: ColumnPair, jabones: ColumnPair, toallas: ColumnPair) {
    function Get(c: Column): ColumnPair {
      match c
      case Papel => papel
      case Jabones => jabones
      case Toallas => toallas
    }

    /** Overwrites one pair and keeps the other two. */
    function Set(c: Column, v: ColumnPair): (r: ReportColumns)
      ensures r.Get(c) == v
      ensures forall d :: d != c ==> r.Get(d) == Get(d)
    {
      match c
      case Papel => this.(papel := v)
      case Jabones => this.(jabones := v)
      case Toallas => this.(toallas := v)
    }
  }

  /** All six columns start `null` (lines 249-254). */
  const NullColumns: ReportColumns := ReportColumns(NullPair, NullPair, NullPair)

  /** `selectElement ? selectElement.value : null` (lines 261-262): the
      value of a product's select, given the values of the selects on the
      page by element id, or `null` when the page has no such select. */
  function SelectedValue(selects: map<string, string>, producto: string): (r: Option<string>)
    ensures r.Some? <==> SelectId(producto) in selects
    ensures r.Some? ==> r.value in selects.Values
  {
    var id := SelectId(producto);
    if id in selects then Some(selects[id]) else None
  }

  /** `ref-${producto.replace(/\s/g, '-')}`: the id of a product's select. */
  function SelectId(producto: string): (id: string)
    ensures |id| == 4 + |producto|
    ensures id[..4] == "ref-"
    ensures forall i :: 0 <= i < |producto| ==>
              id[4 + i] == (if IsJsWhitespace(producto[i]) then '-' else producto[i])
  {
    "ref-" + seq(|producto|, i requires 0 <= i < |producto| => if IsJsWhitespace(producto[i]) then '-' else producto[i])
  }

  /** Two products whose names differ only where one has white space and
      the other a dash, such as "Papel Higiénico" and "Papel-Higiénico",
      share a select, so they report the same reference. */
  lemma SelectIdCollides(p: string, q: string)
    requires |p| == |q|
    requires forall i :: 0 <= i < |p| ==> p[i] == q[i] || (IsJsWhitespace(p[i]) && q[i] == '-')
    ensures SelectId(p) == SelectId(q)
  {
    var a, b := SelectId(p), SelectId(q);
    forall i | 0 <= i < |a|
      ensures a[i] == b[i]
    {
      if i >= 4 {
        assert a[i] == (if IsJsWhitespace(p[i - 4]) then '-' else p[i - 4]);
      }
    }
  }

  /** The columns after the keys of `order` are applied in turn, the later
      key overwriting the earlier one. A pair is either still `null` or
      carries the consumption of some key. */
  function ColumnsAfter(order: seq<string>, consumption: ConsumptionData, selects: map<string, string>): (r: ReportColumns)
    requires forall k :: k in order ==> k in consumption
    ensures forall c: Column :: r.Get(c) == NullPair || r.Get(c).cons.Some?
  {
    if |order| == 0 then NullColumns
    else
      var before := ColumnsAfter(order[..|order| - 1], consumption, selects);
      var producto := order[|order| - 1];
      match ColumnFor(producto)
      case None => before
      case Some(c) => before.Set(c, ColumnPair(SelectedValue(selects, producto), Some(consumption[producto].consumoMensual)))
  }

  /** A column pair is filled by the last key in the order that maps to it. */
  lemma {:induction false} LastKeyWins(order: seq<string>, consumption: ConsumptionData, selects: map<string, string>,
                                       c: Column, i: nat)
    requires forall k :: k in order ==> k in consumption
    requires i < |order| && ColumnFor(order[i]) == Some(c)
    requires forall j :: i < j < |order| ==> ColumnFor(order[j]) != Some(c)
    ensures ColumnsAfter(order, consumption, selects).Get(c)
            == ColumnPair(SelectedValue(selects, order[i]), Some(consumption[order[i]].consumoMensual))
  {
    var init := order[..|order| - 1];
    if i < |order| - 1 {
      LastKeyWins(init, consumption, selects, c, i);
    }
  }

  /** A column pair no key maps to stays `null`. */
  lemma {:induction false} NoKeyLeavesNull(order: seq<string>, consumption: ConsumptionData, selects: map<string, string>,
                                           c: Column)
    requires forall k :: k in order ==> k in consumption
    requires forall j :: 0 <= j < |order| ==> ColumnFor(order[j]) != Some(c)
    ensures ColumnsAfter(order, consumption, selects).Get(c) == NullPair
  {
    if |order| > 0 {
      NoKeyLeavesNull(order[..|order| - 1], consumption, selects, c);
    }
  }

  /** The body posted by `saveReporte` (lines 242-255). */
  datatype PortfolioReport = PortfolioReport(
    sector: Option<string>,
    mujeres: Option<Number>,
    hombres: Option<Number>,
    dias: Option<Number>,
    horas: Option<Number>,
    tipo: Option<seq<string>>,
    columns: ReportColumns)

  /** `saveReporte()`: the header copied from `companyData`, then one pass
      over the consumption keys in `order` (the order of
      `Object.keys(consumptionData)`). */
  method SaveReporte(s: AppState, order: seq<string>, selects: map<string, string>) returns (report: PortfolioReport)
    requires forall k :: k in order ==> k in s.consumptionData
    ensures report.columns == ColumnsAfter(order, s.consumptionData, selects)
    ensures report.sector == s.companyData.sector && report.mujeres == s.companyData.numMujeres
    ensures report.hombres == s.companyData.numHombres && report.dias == s.companyData.diasLaborales
    ensures report.horas == s.companyData.horasLaborales && report.tipo == s.companyData.tipoPublico
  {
    var companyData := s.companyData;
    var consumptionData := s.consumptionData;
    var columns := NullColumns;
    for i := 0 to |order|
      invariant columns == ColumnsAfter(order[..i], consumptionData, selects)
    {
      var producto := order[i];
      var referencia := SelectedValue(selects, producto);
      var pair := ColumnPair(referencia, Some(consumptionData[producto].consumoMensual));
      var lower := ToLower(producto);
      if Contains(lower, "papel") {
        columns := columns.(papel := pair);
      } else if Contains(lower, "jabón") || Contains(lower, "jabon") {
        columns := columns.(jabones := pair);
      } else if Contains(lower, "toalla") {
        columns := columns.(toallas := pair);
      }
      assert order[..i + 1][..i] == order[..i];
    }
    assert order[..|order|] == order;
    report := PortfolioReport(companyData.sector, companyData.numMujeres, companyData.numHombres,
                              companyData.diasLaborales, companyData.horasLaborales, companyData.tipoPublico, columns);
  }
}
