/** The per-step rules of webapp/static/validation.js: what each wizard step
    checks before it may advance, what it writes into `companyData`, the
    selection toggles, the demographics Next-button rule and the colour class
    of the proportion total. The globals the file reads (`currentStep`,
    `companyData`, the selections) are the fields of one `AppState`; the
    values it reads from the page are a `Form`. */
module Validation {
  import opened Common
  import opened Strings
  import opened JsNumbers
  import opened Company
  import opened State

  /** The ids of the four wizard steps, in order (webapp/static/config.js). */
  const StepIds: seq<string> := ["company-sector", "demographics", "public-type", "product-selection"]
  const StepCount: nat := 4

  /** The `value` of every input the rules read. */
  datatype Form = Form(
    companySector: string,
    companySize: string,
    numMujeres: string,
    numHombres: string,
    diasLaborales: string,
    horasLaborales: string,
    propAdministrativo: string,
    propOperativo: string,
    numVisitantes: string)

  /** `parseInt(adm) || 0` plus `parseInt(op) || 0`: a field that is not a
      number counts as 0. */
  function ProportionTotal(adm: string, op: string): (total: int)
    ensures ParseInt(adm).Int? && ParseInt(op).Int? ==> total == ParseInt(adm).value + ParseInt(op).value
    ensures ParseInt(adm).NaN? ==> total == OrZero(ParseInt(op))
    ensures ParseInt(op).NaN? ==> total == OrZero(ParseInt(adm))
  {
    OrZero(ParseInt(adm)) + OrZero(ParseInt(op))
  }

  /** `parseInt(v)` is a usable visitor count: `!n || n <= 0` rejects NaN,
      zero and negative counts, so a usable count never follows a minus
      sign. */
  predicate ValidVisitors(v: string)
    ensures ValidVisitors(v) ==> |TrimStart(v)| > 0 && TrimStart(v)[0] != '-'
  {
    ParseInt(v).Int? && ParseInt(v).value > 0
  }

  /** On the public-type step: when administrativo and operativo are both
      chosen, the two proportions, read with `parseInt(v) || 0`, sum to 100. */
  predicate ProportionsPass(types: seq<string>, form: Form) {
    !("administrativo" in types && "operativo" in types)
    || ProportionTotal(form.propAdministrativo, form.propOperativo) == 100
  }

  /** On the public-type step: a chosen flotante needs a usable visitor
      count. */
  predicate VisitorsPass(types: seq<string>, form: Form) {
    "flotante" !in types || ValidVisitors(form.numVisitantes)
  }

  /** Whether `validateStep()` returns true on step `step`, given the
      selections and the page's inputs. A step with no case passes. */
  predicate StepPasses(step: int, types: seq<string>, products: seq<string>, segment: string, form: Form) {
    if step == 0 then form.companySector != "" && form.companySize != ""
    else if step == 1 then
      form.numMujeres != "" && form.numHombres != "" && form.diasLaborales != "" && form.horasLaborales != ""
    else if step == 2 then |types| > 0 && ProportionsPass(types, form) && VisitorsPass(types, form)
    else if step == 3 then |products| > 0 && segment != ""
    else true
  }

  /** The company data with the proportions the public-type step stores
      when administrativo and operativo are both chosen. */
  function WithProportions(cd: CompanyData, types: seq<string>, form: Form): CompanyData {
    if "administrativo" in types && "operativo" in types then
      cd.(proporciones := Some(Proportions(OrZero(ParseInt(form.propAdministrativo)),
                                           OrZero(ParseInt(form.propOperativo)))))
    else cd
  }

  /** The company data after `validateStep()` on step `step`, passing or
      not: each step stores its inputs once its checks pass, and the
      public-type step stores the proportions before it checks the
      visitor count. */
  function StepWrite(step: int, cd: CompanyData, types: seq<string>, products: seq<string>, segment: string,
                     form: Form): CompanyData
  {
    var passes := StepPasses(step, types, products, segment, form);
    if step == 0 then
      if passes then cd.(sector := Some(form.companySector), size := Some(form.companySize)) else cd
    else if step == 1 then
      if passes then
        cd.(numMujeres := Some(ParseInt(form.numMujeres)), numHombres := Some(ParseInt(form.numHombres)),
            diasLaborales := Some(ParseInt(form.diasLaborales)), horasLaborales := Some(ParseInt(form.horasLaborales)))
      else cd
    else if step == 2 then
      if |types| == 0 || !ProportionsPass(types, form) then cd
      else
        var withProps := WithProportions(cd, types, form);
        if !VisitorsPass(types, form) then withProps
        else withProps.(numVisitantes := if "flotante" in types then Some(ParseInt(form.numVisitantes).value)
                                         else withProps.numVisitantes,
                        tipoPublico := Some(types))
    else if step == 3 then
      if passes then cd.(products := Some(products), bathroomSegment := Some(segment)) else cd
    else cd
  }

  /** A failed validation stores nothing, except the proportions on the
      public-type step; a passing one keeps the selected references and
      every field that belongs to another step. */
  lemma StepWriteFrame(step: int, cd: CompanyData, types: seq<string>, products: seq<string>, segment: string, form: Form)
    ensures var r := StepWrite(step, cd, types, products, segment, form);
            !StepPasses(step, types, products, segment, form) ==> r.(proporciones := cd.proporciones) == cd
    ensures var r := StepWrite(step, cd, types, products, segment, form);
            r.proporciones != cd.proporciones ==> step == 2 && "administrativo" in types && "operativo" in types
    ensures var r := StepWrite(step, cd, types, products, segment, form);
            r.selectedReferences == cd.selectedReferences
            && (step != 0 ==> r.sector == cd.sector && r.size == cd.size)
            && (step != 1 ==> r.numMujeres == cd.numMujeres && r.numHombres == cd.numHombres
                              && r.diasLaborales == cd.diasLaborales && r.horasLaborales == cd.horasLaborales)
            && (step != 2 ==> r.tipoPublico == cd.tipoPublico && r.numVisitantes == cd.numVisitantes)
            && (step != 3 ==> r.products == cd.products && r.bathroomSegment == cd.bathroomSegment)
  {
  }

  /** A passing step stores what its checks accepted. */
  lemma PassingStepStores(step: int, cd: CompanyData, types: seq<string>, products: seq<string>, segment: string, form: Form)
    requires StepPasses(step, types, products, segment, form)
    ensures var r := StepWrite(step, cd, types, products, segment, form);
            (step == 0 ==> r.sector == Some(form.companySector) && r.size == Some(form.companySize))
            && (step == 1 ==> r.numMujeres == Some(ParseInt(form.numMujeres)) && r.numHombres == Some(ParseInt(form.numHombres))
                              && r.diasLaborales == Some(ParseInt(form.diasLaborales))
                              && r.horasLaborales == Some(ParseInt(form.horasLaborales)))
            && (step == 2 ==> r.tipoPublico == Some(types)
                              && ("flotante" in types ==> r.numVisitantes.Some? && r.numVisitantes.value > 0))
            && (step == 3 ==> r.products == Some(products) && r.bathroomSegment == Some(segment))
  {
  }

  /** With all three public types, proportions summing to 100 and no usable
      visitor count, the step fails but the proportions stay stored. */
  lemma FailedVisitorsKeepProportions(cd: CompanyData, types: seq<string>, form: Form)
    requires "administrativo" in types && "operativo" in types && "flotante" in types
    requires ProportionTotal(form.propAdministrativo, form.propOperativo) == 100
    requires !ValidVisitors(form.numVisitantes)
    ensures !StepPasses(2, types, [], "", form)
    ensures StepWrite(2, cd, types, [], "", form).proporciones
            == Some(Proportions(OrZero(ParseInt(form.propAdministrativo)), OrZero(ParseInt(form.propOperativo))))
  {
    assert ProportionsPass(types, form) && !VisitorsPass(types, form);
    assert StepWrite(2, cd, types, [], "", form) == WithProportions(cd, types, form);
  }

  /** The public-type case of `validateStep()` (lines 184-222): the
      proportions are checked and stored first, then the visitor count. */
  method ValidatePublicType(s: AppState, form: Form) returns (ok: bool)
    modifies s`companyData
    ensures ok == StepPasses(2, s.selectedPublicTypes, s.selectedProducts, s.selectedBathroomSegment, form)
    ensures s.companyData == StepWrite(2, old(s.companyData), s.selectedPublicTypes,
                                       s.selectedProducts, s.selectedBathroomSegment, form)
  {
    ghost var types, cd := s.selectedPublicTypes, s.companyData;
    if |s.selectedPublicTypes| == 0 {
      return false;
    }
    var hasAdministrativo := "administrativo" in s.selectedPublicTypes;
    var hasOperativo := "operativo" in s.selectedPublicTypes;
    var hasFlotante := "flotante" in s.selectedPublicTypes;
    if hasAdministrativo && hasOperativo {
      var propAdm := OrZero(ParseInt(form.propAdministrativo));
      var propOp := OrZero(ParseInt(form.propOperativo));
      assert ProportionsPass(types, form) <==> propAdm + propOp == 100;
      if propAdm + propOp != 100 {
        return false;
      }
      s.companyData := s.companyData.(proporciones := Some(Proportions(propAdm, propOp)));
    }
    assert ProportionsPass(types, form) && s.companyData == WithProportions(cd, types, form);
    if hasFlotante {
      var visitors := ParseInt(form.numVisitantes);
      assert VisitorsPass(types, form) <==> Truthy(visitors) && visitors.value > 0;
      if !Truthy(visitors) || visitors.value <= 0 {
        return false;
      }
      s.companyData := s.companyData.(numVisitantes := Some(visitors.value));
    }
    assert VisitorsPass(types, form);
    s.companyData := s.companyData.(tipoPublico := Some(s.selectedPublicTypes));
    return true;
  }

  /** `validateStep()`. The step id comes from `steps[currentStep]`, so the
      current step must index the step list. The result is `StepPasses` of
      the step and the company data becomes its `StepWrite`. */
  method ValidateStep(s: AppState, form: Form) returns (ok: bool)
    requires 0 <= s.currentStep < StepCount
    modifies s`companyData
    ensures ok == StepPasses(old(s.currentStep), s.selectedPublicTypes, s.selectedProducts, s.selectedBathroomSegment, form)
    ensures s.companyData == StepWrite(old(s.currentStep), old(s.companyData), s.selectedPublicTypes,
                                       s.selectedProducts, s.selectedBathroomSegment, form)
  {
    var stepId := StepIds[s.currentStep];
    if stepId == "company-sector" {
      if form.companySector == "" || form.companySize == "" {
        return false;
      }
      s.companyData := s.companyData.(sector := Some(form.companySector));
      s.companyData := s.companyData.(size := Some(form.companySize));
    } else if stepId == "demographics" {
      if form.numMujeres == "" || form.numHombres == "" || form.diasLaborales == "" || form.horasLaborales == "" {
        return false;
      }
      s.companyData := s.companyData.(numMujeres := Some(ParseInt(form.numMujeres)));
      s.companyData := s.companyData.(numHombres := Some(ParseInt(form.numHombres)));
      s.companyData := s.companyData.(diasLaborales := Some(ParseInt(form.diasLaborales)));
      s.companyData := s.companyData.(horasLaborales := Some(ParseInt(form.horasLaborales)));
    } else if stepId == "public-type" {
      ok := ValidatePublicType(s, form);
      return;
    } else if stepId == "product-selection" {
      if |s.selectedProducts| == 0 {
        return false;
      }
      if s.selectedBathroomSegment == "" {
        return false;
      }
      s.companyData := s.companyData.(products := Some(s.selectedProducts));
      s.companyData := s.companyData.(bathroomSegment := Some(s.selectedBathroomSegment));
    }
    return true;
  }

  /** A product or public-type button: removes the item when it is
      selected, appends it otherwise. */
  function Toggle(s: seq<string>, x: string): (r: seq<string>)
    ensures x in r <==> x !in s
    ensures forall y :: y != x ==> (y in r <==> y in s)
  {
    if x in s then
      WithoutMembership(s, x);
      Without(s, x)
    else s + [x]
  }

  /** Toggling the same item twice restores its membership and every other
      item's; starting from an unselected item it restores the very list. */
  lemma ToggleTwice(s: seq<string>, x: string)
    ensures forall y :: y in Toggle(Toggle(s, x), x) <==> y in s
    ensures x !in s ==> Toggle(Toggle(s, x), x) == s
  {
    if x !in s {
      WithoutAppend(s, [x], x);
      WithoutAbsent(s, x);
      assert Without([x], x) == [];
    }
  }

  /** On a selection without duplicates a toggle is the state's add or
      remove, and keeps the selection free of duplicates. */
  lemma ToggleIsAddOrRemove(s: seq<string>, x: string)
    requires NoDuplicates(s)
    ensures x in s ==> Toggle(s, x) == Without(s, x)
    ensures x !in s ==> Toggle(s, x) == AddIfAbsent(s, x)
    ensures NoDuplicates(Toggle(s, x))
  {
    if x in s {
      WithoutKeepsNoDuplicates(s, x);
    }
  }

  /** The product button handler, on the state's selection. */
  method ToggleProduct(s: AppState, product: string)
    modifies s`selectedProducts
    ensures s.selectedProducts == Toggle(old(s.selectedProducts), product)
  {
    if product in s.selectedProducts {
      s.selectedProducts := Without(s.selectedProducts, product);
    } else {
      s.selectedProducts := s.selectedProducts + [product];
    }
  }

  /** The public-type button handler, on the state's selection. */
  method TogglePublicType(s: AppState, publicType: string)
    modifies s`selectedPublicTypes
    ensures s.selectedPublicTypes == Toggle(old(s.selectedPublicTypes), publicType)
  {
    if publicType in s.selectedPublicTypes {
      s.selectedPublicTypes := Without(s.selectedPublicTypes, publicType);
    } else {
      s.selectedPublicTypes := s.selectedPublicTypes + [publicType];
    }
  }

  /** `validateDemographicsStep()`: the Next button is enabled when either
      head count, read with `parseInt(v) || 0`, is positive. */
  function DemographicsNextEnabled(mujeres: string, hombres: string): (enabled: bool)
    ensures enabled <==> (ParseInt(mujeres).Int? && ParseInt(mujeres).value > 0)
                         || (ParseInt(hombres).Int? && ParseInt(hombres).value > 0)
  {
    OrZero(ParseInt(mujeres)) > 0 || OrZero(ParseInt(hombres)) > 0
  }

  /** On the decimal text of two integers the button is enabled exactly when
      one of them is positive. */
  lemma DemographicsOnNumbers(m: int, h: int)
    ensures DemographicsNextEnabled(IntToString(m), IntToString(h)) <==> m > 0 || h > 0
  {
    ParseIntOfIntToString(m);
    ParseIntOfIntToString(h);
  }

  /** The button looks at each count on its own: a positive and a larger
      negative count enable it although their sum is negative. */
  lemma EnabledWithNegativeTotal()
    ensures DemographicsNextEnabled("5", "-10")
    ensures Add(ParseInt("5"), ParseInt("-10")) == Int(-5)
  {
    assert IntToString(5) == "5" by {
      assert NatToDigits(5) == [DigitChar(5)];
    }
    assert IntToString(-10) == "-10" by {
      assert NatToDigits(1) == "1";
      assert NatToDigits(10) == NatToDigits(1) + [DigitChar(0)];
    }
    ParseIntOfIntToString(5);
    ParseIntOfIntToString(-10);
  }

  /** The colour class of the proportion total. */
  datatype TotalClass = Exact | Over | Under

  /** `updateTotalPorcentaje()`: one class per total, exactly 100, above
      100, or below. */
  function ClassifyTotal(adm: string, op: string): (c: TotalClass)
    ensures c == Exact <==> ProportionTotal(adm, op) == 100
    ensures c == Over <==> ProportionTotal(adm, op) > 100
    ensures c == Under <==> ProportionTotal(adm, op) < 100
  {
    var total := ProportionTotal(adm, op);
    if total == 100 then Exact else if total > 100 then Over else Under
  }
}
