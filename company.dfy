/** The `companyData` record the wizard fills in, and the consumption
    results the backend returns (webapp/static/state.js). A JavaScript object
    with a fixed set of keys is modelled as a record whose fields are
    optional: `None` is a key the object does not have. */
module Company {
  import opened Common
  import opened JsNumbers

  /** `companyData.proporciones` */
  datatype Proportions = Proportions(administrativo: int, operativo: int)

  datatype CompanyData = CompanyData(
    sector: Option<string>,
    size: Option<string>,
    numMujeres: Option<Number>,
    numHombres: Option<Number>,
    diasLaborales: Option<Number>,
    horasLaborales: Option<Number>,
    tipoPublico: Option<seq<string>>,
    proporciones: Option<Proportions>,
    numVisitantes: Option<int>,
    products: Option<seq<string>>,
    bathroomSegment: Option<string>,
    selectedReferences: Option<map<string, Option<string>>>)

  /** `{}` */
  const EmptyCompanyData: CompanyData :=
    CompanyData(None, None, None, None, None, None, None, None, None, None, None, None)

  /** One key of `{ ...base, ...patch }`. */
  function Pick<T>(base: Option<T>, patch: Option<T>): (r: Option<T>)
    ensures patch.Some? ==> r == patch
    ensures patch.None? ==> r == base
  {
    if patch.Some? then patch else base
  }

  /** `{ ...base, ...patch }`: every key of `patch` takes its new value, every
      other key keeps its old one. In particular the patch
      `{ selectedReferences }` changes that key alone, and `{}` nothing. */
  function Merge(base: CompanyData, patch: CompanyData): (r: CompanyData)
    ensures patch == EmptyCompanyData.(selectedReferences := patch.selectedReferences) ==>
              r == base.(selectedReferences := if patch.selectedReferences.Some? then patch.selectedReferences
                                                else base.selectedReferences)
  {
    CompanyData(
      Pick(base.sector, patch.sector),
      Pick(base.size, patch.size),
      Pick(base.numMujeres, patch.numMujeres),
      Pick(base.numHombres, patch.numHombres),
      Pick(base.diasLaborales, patch.diasLaborales),
      Pick(base.horasLaborales, patch.horasLaborales),
      Pick(base.tipoPublico, patch.tipoPublico),
      Pick(base.proporciones, patch.proporciones),
      Pick(base.numVisitantes, patch.numVisitantes),
      Pick(base.products, patch.products),
      Pick(base.bathroomSegment, patch.bathroomSegment),
      Pick(base.selectedReferences, patch.selectedReferences))
  }

  /** Merging nothing changes nothing; merging into `{}` copies the patch;
      merging the same patch twice is merging it once; two merges in a row
      are one merge of the combined patch. */
  lemma MergeLaws(base: CompanyData, p: CompanyData, q: CompanyData)
    ensures Merge(base, EmptyCompanyData) == base
    ensures Merge(EmptyCompanyData, p) == p
    ensures Merge(Merge(base, p), p) == Merge(base, p)
    ensures Merge(Merge(base, p), q) == Merge(base, Merge(p, q))
  {
  }

  /** One product's entry in the consumption results. */
  datatype ConsumptionEntry = ConsumptionEntry(consumoMensual: real, referenciaUsada: Option<string>)

  type ConsumptionData = map<string, ConsumptionEntry>
}
