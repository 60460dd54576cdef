/** Segment resolution (`determineSegment` in webapp/static/Portfolio.js).
    The function is exported but no caller in the application uses it: the
    segment is chosen by the user. */
module Segment {

  const HigieneCritica: string := "Higiene Crítica"
  const WowFactor: string := "Wow Factor"
  const RestroomPlus: string := "Restroom Plus"
  const Essential: string := "Essential"

  const Salud: string := "Salud (Hospitales, Clínicas)"
  const HoReCa: string := "HoReCa (Hoteles, Restaurantes, Cafeterías)"

  /** The public-type argument is either an array or a single string. */
  datatype PublicTypes = Many(types: seq<string>) | One(single: string)

  predicate IsCriticalSector(sector: string) {
    sector == Salud || sector == HoReCa
  }

  /** `hasFlotante || hasMultipleTypes`: "flotante" is among the types, or
      the argument is an array with more than one element (duplicates count;
      a single string never has several types). */
  predicate IsPremiumMix(p: PublicTypes) {
    match p
    case Many(ts) => "flotante" in ts || |ts| > 1
    case One(t) => t == "flotante"
  }

  /** `determineSegment(sector, size, tiposPublico)`: the first matching rule wins. */
  function DetermineSegment(sector: string, size: string, publicTypes: PublicTypes): (segment: string)
    ensures segment in {HigieneCritica, WowFactor, RestroomPlus, Essential}
  {
    if sector == Salud then HigieneCritica
    else if sector == HoReCa then HigieneCritica
    else if IsPremiumMix(publicTypes) && size == "200+" then WowFactor
    else if IsPremiumMix(publicTypes) && (size == "51-200" || size == "11-50") then RestroomPlus
    else if size == "200+" then WowFactor
    else if size == "51-200" then RestroomPlus
    else Essential
  }

  /** The rule list, read as one characterisation per segment: the critical
      sectors decide alone; otherwise "200+" is Wow Factor with or without
      the premium mix, "51-200" is Restroom Plus either way, and the mix
      only matters for "11-50", which it lifts from Essential to Restroom
      Plus. */
  lemma SegmentCharacterisation(sector: string, size: string, p: PublicTypes)
    ensures DetermineSegment(sector, size, p) == HigieneCritica <==> IsCriticalSector(sector)
    ensures DetermineSegment(sector, size, p) == WowFactor <==>
              !IsCriticalSector(sector) && size == "200+"
    ensures DetermineSegment(sector, size, p) == RestroomPlus <==>
              !IsCriticalSector(sector) && (size == "51-200" || (size == "11-50" && IsPremiumMix(p)))
    ensures DetermineSegment(sector, size, p) == Essential <==>
              !IsCriticalSector(sector) && size != "200+" && size != "51-200"
              && !(size == "11-50" && IsPremiumMix(p))
  {
    assert HigieneCritica != WowFactor && HigieneCritica != RestroomPlus && HigieneCritica != Essential;
    assert WowFactor != RestroomPlus && WowFactor != Essential && RestroomPlus != Essential;
  }

  /** The health-care and hospitality sectors give Higiene Crítica whatever
      the size and public types. */
  lemma CriticalSectorsIgnoreTheRest(sector: string, s1: string, s2: string, p1: PublicTypes, p2: PublicTypes)
    requires IsCriticalSector(sector)
    ensures DetermineSegment(sector, s1, p1) == DetermineSegment(sector, s2, p2) == HigieneCritica
  {
  }

  /** An array with a repeated type counts as several types, while the same
      type passed as a string does not. */
  lemma RepeatedTypeCountsAsSeveral()
    ensures DetermineSegment("Otro", "11-50", Many(["operativo", "operativo"])) == RestroomPlus
    ensures DetermineSegment("Otro", "11-50", One("operativo")) == Essential
  {
    assert "Otro" != Salud && "Otro" != HoReCa;
  }
}
