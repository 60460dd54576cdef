/** Traffic classification (`determineTrafficLevel` in
    webapp/static/Portfolio.js). The factors are kept exact by scaling: the
    intensity and frequency factors are multiplied by 10, so their product
    is the factor product times 100, and the thresholds 40, 180 and 450 on
    the index become 4000, 18000 and 45000 on the index times 100. */
module Traffic {
  import opened JsNumbers

  datatype TrafficLevel = Bajo | Medio | Alto | Pico {

    /** The label the application uses as a catalog key. */
    function Label(): string {
      match this
      case Bajo => "Tráfico Bajo"
      case Medio => "Tráfico Medio"
      case Alto => "Tráfico Alto"
      case Pico => "Tráfico Pico"
    }

    /** Position in the order Bajo < Medio < Alto < Pico. */
    function Rank(): nat {
      match this
      case Bajo => 0
      case Medio => 1
      case Alto => 2
      case Pico => 3
    }
  }

  const BajoLimit100: int := 4000
  const MedioLimit100: int := 18000
  const AltoLimit100: int := 45000

  /** The intensity factor times 10, chosen by hours per day; the first
      matching threshold (16, 12, 8) wins. */
  function IntensityFactor10(hours: int): (f: int)
    ensures hours >= 16 ==> f == 15
    ensures 12 <= hours < 16 ==> f == 13
    ensures 8 <= hours < 12 ==> f == 10
    ensures hours < 8 ==> f == 8
  {
    if hours >= 16 then 15
    else if hours >= 12 then 13
    else if hours >= 8 then 10
    else 8
  }

  /** The frequency factor times 10, chosen by days per month; the first
      matching threshold (28, 22, 20, 15) wins. */
  function FrequencyFactor10(days: int): (f: int)
    ensures days >= 28 ==> f == 14
    ensures 22 <= days < 28 ==> f == 12
    ensures 20 <= days < 22 ==> f == 10
    ensures 15 <= days < 20 ==> f == 8
    ensures days < 15 ==> f == 6
  {
    if days >= 28 then 14
    else if days >= 22 then 12
    else if days >= 20 then 10
    else if days >= 15 then 8
    else 6
  }

  /** The adjusted traffic index times 100. The two factors together
      scale the head count by 0.48 at the least and by 2.1 at the most. */
  function AdjustedIndex100(employees: int, days: int, hours: int): (index100: int)
    ensures employees >= 0 ==> 48 * employees <= index100 <= 210 * employees
    ensures employees < 0 ==> index100 < 0
  {
    var k := IntensityFactor10(hours) * FrequencyFactor10(days);
    assert 48 <= k <= 210;
    if employees >= 0 then
      MulMonotone(48, k, employees);
      MulMonotone(k, 210, employees);
      k * employees
    else
      MulMonotone(employees, -1, k);
      k * employees
  }

  /** The level of an index times 100: below 40 Bajo, below 180 Medio,
      below 450 Alto, otherwise Pico. */
  function LevelOfIndex100(index100: int): (l: TrafficLevel)
    ensures l == Bajo <==> index100 < BajoLimit100
    ensures l == Medio <==> BajoLimit100 <= index100 < MedioLimit100
    ensures l == Alto <==> MedioLimit100 <= index100 < AltoLimit100
    ensures l == Pico <==> AltoLimit100 <= index100
  {
    if index100 < BajoLimit100 then Bajo
    else if index100 < MedioLimit100 then Medio
    else if index100 < AltoLimit100 then Alto
    else Pico
  }

  /** `determineTrafficLevel(numEmployees, diasLaborales, horasLaborales)`
      for integer inputs. */
  function DetermineTrafficLevel(employees: int, days: int, hours: int): (l: TrafficLevel)
    ensures employees < 20 ==> l == Bajo
    ensures employees >= 938 ==> l == Pico
  {
    LevelOfIndex100(AdjustedIndex100(employees, days, hours))
  }

  /** `determineTrafficLevel` on JavaScript numbers. Every comparison with
      NaN is false: a NaN hour count takes the last intensity branch (0.8), a
      NaN day count the last frequency branch (0.6), and a NaN employee
      count makes the index NaN, which fails every `<` and gives Pico. */
  function DetermineTrafficLevelJs(employees: Number, days: Number, hours: Number): (l: TrafficLevel)
    ensures employees.NaN? ==> l == Pico
    ensures employees.Int? && days.Int? && hours.Int? ==>
              l == DetermineTrafficLevel(employees.value, days.value, hours.value)
  {
    match employees
    case NaN => Pico
    case Int(e) =>
      var f := match days case NaN => 6 case Int(d) => FrequencyFactor10(d);
      var i := match hours case NaN => 8 case Int(h) => IntensityFactor10(h);
      LevelOfIndex100(i * f * e)
  }

  /** The level on the index is monotone. */
  lemma LevelOfIndexMonotone(x: int, y: int)
    requires x <= y
    ensures LevelOfIndex100(x).Rank() <= LevelOfIndex100(y).Rank()
  {
  }

  lemma MulMonotone(a: int, b: int, k: int)
    requires a <= b && k >= 0
    ensures a * k <= b * k
  {
  }

  /** Zero employees always give Tráfico Bajo. */
  lemma ZeroEmployeesIsBajo(days: int, hours: int)
    ensures DetermineTrafficLevel(0, days, hours) == Bajo
  {
  }

  /** With the schedule fixed, the level never decreases as the employee
      count grows. */
  lemma MonotoneInEmployees(e1: int, e2: int, days: int, hours: int)
    requires e1 <= e2
    ensures DetermineTrafficLevel(e1, days, hours).Rank() <= DetermineTrafficLevel(e2, days, hours).Rank()
  {
    var k := IntensityFactor10(hours) * FrequencyFactor10(days);
    MulMonotone(e1, e2, k);
    assert AdjustedIndex100(e1, days, hours) == e1 * k;
    assert AdjustedIndex100(e2, days, hours) == e2 * k;
    LevelOfIndexMonotone(e1 * k, e2 * k);
  }

  /** For a non-negative head count, more hours per day or more days per
      month never lower the level. */
  lemma MonotoneInSchedule(employees: int, d1: int, d2: int, h1: int, h2: int)
    requires employees >= 0 && d1 <= d2 && h1 <= h2
    ensures DetermineTrafficLevel(employees, d1, h1).Rank() <= DetermineTrafficLevel(employees, d2, h2).Rank()
  {
    var i1, i2 := IntensityFactor10(h1), IntensityFactor10(h2);
    var f1, f2 := FrequencyFactor10(d1), FrequencyFactor10(d2);
    assert i1 <= i2 && f1 <= f2;
    MulMonotone(i1, i2, f1);
    MulMonotone(f1, f2, i2);
    assert i1 * f1 <= i2 * f2;
    MulMonotone(i1 * f1, i2 * f2, employees);
    assert AdjustedIndex100(employees, d1, h1) == (i1 * f1) * employees;
    assert AdjustedIndex100(employees, d2, h2) == (i2 * f2) * employees;
    LevelOfIndexMonotone((i1 * f1) * employees, (i2 * f2) * employees);
  }

  /** Worked examples: 100 employees, 20 days, 8 hours give an index of 100
      (Medio); 300, 30, 16 give 630 (Pico); 200, 30, 12 give 364 (Alto). */
  lemma Examples()
    ensures DetermineTrafficLevel(100, 20, 8) == Medio
    ensures DetermineTrafficLevel(300, 30, 16) == Pico
    ensures DetermineTrafficLevel(200, 30, 12) == Alto
  {
  }
}
