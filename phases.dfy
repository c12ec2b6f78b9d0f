/**
 * The phase calendar: which of the four cycle phases a cycle day falls in, and
 * the static record kept for each phase (data.js).
 */
module Phases {
  import opened Js

  datatype Phase = Menstrual | Follicular | Ovulatory | Luteal

  /** The period length used for phase boundaries; `settings.periodLength` is not consulted. */
  const PeriodLength := 5
  /** Ovulation is placed this many days before the end of the cycle. */
  const LutealLength := 14

  /** The key of a phase in the phase table, as `getPhaseFromDay` returns it. */
  function Name(p: Phase): string
  {
    match p
    case Menstrual => "menstrual"
    case Follicular => "follicular"
    case Ovulatory => "ovulatory"
    case Luteal => "luteal"
  }

  /** Position of a phase in the order menstrual < follicular < ovulatory < luteal. */
  function Rank(p: Phase): nat
  {
    match p
    case Menstrual => 0
    case Follicular => 1
    case Ovulatory => 2
    case Luteal => 3
  }

  /**
   * `getPhaseFromDay(day, cycleLength)`: the ordered tests `day <= 5`,
   * `day <= ovulationDay - 1`, `day <= ovulationDay + 2` with
   * `ovulationDay = cycleLength - 14`. Each phase is characterised by its own band.
   */
  function PhaseFromDay(day: int, cycleLength: int): (r: Phase)
    ensures r == Menstrual <==> day <= 5
    ensures r == Follicular <==> 5 < day <= cycleLength - 15
    ensures r == Ovulatory <==> 5 < day && cycleLength - 15 < day <= cycleLength - 12
    ensures r == Luteal <==> 5 < day && cycleLength - 12 < day
  {
    var ovulationDay := cycleLength - LutealLength;
    var follicularEnd := ovulationDay - 1;
    var ovulatoryEnd := ovulationDay + 2;
    if day <= PeriodLength then Menstrual
    else if day <= follicularEnd then Follicular
    else if day <= ovulatoryEnd then Ovulatory
    else Luteal
  }

  /** `getPhaseFromDay(day)` with the cycle length omitted uses the default 28. */
  function PhaseFromDayOr(day: int, cycleLength: Option<int>): (r: Phase)
    ensures cycleLength.None? ==> r == PhaseFromDay(day, 28)
    ensures cycleLength.Some? ==> r == PhaseFromDay(day, cycleLength.value)
  {
    PhaseFromDay(day, if cycleLength.Some? then cycleLength.value else 28)
  }

  /**
   * `getPhaseFromDay` applied to a number that may be NaN: every comparison
   * with NaN is false, so a NaN day falls through to luteal.
   */
  function PhaseFromNum(day: Num, cycleLength: int): (r: Phase)
    ensures day.NaN? ==> r == Luteal
    ensures day.Int? ==> r == PhaseFromDay(day.n, cycleLength)
  {
    match day
    case Int(d) => PhaseFromDay(d, cycleLength)
    case NaN => Luteal
  }

  /** The first five days are menstrual whatever the cycle length. */
  lemma EarlyDaysAreMenstrual(day: int, cycleLength: int)
    requires day <= PeriodLength
    ensures PhaseFromDay(day, cycleLength) == Menstrual
  {
  }

  /** As the day grows the phase never moves backwards. */
  lemma PhaseMonotone(d1: int, d2: int, cycleLength: int)
    requires d1 <= d2
    ensures Rank(PhaseFromDay(d1, cycleLength)) <= Rank(PhaseFromDay(d2, cycleLength))
  {
  }

  /** Two ovulatory days are at most two days apart: the ovulatory band spans at most three days. */
  lemma OvulatoryBandAtMostThreeDays(d1: int, d2: int, cycleLength: int)
    requires PhaseFromDay(d1, cycleLength) == Ovulatory && PhaseFromDay(d2, cycleLength) == Ovulatory
    ensures -2 <= d1 - d2 <= 2
  {
  }

  /** The days of a cycle that fall in phase `p`. */
  function BandOf(p: Phase, cycleLength: int): (band: set<int>)
    ensures forall d :: d in band <==> 1 <= d <= cycleLength && PhaseFromDay(d, cycleLength) == p
  {
    set d | 1 <= d <= cycleLength && PhaseFromDay(d, cycleLength) == p
  }

  /** Once the cycle is at least 21 days long, every phase occurs on some day of it. */
  lemma {:induction false} AllPhasesOccur(cycleLength: int)
    requires cycleLength >= 21
    ensures forall p :: BandOf(p, cycleLength) != {}
  {
    assert 1 in BandOf(Menstrual, cycleLength);
    assert 6 in BandOf(Follicular, cycleLength);
    assert cycleLength - 13 in BandOf(Ovulatory, cycleLength);
    assert cycleLength in BandOf(Luteal, cycleLength);
  }

  /** Below 21 days the follicular band is empty: day 6 already lies past `ovulationDay - 1`. */
  lemma {:induction false} ShortCycleHasNoFollicularDays(cycleLength: int)
    requires cycleLength <= 20
    ensures BandOf(Follicular, cycleLength) == {}
  {
    forall d | d in BandOf(Follicular, cycleLength) ensures false {
    }
  }

  /** The four bands of the default 28-day cycle are 1-5, 6-13, 14-16 and 17-28. */
  lemma {:induction false} DefaultCycleBands()
    ensures BandOf(Menstrual, 28) == {1, 2, 3, 4, 5}
    ensures BandOf(Follicular, 28) == {6, 7, 8, 9, 10, 11, 12, 13}
    ensures BandOf(Ovulatory, 28) == {14, 15, 16}
    ensures BandOf(Luteal, 28) == {17, 18, 19, 20, 21, 22, 23, 24, 25, 26, 27, 28}
  {
  }

  /** The static part of a phase's record in the phase table that the model keeps. */
  datatype PhaseRecord = PhaseRecord(name: string, days: seq<int>, color: string)

  /** The record stored under each phase's key in the phase table. */
  function Record(p: Phase): (r: PhaseRecord)
    ensures |r.days| > 0 && forall i | 0 <= i < |r.days| :: r.days[i] == r.days[0] + i
    ensures p == Menstrual <==> r.days[0] == 1
    ensures p == Luteal <==> r.days[|r.days| - 1] == 28
  {
    match p
    case Menstrual => PhaseRecord("Menstrual Phase", [1, 2, 3, 4, 5], "#7A1E2D")
    case Follicular => PhaseRecord("Follicular Phase", [6, 7, 8, 9, 10, 11, 12, 13], "#7FB3A6")
    case Ovulatory => PhaseRecord("Ovulatory Phase", [14, 15, 16], "#F2C94C")
    case Luteal => PhaseRecord("Luteal Phase", [17, 18, 19, 20, 21, 22, 23, 24, 25, 26, 27, 28], "#6B5B95")
  }

  /** The `days` list of each record is exactly that phase's band of the default 28-day cycle. */
  lemma {:induction false} DaysListsMatchDefaultCycle(p: Phase, d: int)
    ensures d in Record(p).days <==> 1 <= d <= 28 && PhaseFromDay(d, 28) == p
  {
  }

  /** The phase whose table key is `s`, if any. */
  function FromName(s: string): (r: Option<Phase>)
    ensures r.Some? ==> Name(r.value) == s
    ensures r.None? ==> forall p :: Name(p) != s
  {
    if s == "menstrual" then Some(Menstrual)
    else if s == "follicular" then Some(Follicular)
    else if s == "ovulatory" then Some(Ovulatory)
    else if s == "luteal" then Some(Luteal)
    else None
  }

  /** Looking a phase up by its own key finds that phase, so distinct phases have distinct keys. */
  lemma NameRoundTrip(p: Phase)
    ensures FromName(Name(p)) == Some(p)
  {
  }

  /** `getPhaseData(name)`: the record stored under `name`, or the follicular record for any other name. */
  function GetPhaseData(name: string): (r: PhaseRecord)
    ensures forall p :: name == Name(p) ==> r == Record(p)
    ensures (forall p :: name != Name(p)) ==> r == Record(Follicular)
  {
    match FromName(name)
    case Some(p) => Record(p)
    case None => Record(Follicular)
  }
}
