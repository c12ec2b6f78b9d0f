/**
 * The lotus dial (lotus-dial.js): one petal per cycle day, tagged with its
 * phase, styled in three tiers around the active day, and the sun-core labels.
 * Only the ring of day petals is modelled; the purely decorative rings and all
 * path geometry are not.
 */
module Dial {
  import opened Js
  import opened Phases
  import opened Store

  /** The highlight style `highlightActiveDay` gives a petal; `Unstyled` before it has run. */
  datatype Tier = Unstyled | ActiveDay | ActivePhase | Inactive

  /** A day petal: its `data-day`, `data-phase`, `fill-opacity` attribute, label font size and highlight tier. */
  datatype Petal = Petal(day: int, phase: Phase, fillOpacity: string, fontSize: string, tier: Tier)

  /** The label font: smaller for cycles longer than 30 days. */
  function LabelFont(cycleLength: int): (f: string)
    ensures f == "7px" <==> cycleLength > 30
    ensures f == "9px" <==> cycleLength <= 30
  {
    if cycleLength > 30 then "7px" else "9px"
  }

  /** The initial `fill-opacity`: stronger for petals of the currently active phase. */
  function InitialOpacity(phase: Phase, activePhase: Phase): (o: string)
    ensures o == "0.5" <==> phase == activePhase
    ensures o == "0.2" <==> phase != activePhase
  {
    if phase == activePhase then "0.5" else "0.2"
  }

  /** The three-tier rule, applied in order: the active day, then the active phase, then everything else. */
  function TierFor(day: int, phase: Phase, currentDay: Num, activePhase: Phase): (t: Tier)
    ensures t != Unstyled
    ensures t == ActiveDay <==> currentDay == Int(day)
    ensures t == ActivePhase <==> currentDay != Int(day) && phase == activePhase
    ensures t == Inactive <==> currentDay != Int(day) && phase != activePhase
  {
    if currentDay == Int(day) then ActiveDay
    else if phase == activePhase then ActivePhase
    else Inactive
  }

  /** How many petals a ring of `cycleLength` days has: the loop runs `cycleLength` times, or not at all. */
  function PetalCount(cycleLength: int): nat
  {
    if cycleLength > 0 then cycleLength else 0
  }

  /** The `i`-th petal as `renderCycleRing` creates it, before styling. */
  function NewPetal(i: nat, cycleLength: int, activePhase: Phase): (p: Petal)
  {
    var phase := PhaseFromDay(i + 1, cycleLength);
    Petal(i + 1, phase, InitialOpacity(phase, activePhase), LabelFont(cycleLength), Unstyled)
  }

  /** A petal restyled by `highlightActiveDay`: the phase is recomputed from the petal's day. */
  function Restyle(p: Petal, cycleLength: int, currentDay: Num, activePhase: Phase): Petal
  {
    p.(tier := TierFor(p.day, PhaseFromDay(p.day, cycleLength), currentDay, activePhase))
  }

  /** Every petal of `before` restyled for `currentDay` and `activePhase`, in place. */
  function RestyleAll(before: seq<Petal>, cycleLength: int, currentDay: Num, activePhase: Phase): seq<Petal>
  {
    if before == [] then []
    else [Restyle(before[0], cycleLength, currentDay, activePhase)] + RestyleAll(before[1..], cycleLength, currentDay, activePhase)
  }

  /** Restyling keeps every petal in its place and restyles each one on its own. */
  lemma {:induction false} RestyleAllPointwise(before: seq<Petal>, cycleLength: int, currentDay: Num, activePhase: Phase)
    ensures var after := RestyleAll(before, cycleLength, currentDay, activePhase);
      && |after| == |before|
      && forall i | 0 <= i < |after| :: after[i] == Restyle(before[i], cycleLength, currentDay, activePhase)
  {
    if before != [] {
      RestyleAllPointwise(before[1..], cycleLength, currentDay, activePhase);
    }
  }

  /** Restyling changes only tiers: day, phase, opacity and font stay, and the tier follows the three-tier rule. */
  lemma RestyleAllKeepsPetals(before: seq<Petal>, cycleLength: int, currentDay: Num, activePhase: Phase, i: nat)
    requires i < |before|
    ensures var after := RestyleAll(before, cycleLength, currentDay, activePhase);
      && i < |after|
      && after[i].(tier := Unstyled) == before[i].(tier := Unstyled)
      && after[i].tier == TierFor(before[i].day, PhaseFromDay(before[i].day, cycleLength), currentDay, activePhase)
  {
    RestyleAllPointwise(before, cycleLength, currentDay, activePhase);
  }

  /**
   * After `selectDay(day)` restyles a ring, the petal of `day` is the only one
   * styled as the active day.
   */
  lemma {:induction false} SelectedDayIsOnlyActiveDay(before: seq<Petal>, after: seq<Petal>, cycleLength: int, day: int, activePhase: Phase)
    requires forall i | 0 <= i < |before| :: before[i].day == i + 1
    requires after == RestyleAll(before, cycleLength, Int(day), activePhase)
    requires 1 <= day <= |after|
    ensures after[day - 1].tier == ActiveDay
    ensures forall i | 0 <= i < |after| && i != day - 1 :: after[i].tier != ActiveDay
  {
    RestyleAllPointwise(before, cycleLength, Int(day), activePhase);
    assert after[day - 1] == Restyle(before[day - 1], cycleLength, Int(day), activePhase);
  }

  /** A fresh ring, styled: `renderCycleRing` followed by its closing `highlightActiveDay`. */
  function Ring(cycleLength: int, currentDay: Num, activePhase: Phase): (ring: seq<Petal>)
    ensures |ring| == PetalCount(cycleLength)
    ensures forall i | 0 <= i < |ring| :: ring[i].day == i + 1
    ensures forall i | 0 <= i < |ring| :: ring[i].phase == PhaseFromDay(i + 1, cycleLength)
    ensures forall i | 0 <= i < |ring| :: ring[i].tier == TierFor(i + 1, ring[i].phase, currentDay, activePhase)
    ensures forall i | 0 <= i < |ring| :: ring[i].fillOpacity == InitialOpacity(ring[i].phase, activePhase)
    ensures forall i | 0 <= i < |ring| :: ring[i].fontSize == LabelFont(cycleLength)
  {
    seq(PetalCount(cycleLength), i requires 0 <= i < PetalCount(cycleLength) =>
      Restyle(NewPetal(i, cycleLength, activePhase), cycleLength, currentDay, activePhase))
  }

  /** At most one petal of a ring is styled as the active day. */
  lemma {:induction false} AtMostOneActiveDay(cycleLength: int, currentDay: Num, activePhase: Phase, i: nat, j: nat)
    requires i < PetalCount(cycleLength) && j < PetalCount(cycleLength)
    requires Ring(cycleLength, currentDay, activePhase)[i].tier == ActiveDay
    requires Ring(cycleLength, currentDay, activePhase)[j].tier == ActiveDay
    ensures i == j
  {
    var ring := Ring(cycleLength, currentDay, activePhase);
    assert currentDay == Int(i + 1) && currentDay == Int(j + 1);
  }

  /** Within a 28-day ring at cycle day 14, day 14 is the active day and 15 and 16 share its phase. */
  lemma RingExample()
    ensures var ring := Ring(28, Int(14), Ovulatory);
      ring[13].tier == ActiveDay && ring[14].tier == ActivePhase && ring[15].tier == ActivePhase && ring[16].tier == Inactive
  {
  }

  /** The sun-core day label: `String(day).padStart(2, '0')`. */
  function DayLabel(d: Num): string
  {
    PadStart(NumToString(d), 2, '0')
  }

  /**
   * What the day label shows: days 0 to 9 with a leading zero, larger days as
   * their numeral, negative days with their minus sign and no padding, and NaN
   * as `NaN`; never fewer than two characters.
   */
  lemma {:induction false} DayLabelCases(d: Num)
    ensures |DayLabel(d)| >= 2
    ensures d.Int? && 0 <= d.n < 10 ==> DayLabel(d) == ['0', DigitChar(d.n)]
    ensures d.Int? && d.n >= 10 ==> DayLabel(d) == NatDigits(d.n)
    ensures d.Int? && d.n < 0 ==> DayLabel(d) == "-" + NatDigits(-d.n)
    ensures d.NaN? ==> DayLabel(d) == "NaN"
  {
    match d
    case NaN =>
      assert PadStart("NaN", 2, '0') == "NaN";
    case Int(n) =>
      var t := IntToString(n);
      if 0 <= n < 10 {
        assert t == [DigitChar(n)];
        assert PadStart(t, 2, '0') == PadStart(['0'] + t, 2, '0');
        assert PadStart(['0'] + t, 2, '0') == ['0'] + t;
      } else {
        assert |t| >= 2 by {
          if n < 0 {
            assert t[1..] == NatDigits(-n);
          }
        }
        assert PadStart(t, 2, '0') == t;
      }
  }

  /** The sun-core phase label: the phase key upper-cased (a phase is never falsy here). */
  function PhaseLabel(p: Phase): string
  {
    match p
    case Menstrual => "MENSTRUAL"
    case Follicular => "FOLLICULAR"
    case Ovulatory => "OVULATORY"
    case Luteal => "LUTEAL"
  }

  /** Each label is `toUpperCase()` of the phase's table key, so it is all capitals. */
  lemma PhaseLabelIsUpperKey(p: Phase)
    ensures PhaseLabel(p) == ToUpperAscii(Name(p))
    ensures forall i | 0 <= i < |PhaseLabel(p)| :: 'A' <= PhaseLabel(p)[i] <= 'Z'
  {
  }

  class LotusDial {
    var cycleLength: int
    var currentDay: Num
    /** The day petals in the inner ring, in creation order. */
    var petals: seq<Petal>
    /** The text of `#date-day`. */
    var dayLabel: string
    /** The text of `#date-phase`. */
    var phaseLabel: string
    /** The `day` of every `dial:dayChanged` event dispatched so far. */
    var dayChanges: seq<int>

    /** `new LotusDial(svgId)`: a 28-day ring at day 1, rendered against the store's current state. */
    constructor (state: AppState, elapsed: int)
      ensures cycleLength == 28 && currentDay == Int(1)
      ensures petals == Ring(28, Int(1), CurrentPhaseOf(state.settings, elapsed))
      ensures dayLabel == "" && phaseLabel == "" && dayChanges == []
    {
      cycleLength := 28;
      currentDay := Int(1);
      petals := [];
      dayLabel, phaseLabel := "", "";
      dayChanges := [];
      new;
      RenderPetals(state, elapsed);
    }

    /**
     * `renderPetals()`: empty the rings and redraw them; of the redrawn rings only
     * `renderCycleRing()` is kept, which adds one petal per day of
     * `this.cycleLength` and then calls `highlightActiveDay()`.
     */
    method RenderPetals(state: AppState, elapsed: int)
      modifies this`petals
      ensures petals == Ring(cycleLength, currentDay, CurrentPhaseOf(state.settings, elapsed))
    {
      var activePhase := CurrentPhaseOf(state.settings, elapsed);
      petals := [];
      var i := 0;
      while i < cycleLength
        invariant 0 <= i <= PetalCount(cycleLength)
        invariant |petals| == i
        invariant forall k | 0 <= k < i :: petals[k] == NewPetal(k, cycleLength, activePhase)
      {
        petals := petals + [NewPetal(i, cycleLength, activePhase)];
        i := i + 1;
      }
      ghost var unstyled := petals;
      HighlightActiveDay(state, elapsed);
      RestyleAllPointwise(unstyled, cycleLength, currentDay, activePhase);
    }

    /** `highlightActiveDay()`: restyle every petal by the three-tier rule. */
    method HighlightActiveDay(state: AppState, elapsed: int)
      modifies this`petals
      ensures petals == RestyleAll(old(petals), cycleLength, currentDay, CurrentPhaseOf(state.settings, elapsed))
    {
      var activePhase := CurrentPhaseOf(state.settings, elapsed);
      var i := 0;
      while i < |petals|
        invariant 0 <= i <= |petals| == |old(petals)|
        invariant forall k | 0 <= k < i :: petals[k] == Restyle(old(petals)[k], cycleLength, currentDay, activePhase)
        invariant forall k | i <= k < |petals| :: petals[k] == old(petals)[k]
      {
        var g := petals[i];
        var phase := PhaseFromDay(g.day, cycleLength);
        petals := petals[i := g.(tier := TierFor(g.day, phase, currentDay, activePhase))];
        i := i + 1;
      }
      RestyleAllPointwise(old(petals), cycleLength, currentDay, activePhase);
    }

    /** `updateSunCore()`: take the store's cycle day as the current day and write both labels. */
    method UpdateSunCore(state: AppState, elapsed: int)
      modifies this`currentDay, this`dayLabel, this`phaseLabel
      ensures currentDay == CycleDayOf(state.settings, elapsed)
      ensures dayLabel == DayLabel(currentDay)
      ensures phaseLabel == PhaseLabel(CurrentPhaseOf(state.settings, elapsed))
    {
      currentDay := CycleDayOf(state.settings, elapsed);
      var phase := CurrentPhaseOf(state.settings, elapsed);
      dayLabel := DayLabel(currentDay);
      phaseLabel := PhaseLabel(phase);
    }

    /**
     * `selectDay(day)`: highlight with the selected day, then `updateSunCore()`,
     * which sets `currentDay` back to the store's cycle day.
     */
    method SelectDay(day: int, state: AppState, elapsed: int)
      modifies this`currentDay, this`petals, this`dayLabel, this`phaseLabel, this`dayChanges
      ensures petals == RestyleAll(old(petals), cycleLength, Int(day), CurrentPhaseOf(state.settings, elapsed))
      ensures currentDay == CycleDayOf(state.settings, elapsed)
      ensures dayLabel == DayLabel(currentDay)
      ensures phaseLabel == PhaseLabel(CurrentPhaseOf(state.settings, elapsed))
      ensures dayChanges == old(dayChanges) + [day]
    {
      currentDay := Int(day);
      HighlightActiveDay(state, elapsed);
      UpdateSunCore(state, elapsed);
      dayChanges := dayChanges + [day];
    }

    /**
     * `refresh()`: adopt the store's cycle length (28 when it is 0), rebuild the
     * ring, then update the sun core. The ring is highlighted with the
     * `currentDay` held before the sun core is updated.
     */
    method Refresh(state: AppState, elapsed: int)
      modifies this`cycleLength, this`currentDay, this`petals, this`dayLabel, this`phaseLabel
      ensures cycleLength == if state.settings.cycleLength != 0 then state.settings.cycleLength else 28
      ensures petals == Ring(cycleLength, old(currentDay), CurrentPhaseOf(state.settings, elapsed))
      ensures currentDay == CycleDayOf(state.settings, elapsed)
      ensures dayLabel == DayLabel(currentDay)
      ensures phaseLabel == PhaseLabel(CurrentPhaseOf(state.settings, elapsed))
    {
      cycleLength := if state.settings.cycleLength != 0 then state.settings.cycleLength else 28;
      RenderPetals(state, elapsed);
      ghost var ring := petals;
      UpdateSunCore(state, elapsed);
      assert petals == ring;
    }

    /** `updatePhase(phase, day)`: highlight with `day`, then update the sun core; `phase` is not used. */
    method UpdatePhase(phase: Phase, day: Num, state: AppState, elapsed: int)
      modifies this`currentDay, this`petals, this`dayLabel, this`phaseLabel
      ensures petals == RestyleAll(old(petals), cycleLength, day, CurrentPhaseOf(state.settings, elapsed))
      ensures currentDay == CycleDayOf(state.settings, elapsed)
      ensures dayLabel == DayLabel(currentDay)
      ensures phaseLabel == PhaseLabel(CurrentPhaseOf(state.settings, elapsed))
    {
      currentDay := day;
      HighlightActiveDay(state, elapsed);
      UpdateSunCore(state, elapsed);
    }
  }
}
