/**
 * The parchment scroll tabs (scroll-system.js): opening and closing tabs so
 * that at most one is open, and choosing what an opened tab shows.
 */
module Scrolls {
  import opened Js
  import opened Phases
  import opened Store
  import opened Dom

  /** What a content container is filled with. */
  datatype Content = Nourishment(phase: Phase) | Asanas(phase: Phase)

  /**
   * The day whose content is shown: `state.selectedDay || state.getCycleDay()`,
   * so a selected day of 0 (falsy) falls back to the cycle day as well.
   */
  function ScrollDay(state: AppState, elapsed: int): (d: Num)
    ensures state.selectedDay.Some? && state.selectedDay.value != 0 ==> d == Int(state.selectedDay.value)
    ensures state.selectedDay.None? || state.selectedDay.value == 0 ==> d == CycleDayOf(state.settings, elapsed)
  {
    if state.selectedDay.Some? && state.selectedDay.value != 0 then Int(state.selectedDay.value)
    else CycleDayOf(state.settings, elapsed)
  }

  /**
   * The phase `loadScrollContent` shows: that of the shown day under the
   * store's cycle length. Without a selection it is the store's current phase.
   */
  function ScrollPhase(state: AppState, elapsed: int): (p: Phase)
    ensures state.selectedDay.None? || state.selectedDay.value == 0 ==> p == CurrentPhaseOf(state.settings, elapsed)
    ensures state.selectedDay.Some? && state.selectedDay.value != 0 ==>
      p == PhaseFromDay(state.selectedDay.value, state.settings.cycleLength)
  {
    PhaseFromNum(ScrollDay(state, elapsed), state.settings.cycleLength)
  }

  /** Only the `nourishment` and `asanas` scrolls render content, from the record of the given phase. */
  function ContentFor(scrollType: string, p: Phase): (c: Option<Content>)
    ensures c.Some? <==> scrollType in {"nourishment", "asanas"}
    ensures scrollType == "nourishment" ==> c == Some(Nourishment(p))
    ensures scrollType == "asanas" ==> c == Some(Asanas(p))
  {
    if scrollType == "nourishment" then Some(Nourishment(p))
    else if scrollType == "asanas" then Some(Asanas(p))
    else None
  }

  ghost predicate AtMostOneOpen(open: seq<bool>)
  {
    forall i, j | 0 <= i < |open| && 0 <= j < |open| && open[i] && open[j] :: i == j
  }

  /** The index of the first open tab in document order: `document.querySelector('.scroll-tab.open')`. */
  function FirstOpen(open: seq<bool>): (r: Option<nat>)
    ensures r.None? <==> forall i | 0 <= i < |open| :: !open[i]
    ensures r.Some? ==> r.value < |open| && open[r.value] && forall i | 0 <= i < r.value :: !open[i]
  {
    if open == [] then None
    else if open[0] then Some(0)
    else match FirstOpen(open[1..])
      case None => None
      case Some(i) => Some(i + 1)
  }

  class ParchmentScrolls {
    /** The `data-scroll` attribute of each `.scroll-tab`, in document order. */
    const types: seq<string>
    /** Whether each tab carries the `open` class. */
    var open: seq<bool>
    /** The rituals scroll, if the page has one. */
    const rituals: Panel?
    /** Whether the body carries `scroll-mode-active`. */
    var scrollModeActive: bool
    /** The scroll types whose `${type}-content` container exists. */
    const containers: set<string>
    /** What each content container was last filled with. */
    var rendered: map<string, Content>

    ghost predicate Valid()
      reads this
    {
      |open| == |types|
    }

    constructor (types: seq<string>, containers: set<string>, rituals: Panel?)
      ensures Valid()
      ensures this.types == types && this.containers == containers && this.rituals == rituals
      ensures forall i | 0 <= i < |open| :: !open[i]
      ensures !scrollModeActive && rendered == map[]
    {
      this.types := types;
      this.containers := containers;
      this.rituals := rituals;
      open := seq(|types|, _ => false);
      scrollModeActive := false;
      rendered := map[];
    }

    /** `closeAll()`: close every open tab and the rituals scroll, and leave scroll mode. */
    method CloseAll()
      requires Valid()
      modifies this`open, this`scrollModeActive, rituals
      ensures Valid()
      ensures forall i | 0 <= i < |open| :: !open[i]
      ensures rituals != null ==> !rituals.open
      ensures !scrollModeActive
    {
      var i := 0;
      while i < |open|
        invariant 0 <= i <= |open| == |types|
        invariant forall k | 0 <= k < i :: !open[k]
      {
        if open[i] {
          open := open[i := false];
        }
        i := i + 1;
      }
      if rituals != null && rituals.open {
        rituals.open := false;
      }
      scrollModeActive := false;
    }

    /** `loadScrollContent(type)`: fill the type's container for the phase of the shown day. */
    method LoadScrollContent(scrollType: string, state: AppState, elapsed: int)
      modifies this`rendered
      ensures var c := ContentFor(scrollType, ScrollPhase(state, elapsed));
        rendered == if scrollType in containers && c.Some? then old(rendered)[scrollType := c.value] else old(rendered)
    {
      var phase := ScrollPhase(state, elapsed);
      if scrollType !in containers {
        return;
      }
      var c := ContentFor(scrollType, phase);
      if c.Some? {
        rendered := rendered[scrollType := c.value];
      }
    }

    /**
     * `toggleScroll(tab)`: whether the tab was open is read first, then every
     * tab is closed; a tab that was closed is then opened and its content loaded.
     */
    method ToggleScroll(t: nat, state: AppState, elapsed: int)
      requires Valid() && t < |types|
      modifies this, rituals
      ensures Valid()
      ensures old(open[t]) ==> forall i | 0 <= i < |open| :: !open[i]
      ensures !old(open[t]) ==> open[t] && forall i | 0 <= i < |open| && i != t :: !open[i]
      ensures AtMostOneOpen(open)
      ensures scrollModeActive == !old(open[t])
      ensures rituals != null ==> !rituals.open
      ensures var c := ContentFor(types[t], ScrollPhase(state, elapsed));
        rendered == if !old(open[t]) && types[t] in containers && c.Some? then old(rendered)[types[t] := c.value] else old(rendered)
    {
      var isOpen := open[t];
      CloseAll();
      if !isOpen {
        open := open[t := true];
        scrollModeActive := true;
        LoadScrollContent(types[t], state, elapsed);
      }
    }

    /** `updateContent(day)`: reload the first open tab's content, if any; `day` is not used. */
    method UpdateContent(day: Num, state: AppState, elapsed: int)
      requires Valid()
      modifies this`rendered
      ensures var f := FirstOpen(open);
        f.None? ==> rendered == old(rendered)
      ensures var f := FirstOpen(open);
        f.Some? ==> var ty := types[f.value]; var c := ContentFor(ty, ScrollPhase(state, elapsed));
          rendered == if ty in containers && c.Some? then old(rendered)[ty := c.value] else old(rendered)
    {
      var f := FirstOpen(open);
      if f.Some? {
        LoadScrollContent(types[f.value], state, elapsed);
      }
    }

    /** The document click handler: a click outside every tab, modal and nav bar closes all scrolls. */
    method OnDocumentClick(inTab: bool, inModal: bool, inNav: bool)
      requires Valid()
      modifies this`open, this`scrollModeActive, rituals
      ensures Valid()
      ensures !inTab && !inModal && !inNav ==> (forall i | 0 <= i < |open| :: !open[i]) && !scrollModeActive
      ensures inTab || inModal || inNav ==> open == old(open) && scrollModeActive == old(scrollModeActive)
      ensures !inTab && !inModal && !inNav && rituals != null ==> !rituals.open
      ensures (inTab || inModal || inNav) && rituals != null ==> rituals.open == old(rituals.open)
      ensures AtMostOneOpen(old(open)) ==> AtMostOneOpen(open)
    {
      if !inTab && !inModal && !inNav {
        CloseAll();
      }
    }
  }
}
