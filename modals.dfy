/**
 * The modal controller (modals.js): showing and hiding the log, history and
 * settings dialogs, building a log entry from the form, the history list and
 * the mood emoji table.
 */
module Modals {
  import opened Js
  import opened Phases
  import opened Store
  import opened Dom

  /** The names under which the controller looks up its dialogs. */
  const ModalNames: set<string> := {"log", "history", "settings"}

  /** An entry of `MOOD_OPTIONS`. */
  datatype MoodOption = MoodOption(emoji: string, text: string)

  /** `MOOD_OPTIONS`, in display order. */
  const MoodOptions: seq<MoodOption> := [
    MoodOption("\U{1F60A}", "Happy"),
    MoodOption("\U{1F60C}", "Calm"),
    MoodOption("\U{1F610}", "Neutral"),
    MoodOption("\U{1F622}", "Sad"),
    MoodOption("\U{1F624}", "Irritated"),
    MoodOption("\U{1F630}", "Anxious"),
    MoodOption("\U{1F60D}", "Loving"),
    MoodOption("\U{1F634}", "Tired")
  ]

  /** The glyph shown for a mood that is not in the table. */
  const FallbackEmoji := "✨"

  /** The mood recorded when none was picked. */
  const DefaultMood := "Neutral"

  /** `options.find(m => m.label === moodLabel)`: the first option with that label. */
  function FindMood(options: seq<MoodOption>, moodLabel: string): (r: Option<nat>)
    ensures r.None? <==> forall i | 0 <= i < |options| :: options[i].text != moodLabel
    ensures r.Some? ==> r.value < |options| && options[r.value].text == moodLabel
    ensures r.Some? ==> forall i | 0 <= i < r.value :: options[i].text != moodLabel
  {
    if options == [] then None
    else if options[0].text == moodLabel then Some(0)
    else match FindMood(options[1..], moodLabel)
      case None => None
      case Some(i) => Some(i + 1)
  }

  /** `getMoodEmoji(moodLabel)`. */
  function MoodEmoji(moodLabel: string): (e: string)
    ensures forall i | 0 <= i < |MoodOptions| && MoodOptions[i].text == moodLabel :: e == MoodOptions[i].emoji
    ensures (forall i | 0 <= i < |MoodOptions| :: MoodOptions[i].text != moodLabel) ==> e == FallbackEmoji
  {
    MoodLabelsDistinct();
    match FindMood(MoodOptions, moodLabel)
    case Some(i) => MoodOptions[i].emoji
    case None => FallbackEmoji
  }

  /** No two moods share a label, and the default mood is one of them. */
  lemma MoodLabelsDistinct()
    ensures forall i, j | 0 <= i < j < |MoodOptions| :: MoodOptions[i].text != MoodOptions[j].text
    ensures exists i :: 0 <= i < |MoodOptions| && MoodOptions[i].text == DefaultMood
  {
    assert MoodOptions[2].text == DefaultMood;
  }

  /** The default mood is shown with its own emoji, not the fallback glyph. */
  lemma DefaultMoodHasEmoji()
    ensures MoodEmoji(DefaultMood) == "\U{1F610}"
  {
    assert MoodOptions[2].text == DefaultMood;
  }

  /** `iso.split('T')[0]`: the text before the first `T`. */
  function DatePart(iso: string): (d: string)
    ensures |d| <= |iso| && d == iso[..|d|]
    ensures 'T' !in d
    ensures |d| < |iso| ==> iso[|d|] == 'T'
  {
    if iso == [] || iso[0] == 'T' then [] else [iso[0]] + DatePart(iso[1..])
  }

  /** The date part of `date + "T" + time` is `date` when `date` holds no `T`. */
  lemma {:induction false} DatePartOfTimestamp(date: string, time: string)
    requires 'T' !in date
    ensures DatePart(date + "T" + time) == date
  {
    if date != [] {
      assert (date + "T" + time)[1..] == date[1..] + "T" + time;
      DatePartOfTimestamp(date[1..], time);
    }
  }

  /**
   * The entry `saveCurrentLog` passes to `addLog`: a falsy flow (none picked)
   * becomes 1 and a falsy mood becomes `'Neutral'`.
   */
  function EntryFor(tempFlow: Option<int>, tempMood: Option<string>, notes: string, date: string, day: Num): (d: LogDraft)
    ensures d.flow == (if tempFlow.Some? && tempFlow.value != 0 then tempFlow.value else 1)
    ensures d.mood == (if tempMood.Some? && tempMood.value != "" then tempMood.value else DefaultMood)
    ensures d.notes == notes && d.date == date && d.day == day
  {
    LogDraft(
      date,
      if tempFlow.Some? && tempFlow.value != 0 then tempFlow.value else 1,
      if tempMood.Some? && tempMood.value != "" then tempMood.value else DefaultMood,
      notes,
      day)
  }

  /**
   * The number `new Date(date)` orders by. For an ISO `YYYY-MM-DD` date it is
   * `YYYYMMDD`, which orders dates chronologically.
   */
  function DateKey(date: string): nat
  {
    if date == [] then 0
    else if IsDigit(date[|date| - 1]) then DateKey(date[..|date| - 1]) * 10 + DigitValue(date[|date| - 1])
    else DateKey(date[..|date| - 1])
  }

  /** A date written `YYYY-MM-DD`. */
  predicate IsoDate(date: string)
  {
    |date| == 10 && date[4] == '-' && date[7] == '-' &&
    AllDigits(date[..4]) && AllDigits(date[5..7]) && AllDigits(date[8..])
  }

  /**
   * The key of an ISO date is `year * 10000 + month * 100 + day`, so a later
   * date (by year, then month, then day) has the larger key.
   */
  lemma DateKeyOfIsoDate(date: string)
    requires IsoDate(date)
    ensures var year, month, day := ParseDigits(date[..4]), ParseDigits(date[5..7]), ParseDigits(date[8..]);
      && month < 100 && day < 100
      && DateKey(date) == year * 10000 + month * 100 + day
  {
    var year, month, day := date[..4], date[5..7], date[8..];
    var y, m, d := ParseDigits(year), ParseDigits(month), ParseDigits(day);
    assert date == year + "-" + month + "-" + day;
    assert Pow10(2) == 100 && Pow10(4) == 10000;
    DateKeyAppendDigits([], year);
    assert [] + year == year;
    assert DateKey(year) == y;
    DateKeyAppendNonDigit(year, '-');
    DateKeyAppendDigits(year + "-", month);
    assert DateKey(year + "-" + month) == y * 100 + m;
    DateKeyAppendNonDigit(year + "-" + month, '-');
    DateKeyAppendDigits(year + "-" + month + "-", day);
    assert DateKey(date) == (y * 100 + m) * 100 + d;
    TwoDigitsBelow100(month);
    TwoDigitsBelow100(day);
  }

  /** Of two ISO dates, the later one (by year, then month, then day) has the larger key. */
  lemma LaterIsoDateHasLargerKey(a: string, b: string)
    requires IsoDate(a) && IsoDate(b)
    ensures var ya, ma, da := ParseDigits(a[..4]), ParseDigits(a[5..7]), ParseDigits(a[8..]);
      var yb, mb, db := ParseDigits(b[..4]), ParseDigits(b[5..7]), ParseDigits(b[8..]);
      (ya < yb || (ya == yb && ma < mb) || (ya == yb && ma == mb && da < db)) ==> DateKey(a) < DateKey(b)
  {
    DateKeyOfIsoDate(a);
    DateKeyOfIsoDate(b);
  }

  /** Two decimal digits read as less than 100. */
  lemma TwoDigitsBelow100(s: string)
    requires |s| == 2 && AllDigits(s)
    ensures ParseDigits(s) < 100
  {
    var first := s[..1];
    assert AllDigits(first) && first[..0] == [] && first[0] == s[0];
    assert ParseDigits(first) == DigitValue(s[0]);
    assert ParseDigits(s) == DigitValue(s[0]) * 10 + DigitValue(s[1]);
  }

  function Pow10(n: nat): nat { if n == 0 then 1 else 10 * Pow10(n - 1) }

  /** Digits appended to a date shift its key left by one decimal place each. */
  lemma {:induction false} DateKeyAppendDigits(s: string, t: string)
    requires AllDigits(t)
    ensures DateKey(s + t) == DateKey(s) * Pow10(|t|) + ParseDigits(t)
  {
    if t == [] {
      assert s + t == s;
    } else {
      var u, c := t[..|t| - 1], t[|t| - 1];
      assert AllDigits(u);
      assert (s + t)[..|s + t| - 1] == s + u;
      DateKeyAppendDigits(s, u);
      assert DateKey(s + t) == DateKey(s + u) * 10 + DigitValue(c);
      assert ParseDigits(t) == ParseDigits(u) * 10 + DigitValue(c);
      ShiftDecimal(DateKey(s), Pow10(|u|), ParseDigits(u), DigitValue(c));
    }
  }

  /** Appending one decimal digit to `k * p + d`. */
  lemma ShiftDecimal(k: int, p: int, d: int, v: int)
    ensures (k * p + d) * 10 + v == k * (p * 10) + (d * 10 + v)
  {
  }

  /** A separator adds nothing to the key. */
  lemma DateKeyAppendNonDigit(s: string, c: char)
    requires !IsDigit(c)
    ensures DateKey(s + [c]) == DateKey(s)
  {
    assert (s + [c])[..|s|] == s;
  }

  ghost predicate NewestFirst(logs: seq<LogEntry>)
  {
    forall i, j | 0 <= i < j < |logs| :: DateKey(logs[i].date) >= DateKey(logs[j].date)
  }

  /** Inserts `e` into a list already newest first, after every entry at least as new. */
  function InsertByDate(e: LogEntry, sorted: seq<LogEntry>): (r: seq<LogEntry>)
    ensures |r| == |sorted| + 1
  {
    if sorted == [] then [e]
    else if DateKey(sorted[0].date) >= DateKey(e.date) then [sorted[0]] + InsertByDate(e, sorted[1..])
    else [e] + sorted
  }

  /** Insertion keeps a newest-first list newest first and adds exactly the entry. */
  lemma {:induction false} InsertByDateSorts(e: LogEntry, sorted: seq<LogEntry>)
    requires NewestFirst(sorted)
    ensures NewestFirst(InsertByDate(e, sorted))
    ensures multiset(InsertByDate(e, sorted)) == multiset(sorted) + multiset{e}
  {
    if sorted == [] {
    } else if DateKey(sorted[0].date) >= DateKey(e.date) {
      TailNewestFirst(sorted);
      InsertByDateSorts(e, sorted[1..]);
      InsertBehindHead(e, sorted);
    } else {
      ConsNewestFirst(e, sorted);
    }
  }

  /** The step where `e` goes behind the head: the head stays in front of the sorted rest. */
  lemma InsertBehindHead(e: LogEntry, sorted: seq<LogEntry>)
    requires sorted != [] && NewestFirst(sorted) && DateKey(sorted[0].date) >= DateKey(e.date)
    requires NewestFirst(InsertByDate(e, sorted[1..]))
    requires multiset(InsertByDate(e, sorted[1..])) == multiset(sorted[1..]) + multiset{e}
    ensures InsertByDate(e, sorted) == [sorted[0]] + InsertByDate(e, sorted[1..])
    ensures NewestFirst(InsertByDate(e, sorted))
    ensures multiset(InsertByDate(e, sorted)) == multiset(sorted) + multiset{e}
  {
    var rest := InsertByDate(e, sorted[1..]);
    assert sorted == [sorted[0]] + sorted[1..];
    HeadStaysNewest(sorted[0], e, sorted[1..], rest);
    ConsNewestFirst(sorted[0], rest);
    assert multiset([sorted[0]] + rest) == multiset{sorted[0]} + multiset(rest);
  }

  lemma TailNewestFirst(s: seq<LogEntry>)
    requires NewestFirst(s) && s != []
    ensures NewestFirst(s[1..])
  {
    forall i, j | 0 <= i < j < |s| - 1
      ensures DateKey(s[1..][i].date) >= DateKey(s[1..][j].date)
    {
      assert s[1..][i] == s[i + 1] && s[1..][j] == s[j + 1];
    }
  }

  lemma ConsNewestFirst(head: LogEntry, rest: seq<LogEntry>)
    requires NewestFirst(rest)
    requires forall k | 0 <= k < |rest| :: DateKey(head.date) >= DateKey(rest[k].date)
    ensures NewestFirst([head] + rest)
  {
    var s := [head] + rest;
    forall i, j | 0 <= i < j < |s|
      ensures DateKey(s[i].date) >= DateKey(s[j].date)
    {
      assert s[j] == rest[j - 1];
      if i > 0 {
        assert s[i] == rest[i - 1];
      }
    }
  }

  lemma HeadStaysNewest(head: LogEntry, e: LogEntry, tail: seq<LogEntry>, rest: seq<LogEntry>)
    requires NewestFirst([head] + tail) && DateKey(head.date) >= DateKey(e.date)
    requires multiset(rest) == multiset(tail) + multiset{e}
    ensures forall k | 0 <= k < |rest| :: DateKey(head.date) >= DateKey(rest[k].date)
  {
    forall k | 0 <= k < |rest| ensures DateKey(head.date) >= DateKey(rest[k].date) {
      assert rest[k] in multiset(rest);
      if rest[k] != e {
        assert rest[k] in multiset(tail);
        var m :| 0 <= m < |tail| && tail[m] == rest[k];
        assert ([head] + tail)[0] == head && ([head] + tail)[m + 1] == tail[m];
      }
    }
  }

  /** `[...logs].sort((a, b) => new Date(b.date) - new Date(a.date))`: a sorted copy, newest first. */
  function NewestFirstCopy(logs: seq<LogEntry>): (r: seq<LogEntry>)
    ensures NewestFirst(r)
    ensures multiset(r) == multiset(logs)
    ensures |r| == |logs|
  {
    if logs == [] then []
    else
      assert logs == [logs[0]] + logs[1..];
      InsertByDateSorts(logs[0], NewestFirstCopy(logs[1..]));
      InsertByDate(logs[0], NewestFirstCopy(logs[1..]))
  }

  /** One card of the history list. */
  datatype HistoryCard = HistoryCard(
    date: string,
    day: Num,
    phaseName: string,
    emoji: string,
    flowWidth: int,
    notes: Option<string>)

  /** What the history dialog's body shows. */
  datatype HistoryView = NotRendered | EmptyHistory | Cards(cards: seq<HistoryCard>)

  /**
   * The card for one log: its phase comes from the logged day and the current
   * cycle length, the flow bar is `flow * 20` percent wide, and notes are shown
   * only when non-empty.
   */
  function CardFor(log: LogEntry, cycleLength: int): (c: HistoryCard)
    ensures c.phaseName == GetPhaseData(Name(PhaseFromNum(log.day, cycleLength))).name
    ensures c.phaseName == Record(PhaseFromNum(log.day, cycleLength)).name
    ensures c.flowWidth == log.flow * 20
    ensures c.emoji == MoodEmoji(log.mood)
    ensures c.notes.Some? <==> log.notes != ""
    ensures c.notes.Some? ==> c.notes.value == log.notes
    ensures c.date == log.date && c.day == log.day
  {
    var phase := PhaseFromNum(log.day, cycleLength);
    HistoryCard(log.date, log.day, GetPhaseData(Name(phase)).name, MoodEmoji(log.mood), log.flow * 20,
      if log.notes != "" then Some(log.notes) else None)
  }

  /** `renderHistoryContent()`: the placeholder when there are no logs, else one card per log, newest first. */
  function RenderHistory(logs: seq<LogEntry>, cycleLength: int): (v: HistoryView)
    ensures v.EmptyHistory? <==> |logs| == 0
    ensures !v.EmptyHistory? ==> v.Cards? && |v.cards| == |logs|
    ensures v.Cards? ==> forall i | 0 <= i < |v.cards| :: v.cards[i] == CardFor(NewestFirstCopy(logs)[i], cycleLength)
    ensures v.Cards? ==> forall i, j | 0 <= i < j < |v.cards| :: DateKey(v.cards[i].date) >= DateKey(v.cards[j].date)
  {
    var sorted := NewestFirstCopy(logs);
    if |sorted| == 0 then EmptyHistory
    else Cards(seq(|sorted|, i requires 0 <= i < |sorted| => CardFor(sorted[i], cycleLength)))
  }

  class ModalController {
    /** The dialogs found on the page, by name, and whether each carries `hidden`. */
    var hidden: map<string, bool>
    /** The rituals scroll, if the page has one. */
    const rituals: Panel?
    /** The flow dot last picked in the log form. */
    var tempFlow: Option<int>
    /** The mood button last picked in the log form. */
    var tempMood: Option<string>
    /** What the history dialog shows. */
    var history: HistoryView

    ghost predicate Valid()
      reads this
    {
      hidden.Keys <= ModalNames
    }

    /** `constructor()`: `present` are the dialog names whose element is on the page. */
    constructor (present: set<string>, rituals: Panel?)
      requires present <= ModalNames
      ensures Valid()
      ensures hidden == map n | n in present :: true
      ensures this.rituals == rituals
      ensures tempFlow == None && tempMood == None && history == NotRendered
    {
      hidden := map n | n in present :: true;
      this.rituals := rituals;
      tempFlow, tempMood := None, None;
      history := NotRendered;
    }

    /** `open(name)`: unhide the named dialog if there is one; the history dialog re-renders its list. */
    method Open(name: string, state: AppState)
      requires Valid()
      modifies this`hidden, this`history
      ensures Valid()
      ensures name in old(hidden) ==> hidden == old(hidden)[name := false]
      ensures name !in old(hidden) ==> hidden == old(hidden) && history == old(history)
      ensures name in old(hidden) && name == "history" ==> history == RenderHistory(state.logs, state.settings.cycleLength)
      ensures name != "history" ==> history == old(history)
    {
      if name in hidden {
        hidden := hidden[name := false];
        if name == "history" {
          history := RenderHistory(state.logs, state.settings.cycleLength);
        }
      }
    }

    /** `closeAll()`: hide every dialog and close the rituals scroll. */
    method CloseAll()
      requires Valid()
      modifies this`hidden, rituals
      ensures Valid()
      ensures hidden.Keys == old(hidden).Keys && forall n | n in hidden :: hidden[n]
      ensures rituals != null ==> !rituals.open
    {
      hidden := map n | n in hidden :: true;
      if rituals != null {
        rituals.open := false;
      }
    }

    /** A click on flow dot `v` in the log form. */
    method PickFlow(v: int)
      modifies this`tempFlow
      ensures tempFlow == Some(v)
    {
      tempFlow := Some(v);
    }

    /** A click on the mood button labelled `moodLabel` in the log form. */
    method PickMood(moodLabel: string)
      modifies this`tempMood
      ensures tempMood == Some(moodLabel)
    {
      tempMood := Some(moodLabel);
    }

    /**
     * `saveCurrentLog()`: build the entry, dated by the date part of the ISO
     * timestamp `nowIso` and stamped with the current cycle day, and add it.
     * Only when `addLog` succeeds are the dialogs closed and the picks reset.
     */
    method SaveCurrentLog(store: CycleStore, notes: string, nowIso: string, now: int, elapsed: int, fault: LogFault)
      returns (ok: bool)
      requires Valid() && store.Valid()
      modifies this`hidden, this`tempFlow, this`tempMood, rituals, store
      ensures Valid() && store.Valid()
      ensures ok == fault.NoFault?
      ensures var entry := EntryFor(old(tempFlow), old(tempMood), notes, DatePart(nowIso), CycleDayOf(old(store.state.settings), elapsed));
        !fault.PutFails? ==> store.logsTable == old(store.logsTable)[entry.date := Stamp(entry, now)]
      ensures fault.PutFails? ==> store.logsTable == old(store.logsTable)
      ensures store.listeners == old(store.listeners) && store.events == old(store.events)
      ensures store.settingsTable == old(store.settingsTable) && store.metaTable == old(store.metaTable)
      ensures ok ==> store.state == old(store.state).(logs := store.state.logs) && Tabulates(store.state.logs, store.logsTable)
      ensures ok ==> store.notifications == old(store.notifications) + Broadcast(store.listeners, store.state)
      ensures !ok ==> store.state == old(store.state) && store.notifications == old(store.notifications)
      ensures ok ==> tempFlow == None && tempMood == None && hidden.Keys == old(hidden).Keys && forall n | n in hidden :: hidden[n]
      ensures ok && rituals != null ==> !rituals.open
      ensures !ok ==> tempFlow == old(tempFlow) && tempMood == old(tempMood) && hidden == old(hidden)
      ensures !ok && rituals != null ==> rituals.open == old(rituals.open)
    {
      var date := DatePart(nowIso);
      var entry := EntryFor(tempFlow, tempMood, notes, date, CycleDayOf(store.state.settings, elapsed));
      ok := store.AddLog(entry, now, fault);
      if !ok {
        return;
      }
      CloseAll();
      tempFlow := None;
      tempMood := None;
    }
  }
}
