/**
 * The cycle store (store.js): the fallback observable store with its shallow
 * `setState` merge and listener set, the settings / logs / meta tables of the
 * local database (modelled as maps keyed by their primary keys), and the store
 * operations built on them.
 */
module Store {
  import opened Js
  import opened Phases

  /** The key of the single settings row. */
  const SettingsKey := "user_settings"
  /** The key of the meta row holding the onboarding flag. */
  const InitializedKey := "initialized"
  /** The `version` tag of an export. */
  const ExportVersion := "2.0"

  /** The settings record. `lastPeriodStart` is `None` when the field is undefined. */
  datatype Settings = Settings(id: string, cycleLength: int, periodLength: int, lastPeriodStart: Option<string>)

  /** `DEFAULT_SETTINGS`; its `lastPeriodStart` is the ISO date of the day the script was loaded. */
  function DefaultSettings(today: string): (s: Settings)
    ensures s.id == SettingsKey && s.cycleLength == 28 && s.periodLength == 5
    ensures s.lastPeriodStart == Some(today)
  {
    Settings(SettingsKey, 28, 5, Some(today))
  }

  /** The fields of a partial settings object passed to `updateSettings`; `None` means the key is absent. */
  datatype SettingsPatch = SettingsPatch(
    id: Option<string>,
    cycleLength: Option<int>,
    periodLength: Option<int>,
    lastPeriodStart: Option<Option<string>>)

  /** `{ ...settings, ...patch }`. */
  function MergeSettings(s: Settings, patch: SettingsPatch): (r: Settings)
    ensures r.id == (if patch.id.Some? then patch.id.value else s.id)
    ensures r.cycleLength == (if patch.cycleLength.Some? then patch.cycleLength.value else s.cycleLength)
    ensures r.periodLength == (if patch.periodLength.Some? then patch.periodLength.value else s.periodLength)
    ensures r.lastPeriodStart == (if patch.lastPeriodStart.Some? then patch.lastPeriodStart.value else s.lastPeriodStart)
  {
    Settings(
      if patch.id.Some? then patch.id.value else s.id,
      if patch.cycleLength.Some? then patch.cycleLength.value else s.cycleLength,
      if patch.periodLength.Some? then patch.periodLength.value else s.periodLength,
      if patch.lastPeriodStart.Some? then patch.lastPeriodStart.value else s.lastPeriodStart)
  }

  /** A log entry as a caller passes it to `addLog`. */
  datatype LogDraft = LogDraft(date: string, flow: int, mood: string, notes: string, day: Num)

  /** A log entry as stored: the draft plus the creation timestamp. */
  datatype LogEntry = LogEntry(date: string, flow: int, mood: string, notes: string, day: Num, timestamp: int)

  /** `{ ...log, timestamp: now }`. */
  function Stamp(d: LogDraft, now: int): (e: LogEntry)
    ensures e.date == d.date && e.flow == d.flow && e.mood == d.mood && e.notes == d.notes && e.day == d.day
    ensures e.timestamp == now
  {
    LogEntry(d.date, d.flow, d.mood, d.notes, d.day, now)
  }

  /** A row of the meta table. */
  datatype MetaRow = MetaRow(key: string, value: bool)

  /** The data part of the store's state; the operations stored beside it are the methods of `CycleStore`. */
  datatype AppState = AppState(settings: Settings, logs: seq<LogEntry>, initialized: bool, selectedDay: Option<int>)

  /** The keys of a partial state passed to `setState`; `None` means the key is absent. */
  datatype StatePatch = StatePatch(
    settings: Option<Settings>,
    logs: Option<seq<LogEntry>>,
    initialized: Option<bool>,
    selectedDay: Option<Option<int>>)

  /** `setState` accepts a partial state or a function from the current state to one. */
  datatype Update = Partial(patch: StatePatch) | Updater(f: AppState -> StatePatch)

  function Resolve(u: Update, s: AppState): StatePatch
  {
    match u
    case Partial(p) => p
    case Updater(f) => f(s)
  }

  /** `{ ...state, ...patch }`: the keys present in the patch are replaced, all others kept. */
  function Merge(s: AppState, p: StatePatch): (r: AppState)
    ensures p.settings.Some? ==> r.settings == p.settings.value
    ensures p.settings.None? ==> r.settings == s.settings
    ensures p.logs.Some? ==> r.logs == p.logs.value
    ensures p.logs.None? ==> r.logs == s.logs
    ensures p.initialized.Some? ==> r.initialized == p.initialized.value
    ensures p.initialized.None? ==> r.initialized == s.initialized
    ensures p.selectedDay.Some? ==> r.selectedDay == p.selectedDay.value
    ensures p.selectedDay.None? ==> r.selectedDay == s.selectedDay
  {
    AppState(
      if p.settings.Some? then p.settings.value else s.settings,
      if p.logs.Some? then p.logs.value else s.logs,
      if p.initialized.Some? then p.initialized.value else s.initialized,
      if p.selectedDay.Some? then p.selectedDay.value else s.selectedDay)
  }

  /** Merging the same patch twice is the same as merging it once. */
  lemma MergeIdempotent(s: AppState, p: StatePatch)
    ensures Merge(Merge(s, p), p) == Merge(s, p)
  {
  }

  const EmptyPatch := StatePatch(None, None, None, None)

  /** Merging an empty patch leaves the state as it was. */
  lemma MergeEmptyIsIdentity(s: AppState)
    ensures Merge(s, EmptyPatch) == s
  {
  }

  /** A listener is identified by the function object registered. */
  type ListenerId = nat

  /** One call `listener(state)` made by `setState`. */
  datatype Notification = Notification(listener: ListenerId, state: AppState)

  /** The calls `setState` makes for one update: every listener, in registration order, with the new state. */
  function Broadcast(listeners: seq<ListenerId>, s: AppState): (r: seq<Notification>)
    ensures |r| == |listeners|
    ensures forall i | 0 <= i < |r| :: r[i] == Notification(listeners[i], s)
  {
    seq(|listeners|, i requires 0 <= i < |listeners| => Notification(listeners[i], s))
  }

  /** The handle `subscribe` returns; calling it deletes the listener. */
  datatype Unsubscriber = Unsubscriber(listener: ListenerId)

  /** The window events the store dispatches. */
  datatype StoreEvent = Ready | Updated

  /** Where a database operation of `addLog` throws, if it does. */
  datatype LogFault = NoFault | PutFails | ReadBackFails

  /** The value `exportData` serialises: exactly `settings`, `logs` and `version`. */
  datatype Snapshot = Snapshot(settings: Option<Settings>, logs: seq<LogEntry>, version: string)

  datatype ExportResult = Exported(snapshot: Snapshot) | ExportFailed

  ghost predicate NoDuplicates(s: seq<ListenerId>)
  {
    forall i, j | 0 <= i < j < |s| :: s[i] != s[j]
  }

  /** `s.filter(x => x != l)`. */
  function Without(s: seq<ListenerId>, l: ListenerId): (r: seq<ListenerId>)
    ensures l !in r
    ensures l !in s ==> r == s
    ensures |r| <= |s|
  {
    if s == [] then []
    else
      var rest := Without(s[1..], l);
      if s[0] == l then rest else [s[0]] + rest
  }

  /** Exactly the other listeners remain, and a list without duplicates stays without. */
  lemma {:induction false} WithoutMembers(s: seq<ListenerId>, l: ListenerId)
    ensures forall x :: x in Without(s, l) <==> x in s && x != l
    ensures NoDuplicates(s) ==> NoDuplicates(Without(s, l))
  {
    if s != [] {
      var t := s[1..];
      WithoutMembers(t, l);
      assert s == [s[0]] + t;
      var rest := Without(t, l);
      if NoDuplicates(s) && s[0] != l {
        assert NoDuplicates(t) by {
          forall i, j | 0 <= i < j < |t| ensures t[i] != t[j] {
            assert t[i] == s[i + 1] && t[j] == s[j + 1];
          }
        }
        assert s[0] !in rest by {
          forall i | 0 <= i < |t| ensures t[i] != s[0] {
            assert t[i] == s[i + 1];
          }
        }
        var r := [s[0]] + rest;
        forall i, j | 0 <= i < j < |r| ensures r[i] != r[j] {
          assert r[j] == rest[j - 1];
          if i > 0 {
            assert r[i] == rest[i - 1];
          }
        }
      } else if NoDuplicates(s) {
        assert NoDuplicates(t) by {
          forall i, j | 0 <= i < j < |t| ensures t[i] != t[j] {
            assert t[i] == s[i + 1] && t[j] == s[j + 1];
          }
        }
      }
    }
  }

  /** Removing a listener keeps the others in their insertion order: the list closes up around its slot. */
  lemma WithoutKeepsOrder(s: seq<ListenerId>, l: ListenerId, k: nat)
    requires NoDuplicates(s) && k < |s| && s[k] == l
    ensures Without(s, l) == s[..k] + s[k + 1..]
  {
    SplitAround(s, k);
    WithoutOnlyAt(s, l, k);
  }

  /** Removing a value that occurs only at `k` closes the list up around `k`. */
  lemma WithoutOnlyAt(s: seq<ListenerId>, l: ListenerId, k: nat)
    requires k < |s| && s[k] == l && l !in s[..k] && l !in s[k + 1..]
    ensures Without(s, l) == s[..k] + s[k + 1..]
  {
    var before, after := s[..k], s[k + 1..];
    assert s == before + [l] + after;
    WithoutAppend(before + [l], after, l);
    WithoutAppend(before, [l], l);
    assert Without([l], l) == [] by {
      assert [l][1..] == [];
    }
    assert before + [] == before;
  }

  /** Without duplicates, the entry at `k` occurs neither before nor after its slot. */
  lemma SplitAround(s: seq<ListenerId>, k: nat)
    requires NoDuplicates(s) && k < |s|
    ensures s == s[..k] + [s[k]] + s[k + 1..]
    ensures s[k] !in s[..k] && s[k] !in s[k + 1..]
  {
    var before, after := s[..k], s[k + 1..];
    forall i | 0 <= i < |before| ensures before[i] != s[k] {
      assert before[i] == s[i];
    }
    forall i | 0 <= i < |after| ensures after[i] != s[k] {
      assert after[i] == s[k + 1 + i];
    }
  }

  /** Filtering a concatenation filters each part. */
  lemma {:induction false} WithoutAppend(a: seq<ListenerId>, b: seq<ListenerId>, l: ListenerId)
    ensures Without(a + b, l) == Without(a, l) + Without(b, l)
  {
    if a == [] {
      assert a + b == b;
    } else {
      var t := a[1..];
      assert a + b == [a[0]] + (t + b);
      assert (a + b)[1..] == t + b;
      WithoutAppend(t, b, l);
      if a[0] != l {
        AppendAssociates([a[0]], Without(t, l), Without(b, l));
      }
    }
  }

  lemma AppendAssociates(x: seq<ListenerId>, y: seq<ListenerId>, z: seq<ListenerId>)
    ensures (x + y) + z == x + (y + z)
  {
  }

  /**
   * The rows listed by `toArray()` of a table keyed by date: each row once, each
   * under its own key. The order of the rows is not modelled.
   */
  ghost predicate Tabulates(rows: seq<LogEntry>, table: map<string, LogEntry>)
  {
    && |rows| == |table|
    && (forall i | 0 <= i < |rows| :: rows[i].date in table && table[rows[i].date] == rows[i])
    && (forall k | k in table :: exists i :: 0 <= i < |rows| && rows[i].date == k)
    && (forall i, j | 0 <= i < j < |rows| :: rows[i].date != rows[j].date)
  }

  ghost predicate KeyedByDate(table: map<string, LogEntry>)
  {
    forall k | k in table :: table[k].date == k
  }

  /** `getCycleDay` is falsy-guarded: an undefined or empty `lastPeriodStart` gives day 1. */
  predicate HasPeriodStart(s: Settings)
  {
    s.lastPeriodStart.Some? && s.lastPeriodStart.value != ""
  }

  /**
   * `getCycleDay()` given the whole days elapsed since `lastPeriodStart`:
   * `(diffDays % cycleLength) + 1` with JavaScript's truncating remainder, so a
   * zero cycle length gives NaN and a negative elapsed count a day of at most 1.
   */
  function CycleDayOf(s: Settings, elapsed: int): (r: Num)
    ensures !HasPeriodStart(s) ==> r == Int(1)
    ensures HasPeriodStart(s) ==> (r.NaN? <==> s.cycleLength == 0)
    ensures HasPeriodStart(s) && s.cycleLength > 0 && elapsed >= 0 ==> r.Int? && 1 <= r.n <= s.cycleLength
    ensures HasPeriodStart(s) && s.cycleLength > 0 && elapsed < 0 ==> r.Int? && 2 - s.cycleLength <= r.n <= 1
    ensures HasPeriodStart(s) && s.cycleLength != 0 && elapsed == 0 ==> r == Int(1)
  {
    if !HasPeriodStart(s) then Int(1)
    else AddInt(Rem(Int(elapsed), Int(s.cycleLength)), 1)
  }

  /**
   * Which day `getCycleDay` returns: one more than a number congruent to the
   * elapsed days modulo the cycle length. With the ranges of `CycleDayOf`
   * this fixes the day.
   */
  lemma CycleDayCongruent(s: Settings, elapsed: int)
    requires HasPeriodStart(s) && s.cycleLength != 0
    ensures CycleDayOf(s, elapsed).Int?
    ensures (elapsed - (CycleDayOf(s, elapsed).n - 1)) % s.cycleLength == 0
  {
    TruncDivision(elapsed, s.cycleLength);
    MultipleRem(TruncQuot(elapsed, s.cycleLength), s.cycleLength);
  }

  /** A multiple of `b` leaves no remainder on division by `b`. */
  lemma MultipleRem(q: int, b: int)
    requires b != 0
    ensures (q * b) % b == 0
  {
    var k := q * b / b;
    assert q * b == k * b + (q * b) % b;
    assert (q - k) * b == (q * b) % b;
    if q - k != 0 {
      assert Abs((q - k) * b) >= Abs(b) by { AbsProduct(q - k, b); }
    }
  }

  lemma AbsProduct(x: int, b: int)
    requires x != 0 && b != 0
    ensures Abs(x * b) >= Abs(b)
  {
    if x > 0 && b > 0 {
      assert x * b >= b;
    } else if x > 0 {
      assert x * b <= b;
    } else if b > 0 {
      assert x * b <= -b;
    } else {
      assert x * b >= -b;
    }
  }

  /**
   * A `lastPeriodStart` in the future gives a cycle day outside 1..cycleLength:
   * one day early in a 28-day cycle is day 0, not day 28, although 27 days
   * after the start is day 28. So adding a cycle length does not keep the day
   * when the elapsed count crosses zero.
   */
  lemma FutureStartLeavesRange(s: Settings)
    requires HasPeriodStart(s) && s.cycleLength == 28
    ensures CycleDayOf(s, -1) == Int(0)
    ensures CycleDayOf(s, -27) == Int(-26)
    ensures CycleDayOf(s, -28) == Int(1)
    ensures CycleDayOf(s, 27) == Int(28)
  {
    assert TruncRem(-1, 28) == -1 && TruncRem(-27, 28) == -27 && TruncRem(27, 28) == 27;
    assert TruncRem(-28, 28) == 0 by {
      assert NatRem(28, 28) == NatRem(0, 28) == 0;
    }
  }

  /** `getCurrentPhase()`: the phase of the current cycle day under the current cycle length, computed afresh. */
  function CurrentPhaseOf(s: Settings, elapsed: int): (r: Phase)
    ensures r == PhaseFromNum(CycleDayOf(s, elapsed), s.cycleLength)
    ensures !HasPeriodStart(s) ==> r == Menstrual
  {
    PhaseFromNum(CycleDayOf(s, elapsed), s.cycleLength)
  }

  /** Moving from a 28- to a 35-day cycle moves day 21 from luteal to ovulatory. */
  lemma CycleLengthChangeMovesPhase(s: Settings)
    requires HasPeriodStart(s) && s.cycleLength == 28
    ensures CurrentPhaseOf(s, 20) == Luteal
    ensures CurrentPhaseOf(MergeSettings(s, SettingsPatch(None, Some(35), None, None)), 20) == Ovulatory
  {
  }

  /** Upserting under a key already present keeps the table's size; a new key adds one row. */
  lemma UpsertSize(table: map<string, LogEntry>, k: string, e: LogEntry)
    ensures k in table ==> |table[k := e]| == |table|
    ensures k !in table ==> |table[k := e]| == |table| + 1
  {
    if k in table {
      assert table[k := e].Keys == table.Keys;
    } else {
      assert table[k := e].Keys == table.Keys + {k};
    }
  }

  class CycleStore {
    /** The closed-over `state`. */
    var state: AppState
    /** The listener `Set`, in insertion order (the order `forEach` visits). */
    var listeners: seq<ListenerId>
    /** Every listener call made so far, in order. */
    var notifications: seq<Notification>
    /** Every window event dispatched so far, in order. */
    var events: seq<StoreEvent>
    /** The `settings` table, keyed by `id`. */
    var settingsTable: map<string, Settings>
    /** The `logs` table, keyed by `date`. */
    var logsTable: map<string, LogEntry>
    /** The `meta` table, keyed by `key`. */
    var metaTable: map<string, MetaRow>
    /** `DEFAULT_SETTINGS`, fixed when the script is loaded. */
    const defaults: Settings

    ghost predicate Valid()
      reads this
    {
      NoDuplicates(listeners) && KeyedByDate(logsTable)
    }

    /**
     * `createStore(...)` over a database whose tables already hold
     * `settingsRows`, `logRows` and `metaRows`; `today` is the load-time date.
     */
    constructor (today: string, settingsRows: map<string, Settings>, logRows: map<string, LogEntry>, metaRows: map<string, MetaRow>)
      requires KeyedByDate(logRows)
      ensures Valid()
      ensures defaults == DefaultSettings(today)
      ensures state == AppState(DefaultSettings(today), [], false, None)
      ensures listeners == [] && notifications == [] && events == []
      ensures settingsTable == settingsRows && logsTable == logRows && metaTable == metaRows
    {
      defaults := DefaultSettings(today);
      state := AppState(DefaultSettings(today), [], false, None);
      listeners, notifications, events := [], [], [];
      settingsTable, logsTable, metaTable := settingsRows, logRows, metaRows;
    }

    /** `setState(partial)`: shallow merge, then call every listener with the new state. */
    method SetState(u: Update)
      modifies this
      ensures state == Merge(old(state), Resolve(u, old(state)))
      ensures notifications == old(notifications) + Broadcast(listeners, state)
      ensures listeners == old(listeners) && events == old(events)
      ensures settingsTable == old(settingsTable) && logsTable == old(logsTable) && metaTable == old(metaTable)
    {
      state := Merge(state, Resolve(u, state));
      var i := 0;
      while i < |listeners|
        invariant 0 <= i <= |listeners|
        invariant state == Merge(old(state), Resolve(u, old(state)))
        invariant listeners == old(listeners) && events == old(events)
        invariant settingsTable == old(settingsTable) && logsTable == old(logsTable) && metaTable == old(metaTable)
        invariant notifications == old(notifications) + Broadcast(listeners[..i], state)
      {
        notifications := notifications + [Notification(listeners[i], state)];
        i := i + 1;
        assert Broadcast(listeners[..i], state) == Broadcast(listeners[..i - 1], state) + [Notification(listeners[i - 1], state)];
      }
      assert listeners[..i] == listeners;
    }

    /** `getState()`. */
    method GetState() returns (s: AppState)
      ensures s == state
    {
      s := state;
    }

    /** `subscribe(listener)`: adds the listener to the set (once) and returns its unsubscribe handle. */
    method Subscribe(l: ListenerId) returns (h: Unsubscriber)
      requires Valid()
      modifies this`listeners
      ensures Valid()
      ensures h == Unsubscriber(l)
      ensures listeners == if l in old(listeners) then old(listeners) else old(listeners) + [l]
    {
      if l !in listeners {
        listeners := listeners + [l];
      }
      h := Unsubscriber(l);
    }

    /** Calling the handle: `listeners.delete(listener)`, which says whether the listener was present. */
    method Unsubscribe(h: Unsubscriber) returns (deleted: bool)
      requires Valid()
      modifies this`listeners
      ensures Valid()
      ensures deleted == (h.listener in old(listeners))
      ensures listeners == Without(old(listeners), h.listener)
    {
      deleted := h.listener in listeners;
      WithoutMembers(listeners, h.listener);
      listeners := Without(listeners, h.listener);
    }

    /** `db.logs.toArray()`. */
    method LogRows() returns (rows: seq<LogEntry>)
      requires Valid()
      ensures Tabulates(rows, logsTable)
    {
      rows := [];
      var rest := logsTable.Keys;
      while rest != {}
        invariant rest <= logsTable.Keys
        invariant |rows| + |rest| == |logsTable|
        invariant forall i | 0 <= i < |rows| :: rows[i].date in logsTable && rows[i].date !in rest && logsTable[rows[i].date] == rows[i]
        invariant forall k | k in logsTable && k !in rest :: exists i :: 0 <= i < |rows| && rows[i].date == k
        invariant forall i, j | 0 <= i < j < |rows| :: rows[i].date != rows[j].date
        decreases |rest|
      {
        var k :| k in rest;
        ghost var before := rows;
        rows := rows + [logsTable[k]];
        assert rows[|rows| - 1].date == k;
        forall k' | k' in logsTable && k' !in rest - {k}
          ensures exists i :: 0 <= i < |rows| && rows[i].date == k'
        {
          if k' == k {
            assert rows[|rows| - 1].date == k';
          } else {
            var i :| 0 <= i < |before| && before[i].date == k';
            assert rows[i].date == k';
          }
        }
        rest := rest - {k};
      }
    }

    /**
     * `init()`: load settings, the onboarding flag and the logs from the
     * database; on any failure fall back to the defaults. `store:ready` is
     * dispatched on both paths.
     */
    method Init(readFails: bool)
      requires Valid()
      modifies this
      ensures Valid()
      ensures listeners == old(listeners)
      ensures settingsTable == old(settingsTable) && logsTable == old(logsTable) && metaTable == old(metaTable)
      ensures state.selectedDay == old(state).selectedDay
      ensures readFails ==> state.settings == defaults && !state.initialized && state.logs == []
      ensures !readFails ==> state.settings == (if SettingsKey in settingsTable then settingsTable[SettingsKey] else defaults)
      ensures !readFails ==> state.initialized == (InitializedKey in metaTable && metaTable[InitializedKey].value)
      ensures !readFails ==> Tabulates(state.logs, logsTable)
      ensures notifications == old(notifications) + Broadcast(listeners, state)
      ensures events == old(events) + [Ready]
    {
      if !readFails {
        var settings := if SettingsKey in settingsTable then settingsTable[SettingsKey] else defaults;
        var initialized := InitializedKey in metaTable && metaTable[InitializedKey].value;
        var logs := LogRows();
        SetState(Partial(StatePatch(Some(settings), Some(logs), Some(initialized), None)));
      } else {
        SetState(Partial(StatePatch(Some(defaults), Some([]), Some(false), None)));
      }
      events := events + [Ready];
    }

    /**
     * `updateSettings(newSettings)`: merge without validation, write the row,
     * then set the state and dispatch `store:updated`. A failed write changes nothing.
     */
    method UpdateSettings(patch: SettingsPatch, writeFails: bool) returns (ok: bool)
      requires Valid()
      modifies this
      ensures Valid()
      ensures ok == !writeFails
      ensures listeners == old(listeners) && logsTable == old(logsTable) && metaTable == old(metaTable)
      ensures !ok ==> state == old(state) && settingsTable == old(settingsTable)
      ensures !ok ==> notifications == old(notifications) && events == old(events)
      ensures ok ==> state == old(state).(settings := MergeSettings(old(state).settings, patch))
      ensures ok ==> settingsTable == old(settingsTable)[state.settings.id := state.settings]
      ensures ok ==> notifications == old(notifications) + Broadcast(listeners, state)
      ensures ok ==> events == old(events) + [Updated]
    {
      var settings := MergeSettings(state.settings, patch);
      if writeFails {
        return false;
      }
      settingsTable := settingsTable[settings.id := settings];
      SetState(Partial(StatePatch(Some(settings), None, None, None)));
      events := events + [Updated];
      ok := true;
    }

    /** `setInitialized(val)`: write the meta row, then set the flag; no `store:updated`. */
    method SetInitialized(val: bool, writeFails: bool) returns (ok: bool)
      requires Valid()
      modifies this
      ensures Valid()
      ensures ok == !writeFails
      ensures listeners == old(listeners) && events == old(events)
      ensures settingsTable == old(settingsTable) && logsTable == old(logsTable)
      ensures !ok ==> state == old(state) && metaTable == old(metaTable) && notifications == old(notifications)
      ensures ok ==> state == old(state).(initialized := val)
      ensures ok ==> metaTable == old(metaTable)[InitializedKey := MetaRow(InitializedKey, val)]
      ensures ok ==> notifications == old(notifications) + Broadcast(listeners, state)
    {
      if writeFails {
        return false;
      }
      metaTable := metaTable[InitializedKey := MetaRow(InitializedKey, val)];
      SetState(Partial(StatePatch(None, None, Some(val), None)));
      ok := true;
    }

    /**
     * `addLog(log)`: stamp the entry, upsert it under its date, read the whole
     * table back and set `logs` to it. The put and the read-back can each throw;
     * a throw stops the operation where it happens.
     */
    method AddLog(draft: LogDraft, now: int, fault: LogFault) returns (ok: bool)
      requires Valid()
      modifies this
      ensures Valid()
      ensures ok == fault.NoFault?
      ensures listeners == old(listeners) && events == old(events)
      ensures settingsTable == old(settingsTable) && metaTable == old(metaTable)
      ensures fault.PutFails? ==> logsTable == old(logsTable)
      ensures !fault.PutFails? ==> logsTable == old(logsTable)[draft.date := Stamp(draft, now)]
      ensures !ok ==> state == old(state) && notifications == old(notifications)
      ensures ok ==> state == old(state).(logs := state.logs) && Tabulates(state.logs, logsTable)
      ensures ok ==> notifications == old(notifications) + Broadcast(listeners, state)
    {
      var enriched := Stamp(draft, now);
      if fault.PutFails? {
        return false;
      }
      logsTable := logsTable[enriched.date := enriched];
      if fault.ReadBackFails? {
        return false;
      }
      var logs := LogRows();
      SetState(Partial(StatePatch(None, Some(logs), None, None)));
      ok := true;
    }

    /** `exportData()`: read the settings row and all logs from the database and tag them with the version. */
    method ExportData(readFails: bool) returns (r: ExportResult)
      requires Valid()
      ensures readFails <==> r.ExportFailed?
      ensures r.Exported? ==> r.snapshot.version == ExportVersion
      ensures r.Exported? ==> r.snapshot.settings == (if SettingsKey in settingsTable then Some(settingsTable[SettingsKey]) else None)
      ensures r.Exported? ==> Tabulates(r.snapshot.logs, logsTable)
    {
      if readFails {
        return ExportFailed;
      }
      var settings := if SettingsKey in settingsTable then Some(settingsTable[SettingsKey]) else None;
      var logs := LogRows();
      r := Exported(Snapshot(settings, logs, ExportVersion));
    }
  }

  /** After an upsert the listing holds exactly one row for the date, that row is the stamped entry, and its size is unchanged when the date was already logged. */
  lemma {:induction false} UpsertListing(rows: seq<LogEntry>, old_table: map<string, LogEntry>, draft: LogDraft, now: int)
    requires Tabulates(rows, old_table[draft.date := Stamp(draft, now)])
    ensures exists i :: 0 <= i < |rows| && rows[i] == Stamp(draft, now)
    ensures forall i, j | 0 <= i < |rows| && 0 <= j < |rows| && rows[i].date == draft.date && rows[j].date == draft.date :: i == j
    ensures forall i | 0 <= i < |rows| && rows[i].date != draft.date :: rows[i] == old_table[rows[i].date]
    ensures draft.date in old_table ==> |rows| == |old_table|
  {
    var t := old_table[draft.date := Stamp(draft, now)];
    assert draft.date in t;
    var i :| 0 <= i < |rows| && rows[i].date == draft.date;
    assert rows[i] == Stamp(draft, now);
    UpsertSize(old_table, draft.date, Stamp(draft, now));
  }
}
