# LotusCycle Aura — a Dafny model of the cycle tracker's core

LotusCycle Aura is a browser-based menstrual cycle tracker. Its core is made of
six parts, and each has its own Dafny module:

- **Phase calendar** (`data.js`, module `Phases`). Maps a cycle day and a cycle
  length to one of four phases: menstrual, follicular, ovulatory or luteal. It
  also looks up each phase's static record (name, typical days, colour).
- **Cycle store** (`store.js`, module `Store`). An observable store.
  `setState` does a shallow merge and then calls every listener. The store also
  tracks the settings, logs and meta tables of the local database, and derives
  the current cycle day and phase.
- **Parchment scrolls** (`scroll-system.js`, module `Scrolls`). Tabs that open
  one at a time and show the current phase's nourishment or asana content.
- **Modal controller** (`modals.js`, module `Modals`). The log, history and
  settings dialogs. It builds a log entry from the form, renders the history
  list newest first, and holds the mood emoji table.
- **Lotus dial** (`lotus-dial.js`, module `Dial`). One petal per cycle day,
  styled in three tiers around the active day, plus the day and phase labels
  in the sun core.
- **River engine** (`river-engine.js`, module `River`). The caller-visible
  integer logic only:
  - the Perlin permutation table and the table indexing of `noise`;
  - gradient selection;
  - `hexToRgb`;
  - ripple creation, the heartbeat ripple, and the per-frame widening, fading
    and removal of ripples (as exact reals).

The JavaScript behaviour these parts rely on lives in module `Js`:

- numbers that may be NaN;
- the truncating `%`;
- `String(n)`;
- `padStart`;
- ASCII `toUpperCase`.

Module `Dom` holds the one page element two controllers share: the rituals
scroll, whose `open` class both the scroll system and the modal controller
clear.

How the model represents the environment:

- **Stateful objects** are Dafny classes with `modifies` frames: the store,
  the scrolls, the modal controller, the dial, the Perlin table and the river
  engine. All but the dial also keep a `Valid()` invariant; the dial's fields
  have no invariant beyond their types.
- **Database tables** are maps keyed by their primary key: `id`, `date` and
  `key`.
- **Listener calls and window events** are recorded as traces.
- **Database failures** are explicit parameters. `AddLog` has one for each of
  its two steps (the `put` and the read-back). `Init` and `ExportData` each
  have a single one that stands for a failure of any of their reads.
- **The clock** also becomes parameters:
  - `elapsed`: the whole days since `lastPeriodStart`;
  - `now`: `Date.now()`;
  - `nowIso`: the ISO timestamp.
- **`Math.random`** in the shuffle is a nondeterministic choice within its
  range.

## Model

| member | source | states |
|---|---|---|
| Js.TruncRem | store.js:80 | JavaScript `%` on integers: the remainder of the magnitudes carrying the dividend's sign, so it has the sign of the dividend and its magnitude is below the divisor's |
| Js.NatRem | store.js:80 | the remainder of natural division, counted down by repeated subtraction, is below the divisor |
| Js.NatDivision | store.js:80 | `a == NatQuot(a, b) * b + NatRem(a, b)`: the countdown divides |
| Js.TruncDivision | store.js:80 | `a == trunc(a / b) * b + a % b`: `TruncRem` is the remainder of truncated division |
| Js.Rem | store.js:80 | `a % b` on numbers is NaN exactly when an operand is NaN or the divisor is zero |
| Js.AddInt | store.js:80 | `x + 1` keeps NaN as NaN and adds to integers |
| Js.NatDigits | lotus-dial.js:231 | `String(n)` for a natural: decimal digits, a leading zero only for 0, one digit exactly below 10 |
| Js.ParseNatDigits | lotus-dial.js:231 | reading the numeral back yields `n`, so distinct days get distinct labels |
| Js.IntToString | lotus-dial.js:231 | `String(i)`: a minus sign followed by the digits of `-i` for negatives |
| Js.NumToStringReadsBack | lotus-dial.js:231 | `String(x)` is `NaN` exactly for NaN; otherwise it is a numeral, with a minus sign exactly for negatives, that reads back to the number |
| Js.PadStartShape | lotus-dial.js:231 | `padStart`: its length is `max(|s|, len)`, `s` is its suffix, and everything before it is the fill character |
| Js.ToUpperAscii | lotus-dial.js:232 | `toUpperCase` keeps the length and upper-cases each character |
| Phases.PhaseFromDay | data.js:242-252 | each phase holds exactly on its own band: menstrual iff `day <= 5`; follicular iff `5 < day <= L-15`; ovulatory iff `5 < day` and `L-15 < day <= L-12`; luteal iff `5 < day` and `day > L-12` |
| Phases.PhaseFromDayOr | data.js:242 | an omitted cycle length defaults to 28 |
| Phases.PhaseFromNum | data.js:248-251 | a NaN day fails every comparison and falls through to luteal |
| Phases.Record | data.js:6-179 | each phase's record in `PHASE_DATA` lists consecutive days; only menstrual starts at day 1 and only luteal ends at day 28 |
| Phases.EarlyDaysAreMenstrual | data.js:248 | days up to 5 are menstrual whatever the cycle length |
| Phases.PhaseMonotone | data.js:248-251 | the phase never moves backwards as the day grows |
| Phases.OvulatoryBandAtMostThreeDays | data.js:244-250 | two ovulatory days are at most two days apart |
| Phases.BandOf | data.js:242-252 | the days of the cycle that fall in a given phase |
| Phases.AllPhasesOccur | data.js:243-251 | a cycle of 21 days or more contains every phase |
| Phases.ShortCycleHasNoFollicularDays | data.js:244-249 | a cycle of 20 days or fewer has no follicular day |
| Phases.DefaultCycleBands | data.js:242-252 | the 28-day bands are 1-5, 6-13, 14-16 and 17-28 |
| Phases.DaysListsMatchDefaultCycle | data.js:6-179 | each record's `days` list is exactly its phase's band in the 28-day cycle |
| Phases.FromName | data.js:254-255 | finds the phase with a given table key, or reports that no phase has it |
| Phases.NameRoundTrip | data.js:6-179 | looking a phase up by its own key finds that phase, so the four keys are distinct |
| Phases.GetPhaseData | data.js:254-256 | returns the record under a known key, and the follicular record for any other name |
| Store.DefaultSettings | store.js:33-38 | `DEFAULT_SETTINGS`: id `user_settings`, cycle 28, period 5, started on the given day |
| Store.MergeSettings | store.js:89 | each key present in the patch overrides the stored setting; absent keys keep it |
| Store.Stamp | store.js:101 | the stored entry is the draft with `timestamp = now` |
| Store.Merge | store.js:20-21 | `{...state, ...patch}`: each key present in the patch is replaced, every other key kept |
| Store.MergeIdempotent | store.js:21 | merging the same patch twice equals merging it once |
| Store.MergeEmptyIsIdentity | store.js:21 | an empty patch leaves the state unchanged |
| Store.Broadcast | store.js:22 | one call per listener, in registration order, each with the new state |
| Store.Without | store.js:27 | `Set.delete`: the listener is gone afterwards, nothing is added, and deleting an absent listener changes nothing |
| Store.WithoutMembers | store.js:27 | `Set.delete` keeps exactly the other listeners, and keeps them free of duplicates |
| Store.WithoutKeepsOrder | store.js:27 | in a duplicate-free list, deleting the listener at position `k` leaves the others in their insertion order |
| Store.WithoutOnlyAt | store.js:27 | deleting a listener that occurs once, at `k`, removes position `k` and nothing else |
| Store.WithoutAppend | store.js:27 | deletion works on each part of a concatenated listener list separately |
| Store.CycleDayOf | store.js:73-81 | `getCycleDay`. No or empty start gives 1. A 0 cycle length gives NaN. Elapsed ≥ 0 gives 1..L. Elapsed < 0 gives 2-L..1. Elapsed 0 gives 1 (which day within these ranges: `Store.CycleDayCongruent`) |
| Store.CycleDayCongruent | store.js:73-81 | with a start and a non-zero cycle length, the day minus 1 is congruent to the elapsed days modulo the cycle length; with the ranges of `CycleDayOf` this fixes the day |
| Store.FutureStartLeavesRange | store.js:77-80 | a start one day in the future of a 28-day cycle gives day 0, and 27 days ahead gives day -26 |
| Store.CurrentPhaseOf | store.js:83-86 | `getCurrentPhase` is the phase of `getCycleDay` under the current cycle length; with no start it is menstrual |
| Store.CycleLengthChangeMovesPhase | store.js:83-86 | the phase is recomputed from the new cycle length: day 21 is luteal at 28 days and ovulatory at 35 |
| Store.UpsertSize | store.js:102 | `put` under an existing key keeps the table's size; under a new key it adds one |
| Store.UpsertListing | store.js:100-104 | after `addLog`, the listing holds exactly one row for the date, and it is the stamped entry; every other row is as it was |
| Store.CycleStore.constructor | store.js:40-44 | the initial state: default settings, no logs, not initialized, no selected day |
| Store.CycleStore.SetState | store.js:19-23 | the new state is the merge of the resolved partial: the object itself, or the updater function applied to the current state; every listener is notified once, in order; nothing else changes |
| Store.CycleStore.GetState | store.js:24 | returns the current state |
| Store.CycleStore.Subscribe | store.js:25-28 | adds the listener once (set semantics) and returns its handle |
| Store.CycleStore.Unsubscribe | store.js:27 | removes the listener and reports whether it was present |
| Store.CycleStore.LogRows | store.js:51 | `toArray()` lists every row of the logs table exactly once |
| Store.CycleStore.Init | store.js:47-71 | on success, loads the stored settings or the defaults, the stored flag, and all logs; on failure uses the defaults; `store:ready` is dispatched either way |
| Store.CycleStore.UpdateSettings | store.js:88-93 | merges without validation, writes the row under the merged id, sets the state and dispatches `store:updated`; a failed write changes nothing |
| Store.CycleStore.SetInitialized | store.js:95-98 | writes the meta row, then sets the flag with no window event; a failed write changes nothing |
| Store.CycleStore.AddLog | store.js:100-105 | upserts the stamped entry under its date, then sets `logs` to the whole table; each of the two database steps can fail and stop the operation |
| Store.CycleStore.ExportData | store.js:107-111 | reads the settings row (which may be absent) and all logs from the database, tagged with version `2.0` |
| Scrolls.ScrollDay | scroll-system.js:102 | the shown day is the selected day, or the cycle day when the selection is absent or 0 |
| Scrolls.ScrollPhase | scroll-system.js:101-104 | with no selected day (or day 0) it is the store's current phase; with a selected day `d` it is the phase of `d` under the store's cycle length |
| Scrolls.ContentFor | scroll-system.js:106-113 | only `nourishment` and `asanas` render content, taken from the given phase |
| Scrolls.FirstOpen | scroll-system.js:177 | `querySelector('.scroll-tab.open')`: the first open tab in document order, or none |
| Scrolls.ParchmentScrolls.constructor | scroll-system.js:7-10 | all tabs closed, scroll mode off, nothing rendered |
| Scrolls.ParchmentScrolls.CloseAll | scroll-system.js:77-98 | every tab and the rituals scroll are closed, and scroll mode is off |
| Scrolls.ParchmentScrolls.LoadScrollContent | scroll-system.js:100-117 | fills the type's container, if it exists and the type renders content; nothing else changes |
| Scrolls.ParchmentScrolls.ToggleScroll | scroll-system.js:33-44 | an open tab closes everything; a closed tab becomes the only open one and loads its content; at most one tab is open afterwards |
| Scrolls.ParchmentScrolls.UpdateContent | scroll-system.js:176-181 | reloads the first open tab and ignores its `day` argument |
| Scrolls.ParchmentScrolls.OnDocumentClick | scroll-system.js:19-27 | a click outside every tab, modal and nav bar closes every tab and the rituals scroll and turns scroll mode off; any other click leaves the tabs, scroll mode and the rituals scroll as they were |
| Modals.FindMood | modals.js:193 | `find`: the first option with the label, or none when no option has it |
| Modals.MoodEmoji | modals.js:192-195 | the emoji of the matching mood, else `✨` |
| Modals.MoodLabelsDistinct | modals.js:212-221 | mood labels are distinct, and `Neutral` is one of them |
| Modals.DefaultMoodHasEmoji | modals.js:212-221 | the default mood `Neutral` shows its own emoji, not the fallback glyph |
| Modals.DatePart | modals.js:129 | `split('T')[0]`: the longest prefix without a `T` |
| Modals.DatePartOfTimestamp | modals.js:129 | the date part of `date + "T" + time` is `date` |
| Modals.EntryFor | modals.js:131-137 | a falsy flow becomes 1 and a falsy mood becomes `Neutral`; the notes, date and cycle day are passed through |
| Modals.DateKeyOfIsoDate | modals.js:155 | the key `new Date` orders an ISO `YYYY-MM-DD` date by is `year * 10000 + month * 100 + day`, with month and day below 100 |
| Modals.LaterIsoDateHasLargerKey | modals.js:155 | of two ISO dates, the later one by year, then month, then day has the larger key |
| Modals.InsertByDate | modals.js:155 | one insertion step of the sort adds exactly one entry |
| Modals.InsertByDateSorts | modals.js:155 | an insertion into a newest-first list keeps it newest first and adds exactly the entry |
| Modals.NewestFirstCopy | modals.js:155 | the sorted copy is newest first and a permutation of the logs |
| Modals.CardFor | modals.js:169-186 | a card shows the phase name of the logged day under the current cycle length, the mood emoji, a bar `flow * 20` wide, and the notes only when non-empty |
| Modals.RenderHistory | modals.js:152-190 | the placeholder exactly when there are no logs; otherwise one card per log, newest first |
| Modals.ModalController.constructor | modals.js:7-13 | knows the dialogs that are present, all hidden, with no picks |
| Modals.ModalController.Open | modals.js:32-39 | unhides a known dialog, re-renders the history dialog, and ignores unknown names |
| Modals.ModalController.CloseAll | modals.js:41-52 | hides every dialog and closes the rituals scroll |
| Modals.ModalController.PickFlow | modals.js:99-111 | records the picked flow |
| Modals.ModalController.PickMood | modals.js:114-124 | records the picked mood |
| Modals.ModalController.SaveCurrentLog | modals.js:127-145 | adds the entry for today's date, dated by its date part, with the store's cycle day. On success the store's state differs only in `logs`, which lists the table, the listeners are notified, the dialogs are hidden, the picks reset and the rituals scroll closed. On failure the store's state, the picks, the dialogs and the rituals scroll are unchanged. Either way the listeners, events, settings and meta tables are untouched |
| Dial.LabelFont | lotus-dial.js:154 | `7px` iff the cycle is longer than 30 days, else `9px` |
| Dial.InitialOpacity | lotus-dial.js:139 | `0.5` for petals of the active phase, `0.2` otherwise |
| Dial.TierFor | lotus-dial.js:254-283 | the active day iff the day equals `currentDay`; then the active phase; otherwise inactive |
| Dial.RestyleAllPointwise | lotus-dial.js:242-284 | restyling keeps the number of petals and restyles each one in place |
| Dial.RestyleAllKeepsPetals | lotus-dial.js:242-284 | restyling a petal (`Restyle`) changes only its tier, which becomes the three-tier rule applied to its day and phase |
| Dial.Ring | lotus-dial.js:112-167 | a rendered ring has one petal per day `1..L` (`PetalCount`), each built by `NewPetal` with its day, its phase, initial opacity and font, and styled with its tier |
| Dial.AtMostOneActiveDay | lotus-dial.js:254 | at most one petal of a ring is the active day |
| Dial.SelectedDayIsOnlyActiveDay | lotus-dial.js:286-288 | after a day is selected, its petal is the only active-day petal |
| Dial.RingExample | lotus-dial.js:242-284 | at cycle day 14 of 28, petal 14 is active, 15-16 share the phase, and 17 is inactive |
| Dial.DayLabelCases | lotus-dial.js:231 | `padStart(2, '0')` of `String(day)`: at least two characters; `0d` below 10, the plain digits from 10, `-` and the digits for a negative day, `NaN` for NaN |
| Dial.PhaseLabelIsUpperKey | lotus-dial.js:232 | the phase label is `toUpperCase` of the phase key, and every character is a capital letter |
| Dial.LotusDial.constructor | lotus-dial.js:7-22 | a 28-day ring rendered at day 1 |
| Dial.LotusDial.RenderPetals | lotus-dial.js:61-68 | redraws the day ring from scratch for the current cycle length and day |
| Dial.LotusDial.HighlightActiveDay | lotus-dial.js:242-284 | the petals become `RestyleAll` of the old petals: each restyled by the three-tier rule around `currentDay` |
| Dial.LotusDial.UpdateSunCore | lotus-dial.js:226-240 | the current day becomes the store's cycle day; both labels are written |
| Dial.LotusDial.SelectDay | lotus-dial.js:286-296 | restyles the petals around the selected day, but `currentDay` and both labels end as the store's cycle day and phase; the event carries the selected day |
| Dial.LotusDial.Refresh | lotus-dial.js:298-303 | the cycle length becomes the store's, or 28 when that is 0; the ring is redrawn with the previous `currentDay`; then the sun core is updated |
| Dial.LotusDial.UpdatePhase | lotus-dial.js:305-309 | restyles the petals around the given day, then `updateSunCore` recomputes `currentDay` and both labels from the store; the phase argument is unused |
| River.ShuffleHoldsBytes | river-engine.js:8-14 | a shuffle of 0..255 holds only byte values |
| River.LatticeCoord | river-engine.js:33-35 | `floor(x) & 255` lies in 0..255, keeps bytes unchanged, and is congruent to its input modulo 256 |
| River.LatticePeriodic | river-engine.js:33-35 | shifting a coordinate by 256 does not change its lattice cell |
| River.Perlin.constructor | river-engine.js:7-19 | afterwards `permutation` is a permutation of 0..255 and `p[i] == permutation[i mod 256]` for all 512 entries |
| River.Perlin.IdentityTable | river-engine.js:10 | the identity table 0..255 |
| River.Perlin.Shuffle | river-engine.js:11-14 | swapping with any `j` in 0..i keeps a permutation of 0..255 |
| River.Perlin.Doubled | river-engine.js:15-18 | both halves of `p` copy the permutation |
| River.Perlin.DoubledTable | river-engine.js:15-18 | `p[i] == p[i + 256] == permutation[i]` |
| River.Perlin.CornerHashes | river-engine.js:32-60 | the eight hashes of `noise`, in source order. Every index stays below 512. Each hash is the permutation applied coordinate by coordinate to its corner, modulo 256 |
| River.Perlin.CornerReadsPermutation | river-engine.js:45-59 | three chained lookups in `p` stay in bounds and equal the modular lookups in the permutation |
| River.Perlin.FaceReadsPermutation | river-engine.js:45-59 | the same for the four corners of one `z` face, `A`..`BB` and their `+ 1` |
| River.Perlin.CubeReadsPermutation | river-engine.js:45-59 | all eight corner reads of one cell stay in bounds and equal modular lookups in the permutation |
| River.GradIsDotProduct | river-engine.js:25-30 | `grad` (`River.Grad`) is the dot product with one of Perlin's 16 gradient directions, selected by `hash & 15` |
| River.GradUsesLowFourBits | river-engine.js:26 | only the low four bits of the hash matter |
| River.HexDigits | river-engine.js:243 | the pattern matches exactly an optional `#` followed by six hex digits of either case |
| River.ByteAt | river-engine.js:245 | `parseInt` of two hex digits is below 256 |
| River.HexToRgb | river-engine.js:242-247 | a non-matching input yields `0, 0, 0` |
| River.HexRoundTrip | river-engine.js:242-247 | reading back a written `#rrggbb`, with or without `#`, gives its decimal channels |
| River.HexCaseInsensitive | river-engine.js:243 | upper-casing the input does not change the result |
| River.NewRipple | river-engine.js:125-132 | a new ripple starts at its point with radius 0 and life 1 |
| River.Advance | river-engine.js:319-320 | one frame widens a ripple by its velocity and takes 0.012 from its life; position, opacity and velocity stay |
| River.Decayed | river-engine.js:316-324 | one frame never lengthens the ripple list |
| River.DecayedAllLive | river-engine.js:322-325 | every ripple that survives a frame has life left |
| River.DecayedAppend | river-engine.js:316-324 | each ripple is updated on its own, so a frame over a concatenation is the concatenation of the frames |
| River.AdvanceN | river-engine.js:319-320 | after `k` frames a ripple has lost `0.012 * k` life and grown by `k` times its velocity |
| River.OneRippleFrames | river-engine.js:316-324 | a live ripple survives `k` frames exactly while its life stays above `k` decay steps |
| River.RippleLifetime | river-engine.js:125-132 | a new ripple is still drawn after 83 frames, with radius 83 times its velocity, and the 84th frame removes it |
| River.RiverEngine.constructor | river-engine.js:64-105 | sized to the window with phase `menstrual` and a valid noise table; the first frame runs at `now`, so when the heartbeat is due the list holds the centre ripple already advanced once (radius 3.1, life 0.988) |
| River.RiverEngine.Resize | river-engine.js:114-123 | adopts the window size |
| River.RiverEngine.CreateRipple | river-engine.js:125-132 | appends exactly one new ripple and leaves the others unchanged |
| River.RiverEngine.UpdatePhase | river-engine.js:108-112 | adopts the store's current phase key |
| River.RiverEngine.UpdateRipples | river-engine.js:316-324 | walking from the back, each ripple widens and fades in place and those whose life has run out are spliced out: the list becomes `Decayed` of the old one |
| River.RiverEngine.Animate | river-engine.js:134-151 | the clocks advance. When more than 5000 ms have passed since the last heartbeat (`HeartbeatDue`), `lastHeartbeat` becomes `now` and the list becomes the decayed old ripples followed by the advanced centre ripple; otherwise `lastHeartbeat` is kept and the list is the decayed old ripples |

### Edge cases the code handles

The model follows the code (store.js:73-81 and data.js:242-252) in each of
these cases:

- **Negative elapsed days.** A start date in the future does not give a day
  in `1..cycleLength`.
  - The code uses JavaScript's truncating `%`, so a future start gives a day
    in `2-cycleLength..1`. One day early in a 28-day cycle is day 0.
  - `Store.CycleDayOf` states this range, and `Store.FutureStartLeavesRange`
    shows concrete values.
  - Adding `cycleLength` to the elapsed days therefore does not keep the day
    when that crosses zero: for elapsed in `1-L..-1` the day differs from the
    day at elapsed + L (day 0 at -1 but day 28 at 27, for L = 28). What does
    hold for every elapsed count is the congruence `Store.CycleDayCongruent`.
- **Unparseable start date.** The code returns 1 only for a missing or empty
  `lastPeriodStart`. An unparseable date gives NaN, which the model does not
  cover (see below).
- **Zero cycle length.** `getCycleDay` is NaN when `cycleLength` is 0.
  `getPhaseFromDay` then yields luteal.

## Left out

- Drawing is not modelled: SVG, canvas and HTML markup; petal paths and `getPointAt`; caustics, mist, particles and gradients; toasts and CSS animations. Each is DOM output computed with trigonometry and floating point.
- `renderLogContent` (modals.js:60-125) is not modelled beyond the two pick handlers. The form markup is HTML output.
- The `setTimeout` that adds `hidden` to the rituals scroll after it closes is not modelled: it is a timer. Only the removal of `open` is modelled.
- In `renderHistoryContent`, the display formatting of the date (`toLocaleDateString`) is not modelled: it is locale-dependent. The card keeps the raw ISO date.
- `Store.CycleStore.LogRows`: the order `toArray()` returns rows in is not modelled. The database returns them in primary-key order, which depends on the database's string collation. The model states only that each row appears exactly once.
- `Modals.NewestFirstCopy`: the relative order of logs with the same date is not stated. `Array.prototype.sort` is stable, but dates are primary keys and so distinct in practice. Ordering follows the date's digits (`YYYYMMDD`), which orders well-formed ISO dates; malformed dates, which `new Date` makes NaN, are not modelled.
- `Store.CycleDayOf`: whole elapsed days are a parameter. `new Date`, `Date.now` and the floor of the millisecond difference are left out, so an unparseable `lastPeriodStart` (NaN) and a fractional or negative-zero day count are not modelled.
- `Phases.PhaseFromDay`: only integer cycle lengths are modelled, so `Math.round(cycleLength - 14)` is the identity. A fractional cycle length cannot be stored through this model.
- `Phases.GetPhaseData`: names inherited from `Object.prototype` (such as `toString`) are treated like any unknown name and fall back to the follicular record.
- `Modals.ModalController.PickFlow`: the source stores `dataset.value`, a string such as `"3"`. The model stores its numeric value, so a flow in the log is an integer.
- `Store.CycleStore.SetState`: a listener that subscribes or unsubscribes during a notification is not modelled. Listeners are external callbacks; the model records their calls as a trace.
- `Store.CycleStore.ExportData`: the JSON text (`JSON.stringify` with two-space indentation) is not modelled. The snapshot object it serialises is. A missing settings row is `None`, which the JSON omits.
- The Zustand library branch of `createStore` (store.js:15) is not modelled. Only the fallback store is.
- The whisper text in `updateSunCore` is not modelled: it is a random reading from the phase record.
- `Math.random` is not modelled in `initParticles` or in the whisper choice. In the shuffle it is modelled as a choice of any `j` in `0..i`.
- The floating-point values of `Perlin.fade`, `lerp` and `noise` are not modelled, nor is particle wrap-around: all are floating-point numerics. Only the integer table and index logic of `noise` is modelled.
- `River.RiverEngine.UpdateRipples`: ripple radius and life are exact reals, not IEEE doubles, so rounding in `r.life -= 0.012` is not modelled (it could move the frame a ripple is removed in by one). The drawing of the rings is left out.
- `River.RiverEngine.UpdatePhase` assumes that `window.cycleStore` exists. `requestAnimationFrame` scheduling is not modelled; `Animate` is one frame.
- The outer and mid rings of the dial are not modelled (only the day petals are), and neither are `animateBloom` or the whisper toggle. They are decorative and carry no cycle data.
- Event wiring and `app.js` bootstrapping are not modelled. Listener registration is out, and so is the plumbing that forwards `modal:open`, `dial:dayChanged`, `store:ready` and the mouse and touch events to the methods above.
- `Modals.ModalController.Open`: a name inherited from `Object.prototype`, such as `toString`, finds a truthy value in the source, which then throws on `classList`. The model treats it as an unknown name and ignores it.
- `Dial.LotusDial.UpdateSunCore`: assumes the `#date-day` and `#date-phase` text elements exist. The `if` guards at lotus-dial.js:231-232 that skip a missing element are not modelled.
- Store operations are modelled as atomic. The awaits in `updateSettings` (store.js:88-93) and the other async operations can interleave in the source, so two overlapping `updateSettings` calls can lose a patch; this interleaving is not modelled.
