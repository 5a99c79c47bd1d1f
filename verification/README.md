# Surf session and wax state machine

A model, in Dafny, of the state logic of a small browser surf tracker
(`file.js`). The page keeps one state record `{currentView, waxLevel,
sessions}`. Logging a session puts it at the head of the list and wears the
board's wax down by 15 to 24 points, clamped at 0. Rewaxing sets the wax back
to 100. The wax gauge shows a three-level tier and a "wax up" warning. The
whole record is saved to the browser's local store after every logging and
rewax, merged back field by field when the page loads, and erased by a
confirmed reset.

Modules, one per concern of the source:

- `Optional` — a value that may be absent, for record fields and the store slot that may be absent.
- `Wax` — the range [0, 100], the depletion drawn per session, the clamped
  depletion, rewax value, tier and warning.
- `AppState` — the `Session` and `State` records, the defaults, and the
  in-memory transitions (log, rewax, select view), with lemmas about logging
  N sessions in a row.
- `Persistence` — the stored snapshot, `Save`, the field-by-field `Merge`
  and `Load`.
- `Controller` — the page as state plus store: start-up, navigation, the
  rewax button, the session form, the reset button, and runs of any number of
  actions, which keep the wax in range.

Random draws and the store are inputs. The depletion is a parameter `d` with
15 ≤ d ≤ 24. This is exactly the set of values `floor(u * 10) + 15` yields
for a draw `u` in [0, 1): `Wax.DepletionFromDraw` shows every draw gives a
value in [15, 24], and `Wax.DrawCoversRange` shows every value in [15, 24]
comes from some draw. The store is an `Optional<Snapshot>` passed in and
returned. The confirmation dialog is a
boolean argument. Timestamps arrive with the session.

Facts about the code that shape the model:

- The code does no input validation, so `LogSession` accepts any spot,
  hours and waves.
- Whatever was parsed from the store is merged as it is, and unparsable
  stored data makes `JSON.parse` throw. The model has no error path on
  load, and it proves range preservation only under the condition that the
  stored level is in range (`WaxInRange`). That condition holds of
  everything the page itself writes.
- The code has no initialisation guard; start-up runs before any action
  can happen.
- Start-up overwrites the restored `currentView` with `"home"`
  (`Controller.Startup`).

## Model

| member | source | states |
|---|---|---|
| Wax.DepletionFromDraw | file.js:131 | the per-session depletion `floor(u*10)+15` of a draw in [0,1) lies in [15, 24] |
| Wax.DrawCoversRange | file.js:131 | every integer in [15, 24] is the depletion of some draw, so the range precondition on `d` is exact |
| Wax.Deplete | file.js:132 | depleting gives `w - d` when that is not negative and 0 otherwise; the result is never negative and stays in [0, 100] when `w` does |
| Wax.DepleteTwice | file.js:131-132 | two successive clamped depletions by non-negative amounts equal one depletion by their sum |
| Wax.TierOf | file.js:56-61 | high exactly when w > 60, medium exactly when 30 < w ≤ 60, low exactly when w ≤ 30 |
| Wax.TierMonotone | file.js:56-61 | more wax never gives a lower tier |
| Wax.ShowsWarning | file.js:56-64 | the warning shows exactly when w < 20, and only ever in the low tier |
| Wax.TierBoundaries | file.js:56-64 | 60 is medium, 30 is low, 61 high, 31 medium; 19 warns and 20 does not |
| AppState.LogSession | file.js:128-132 | the new session is at index 0, the old list follows unchanged and the length grows by one; wax becomes max(0, w − d); the range invariant is kept; the view is untouched |
| AppState.ClampAtZero | file.js:131-132 | wax 10 with depletion 15 gives 0, not −5 |
| AppState.Rewax | file.js:67-68 | wax becomes 100 whatever it was; sessions and view are unchanged |
| AppState.RewaxIdempotent | file.js:67-68 | rewaxing twice equals rewaxing once |
| AppState.SelectView | file.js:41 | showing a view records it and changes nothing else |
| AppState.LogAllSessions | file.js:128 | after N logs the list is the N new sessions newest first, then the earlier list in its original order |
| AppState.LastLoggedIsFirst | file.js:128 | after N ≥ 1 logs element 0 is the session logged last and the list grew by N |
| AppState.LogAllWax | file.js:131-132 | after N logs the wax is the start level less the total depletion, clamped once at 0; the range invariant is kept and the view untouched |
| Persistence.Save | file.js:142-143 | a save writes every field of the state |
| Persistence.Merge | file.js:147 | each field present in the snapshot replaces the state's; each absent field keeps the state's value; the range is kept if the stored level is in range |
| Persistence.MergeIdempotent | file.js:147 | merging the same snapshot twice equals merging it once |
| Persistence.Load | file.js:145-147 | with nothing stored the state is left as it is; otherwise the snapshot is merged over it |
| Persistence.SaveLoadRoundTrip | file.js:142-147 | loading a saved state reproduces it field for field, over any starting state |
| Persistence.SaveKeepsRange | file.js:142-143 | a snapshot saved from a state in range has its wax in range |
| Controller.Startup | file.js:8-12 | start-up over an empty store gives the defaults `{home, 100, []}`; otherwise stored fields override the defaults; the view always ends as home; the invariant holds if the stored wax is in range |
| Controller.StartupAfterSave | file.js:8-12 | reloading after a save restores the saved state except that the view is home |
| Controller.Navigate | file.js:36-41 | navigation sets the view, leaves wax and sessions alone and writes nothing to the store |
| Controller.HandleRewax | file.js:67-69 | the rewax button sets wax to 100, keeps sessions and view, and, with the write taken to succeed, leaves the store equal to the new state |
| Controller.SaveSession | file.js:123-134 | the session form prepends the session, depletes the wax with the clamp, keeps the view, preserves the invariant and, with the write taken to succeed, leaves the store equal to the new state |
| Controller.ResetGameData | file.js:149-153 | a confirmed reset empties the store and gives `{home, 100, []}`; an unconfirmed one changes nothing |
| Controller.StepPreservesInv | file.js:36-153 | every user action keeps the wax in [0, 100] in memory and in the store |
| Controller.RunPreservesInv | file.js:36-153 | any sequence of user actions keeps the wax in [0, 100] in memory and in the store |
| Controller.FreshStartThenOneSession | file.js:1-5 | from a fresh start, one session with depletion 20 leaves wax 80 and a one-element list |

## Left out

- Rendering: DOM updates, gauge height and gradients, modal open and close,
  `alert`, the glow `setTimeout`, and event-listener wiring. These are
  presentation only. The tier and warning are modelled as values, not as
  CSS or text.
- `loadConditions` and `renderSpots`. The first is random display with no
  state effect; the second is static content.
- JSON serialisation and the `localStorage` API. The store is an
  `Optional<Snapshot>` with typed, possibly-absent fields. Stored values of the
  wrong type and extra keys that `Object.assign` would also copy are not
  represented, and neither is a `JSON.parse` exception.
- Failed or foreign writes to the store. The store changes only through
  this page's own saves, and every save is taken to succeed. The code never
  checks `localStorage.setItem`, which throws when the quota is full or
  storage is disabled; memory is then already changed while the store keeps
  the old record. Another tab writing the same key is not represented
  either, so a reload never reads a record this page did not save. The
  range invariant would survive both; the `Synced` results of
  `Controller.HandleRewax` and `Controller.SaveSession` would not.
- Wax.DepletionFromDraw: the product `u * 10` is exact in the model, but
  the page rounds it to a double before taking the floor. A draw just below
  a multiple of 0.1 (the double nearest 0.7, say) can therefore give the
  next depletion up in the page (22 rather than 21). The set of possible
  depletions, [15, 24], is the same in both.
- Form parsing with `parseFloat`/`parseInt`, and `Date.now()`. The session's
  fields are inputs. A `NaN` or ±Infinity from parsing is not represented,
  because hours are a `real` and waves an `int`. In the code `JSON.stringify`
  writes every non-finite number as `null`, so saving and loading does not
  give back blank or non-finite hours or waves; the model's round trip
  covers finite values only.
- The random draw itself. It is the parameter `d` (or the draw `u` in
  `Wax.DepletionFromDraw`).
- Wax is an integer, as every value the page itself produces is. `toFixed`
  formatting is not modelled.
- The confirmation dialog and the page reload, which are a boolean argument
  and a fresh `Controller.Startup`.
- AppState.LogAllWax: requires a non-negative starting level or at least
  one logged session. With no sessions logged, a negative loaded level
  stays negative rather than equal the clamped value.
