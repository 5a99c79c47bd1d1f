/** The persisted record: a snapshot of the state written on every save, and
    the field-by-field merge that reads it back over the in-memory state. */
module Persistence {
  import opened Optional
  import opened Wax
  import opened AppState

  /** What the store may hold under the application's key. Each field may be
      present or absent, as in a parsed record that lacks some keys. */
  datatype Snapshot = Snapshot(
    currentView: Optional<string>,
    waxLevel: Optional<int>,
    sessions: Optional<seq<Session>>)

  /** The store's one slot: absent, or holding a snapshot. */
  type Store = Optional<Snapshot>

  /** Saving writes every field of the state. */
  function Save(s: State): (snap: Snapshot)
    ensures snap.currentView.Present? && snap.waxLevel.Present? && snap.sessions.Present?
    ensures snap.currentView.value == s.currentView
    ensures snap.waxLevel.value == s.waxLevel
    ensures snap.sessions.value == s.sessions
  {
    Snapshot(Present(s.currentView), Present(s.waxLevel), Present(s.sessions))
  }

  /** A snapshot whose wax level, if it has one, lies in [0, 100]. Nothing
      checks this on load; it is what a snapshot written by `Save` from a
      valid state satisfies. */
  predicate WaxInRange(snap: Snapshot) {
    snap.waxLevel.Present? ==> InRange(snap.waxLevel.value)
  }

  /** Merging a snapshot over a state: a field the snapshot has replaces the
      state's, a field it lacks keeps the state's value. */
  function Merge(base: State, snap: Snapshot): (r: State)
    ensures snap.currentView.Present? ==> r.currentView == snap.currentView.value
    ensures snap.currentView.Absent? ==> r.currentView == base.currentView
    ensures snap.waxLevel.Present? ==> r.waxLevel == snap.waxLevel.value
    ensures snap.waxLevel.Absent? ==> r.waxLevel == base.waxLevel
    ensures snap.sessions.Present? ==> r.sessions == snap.sessions.value
    ensures snap.sessions.Absent? ==> r.sessions == base.sessions
    ensures Valid(base) && WaxInRange(snap) ==> Valid(r)
  {
    State(
      snap.currentView.OrElse(base.currentView),
      snap.waxLevel.OrElse(base.waxLevel),
      snap.sessions.OrElse(base.sessions))
  }

  /** Merging the same snapshot twice is merging it once. */
  lemma MergeIdempotent(base: State, snap: Snapshot)
    ensures Merge(Merge(base, snap), snap) == Merge(base, snap)
  {
  }

  /** Loading: with nothing stored the state is left as it is; otherwise the
      stored snapshot is merged over it. */
  function Load(base: State, stored: Store): (r: State)
    ensures stored.Absent? ==> r == base
    ensures stored.Present? ==> r == Merge(base, stored.value)
    ensures Valid(base) && (stored.Present? ==> WaxInRange(stored.value)) ==> Valid(r)
  {
    match stored
    case Absent => base
    case Present(snap) => Merge(base, snap)
  }

  /** Saving a state and loading it back reproduces it field for field,
      whatever the state it is loaded over. */
  lemma SaveLoadRoundTrip(base: State, s: State)
    ensures Load(base, Present(Save(s))) == s
  {
  }

  /** A snapshot saved from a valid state passes the range condition. */
  lemma SaveKeepsRange(s: State)
    requires Valid(s)
    ensures WaxInRange(Save(s))
  {
  }
}
