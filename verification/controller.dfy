/** The page as a whole: the in-memory state together with the store, and the
    user actions that move both. Each action that saves writes the whole
    state to the store; navigation does not save. */
module Controller {
  import opened Optional
  import opened Wax
  import opened AppState
  import opened Persistence

  datatype Page = Page(state: State, store: Store)

  /** The state and the store agree: what is stored is what is in memory.
      Every save is taken to succeed, and only this page writes the store. */
  predicate Synced(a: Page) {
    a.store == Present(Save(a.state))
  }

  /** What holds between actions: the wax is in range in memory and in the
      store. */
  predicate Inv(a: Page) {
    Valid(a.state) && (a.store.Present? ==> WaxInRange(a.store.value))
  }

  /** Page start-up: the stored snapshot, if any, is merged over the defaults,
      and then the home view is shown, which records "home" as the current
      view whatever was stored. */
  function Startup(store: Store): (a: Page)
    ensures a.store == store
    ensures a.state.currentView == HomeView
    ensures store.Absent? ==> a.state == Defaults
    ensures store.Present? && store.value.waxLevel.Present? ==> a.state.waxLevel == store.value.waxLevel.value
    ensures store.Present? && store.value.waxLevel.Absent? ==> a.state.waxLevel == Full
    ensures store.Present? && store.value.sessions.Present? ==> a.state.sessions == store.value.sessions.value
    ensures store.Present? && store.value.sessions.Absent? ==> a.state.sessions == []
    ensures (store.Present? ==> WaxInRange(store.value)) ==> Inv(a)
  {
    Page(SelectView(Load(Defaults, store), HomeView), store)
  }

  /** Reloading after a save restores the saved state, except that the view
      is back to home. */
  lemma StartupAfterSave(s: State)
    ensures Startup(Present(Save(s))).state == s.(currentView := HomeView)
  {
    SaveLoadRoundTrip(Defaults, s);
  }

  /** Navigating records the view in memory; the store is not written. */
  function Navigate(a: Page, view: string): (b: Page)
    ensures b.state.currentView == view
    ensures b.state.waxLevel == a.state.waxLevel && b.state.sessions == a.state.sessions
    ensures b.store == a.store
  {
    Page(SelectView(a.state, view), a.store)
  }

  /** The rewax button: full wax, saved at once. */
  function HandleRewax(a: Page): (b: Page)
    ensures b.state.waxLevel == Full
    ensures b.state.sessions == a.state.sessions && b.state.currentView == a.state.currentView
    ensures Synced(b) && Inv(b)
  {
    var s := Rewax(a.state);
    Page(s, Present(Save(s)))
  }

  /** Submitting the session form with depletion `d`: the session is logged
      and the whole state saved. */
  function SaveSession(a: Page, session: Session, d: int): (b: Page)
    requires MinDepletion <= d <= MaxDepletion
    ensures b.state.sessions == [session] + a.state.sessions
    ensures b.state.waxLevel == Deplete(a.state.waxLevel, d)
    ensures b.state.currentView == a.state.currentView
    ensures Synced(b)
    ensures Inv(a) ==> Inv(b)
  {
    var s := LogSession(a.state, session, d);
    Page(s, Present(Save(s)))
  }

  /** The reset button. Confirmed, the stored record is removed and the page
      reloads, so it starts again from the defaults; not confirmed, nothing
      happens. */
  function ResetGameData(a: Page, confirmed: bool): (b: Page)
    ensures confirmed ==> b.state == Defaults && b.store == Absent
    ensures !confirmed ==> b == a
  {
    if confirmed then Startup(Absent) else a
  }

  /** The user actions that touch the state. `Reload` is the browser
      reloading the page. */
  datatype Action =
    | SubmitSession(session: Session, depletion: int)
    | PressRewax
    | PressReset(confirmed: bool)
    | ShowView(view: string)
    | Reload

  predicate Allowed(act: Action) {
    act.SubmitSession? ==> MinDepletion <= act.depletion <= MaxDepletion
  }

  function Step(a: Page, act: Action): Page
    requires Allowed(act)
  {
    match act
    case SubmitSession(session, d) => SaveSession(a, session, d)
    case PressRewax => HandleRewax(a)
    case PressReset(confirmed) => ResetGameData(a, confirmed)
    case ShowView(view) => Navigate(a, view)
    case Reload => Startup(a.store)
  }

  /** Every single action keeps the wax in range, in memory and in the store. */
  lemma StepPreservesInv(a: Page, act: Action)
    requires Inv(a) && Allowed(act)
    ensures Inv(Step(a, act))
  {
  }

  predicate AllAllowed(acts: seq<Action>) {
    forall i :: 0 <= i < |acts| ==> Allowed(acts[i])
  }

  /** Performing the actions one after another, first action first. */
  function Run(a: Page, acts: seq<Action>): Page
    requires AllAllowed(acts)
    decreases |acts|
  {
    if |acts| == 0 then a
    else Step(Run(a, acts[..|acts| - 1]), acts[|acts| - 1])
  }

  /** From any page whose wax is in range in memory and in the store, every
      sequence of actions keeps it in [0, 100]. */
  lemma {:induction false} RunPreservesInv(a: Page, acts: seq<Action>)
    requires Inv(a) && AllAllowed(acts)
    ensures Inv(Run(a, acts))
    decreases |acts|
  {
    if |acts| > 0 {
      var init := acts[..|acts| - 1];
      assert AllAllowed(init) by {
        forall i | 0 <= i < |init| ensures Allowed(init[i]) {
          assert init[i] == acts[i];
        }
      }
      RunPreservesInv(a, init);
      StepPreservesInv(Run(a, init), acts[|acts| - 1]);
    }
  }

  /** Start-up from an empty store, then one session with depletion 20: the
      wax reads 80 and the list holds just that session. */
  lemma FreshStartThenOneSession(session: Session)
    ensures SaveSession(Startup(Absent), session, 20).state.waxLevel == 80
    ensures SaveSession(Startup(Absent), session, 20).state.sessions == [session]
  {
  }
}
