/** The application state record and the transitions that change it in memory:
    logging a session, rewaxing and switching the view. */
module AppState {
  import opened Wax

  /** One logged session. The spot, hours and wave count are taken as the form
      gave them (no validation happens); `date` is the logging timestamp. */
  datatype Session = Session(spot: string, hours: real, waves: int, date: int)

  /** The whole state: the selected view, the wax level and the sessions,
      most recent first. */
  datatype State = State(currentView: string, waxLevel: int, sessions: seq<Session>)

  /** The view shown at start-up. */
  const HomeView: string := "home"

  /** The in-memory defaults the state starts from before anything is loaded. */
  const Defaults: State := State(HomeView, Full, [])

  /** The range invariant: the wax level stays within [0, 100]. */
  predicate Valid(s: State) {
    InRange(s.waxLevel)
  }

  /** Logging a session: the record goes in front of the list, and the wax
      drops by the session's depletion `d`, clamped at 0. */
  function LogSession(s: State, session: Session, d: int): (r: State)
    requires MinDepletion <= d <= MaxDepletion
    ensures |r.sessions| == |s.sessions| + 1
    ensures r.sessions[0] == session && r.sessions[1..] == s.sessions
    ensures s.waxLevel >= d ==> r.waxLevel == s.waxLevel - d
    ensures s.waxLevel < d ==> r.waxLevel == 0
    ensures r.waxLevel <= s.waxLevel - MinDepletion || r.waxLevel == 0
    ensures Valid(s) ==> Valid(r)
    ensures r.currentView == s.currentView
  {
    s.(sessions := [session] + s.sessions, waxLevel := Deplete(s.waxLevel, d))
  }

  /** A session logged at wax 10 with depletion 15 leaves 0, not -5. */
  lemma ClampAtZero(s: State, session: Session)
    requires s.waxLevel == 10
    ensures LogSession(s, session, 15).waxLevel == 0
  {
  }

  /** Rewaxing: the level becomes full whatever it was; nothing else moves. */
  function Rewax(s: State): (r: State)
    ensures r.waxLevel == Full && Valid(r)
    ensures r.sessions == s.sessions && r.currentView == s.currentView
  {
    s.(waxLevel := Full)
  }

  /** Rewaxing a second time changes nothing. */
  lemma RewaxIdempotent(s: State)
    ensures Rewax(Rewax(s)) == Rewax(s)
  {
  }

  /** Selecting a view records it and leaves the wax and the sessions alone. */
  function SelectView(s: State, view: string): (r: State)
    ensures r.currentView == view
    ensures r.waxLevel == s.waxLevel && r.sessions == s.sessions
  {
    s.(currentView := view)
  }

  /** One form submission: the session and the depletion drawn for it. */
  datatype LogEntry = LogEntry(session: Session, depletion: int)

  predicate DepletionsInRange(es: seq<LogEntry>) {
    forall i :: 0 <= i < |es| ==> MinDepletion <= es[i].depletion <= MaxDepletion
  }

  /** Logging the entries one after another, first entry first. */
  function LogAll(s: State, es: seq<LogEntry>): State
    requires DepletionsInRange(es)
    decreases |es|
  {
    if |es| == 0 then s
    else
      var last := es[|es| - 1];
      LogSession(LogAll(s, es[..|es| - 1]), last.session, last.depletion)
  }

  /** Dropping the last entry keeps the depletions in range. */
  lemma InitInRange(es: seq<LogEntry>)
    requires DepletionsInRange(es) && |es| > 0
    ensures DepletionsInRange(es[..|es| - 1])
  {
    var init := es[..|es| - 1];
    forall i | 0 <= i < |init| ensures MinDepletion <= init[i].depletion <= MaxDepletion {
      assert init[i] == es[i];
    }
  }

  /** The sessions of the entries, last logged first. */
  function NewestFirst(es: seq<LogEntry>): (ss: seq<Session>)
    ensures |ss| == |es|
  {
    seq(|es|, i requires 0 <= i < |es| => es[|es| - 1 - i].session)
  }

  /** The sum of the depletions of the entries. */
  function TotalDepletion(es: seq<LogEntry>): int
    decreases |es|
  {
    if |es| == 0 then 0 else TotalDepletion(es[..|es| - 1]) + es[|es| - 1].depletion
  }

  /** After logging N sessions the list holds them newest first, followed
      by the earlier sessions in their original order. */
  lemma {:induction false} LogAllSessions(s: State, es: seq<LogEntry>)
    requires DepletionsInRange(es)
    ensures LogAll(s, es).sessions == NewestFirst(es) + s.sessions
    decreases |es|
  {
    if |es| > 0 {
      var init := es[..|es| - 1];
      var last := es[|es| - 1];
      InitInRange(es);
      var prev := LogAll(s, init);
      assert LogAll(s, es).sessions == [last.session] + prev.sessions;
      LogAllSessions(s, init);
      NewestFirstSnoc(es, s.sessions);
    }
  }

  /** The newest-first list of a non-empty log, followed by `rest`, is its
      last session followed by the newest-first list of the other entries
      and then `rest`. */
  lemma NewestFirstSnoc(es: seq<LogEntry>, rest: seq<Session>)
    requires |es| > 0
    ensures NewestFirst(es) + rest == [es[|es| - 1].session] + (NewestFirst(es[..|es| - 1]) + rest)
  {
    var init := es[..|es| - 1];
    var head := [es[|es| - 1].session];
    var rhs := head + NewestFirst(init);
    forall i | 0 <= i < |es| ensures NewestFirst(es)[i] == rhs[i] {
      if i > 0 {
        assert rhs[i] == NewestFirst(init)[i - 1] == init[|init| - 1 - (i - 1)].session;
      }
    }
    assert NewestFirst(es) == rhs;
    assert rhs + rest == head + (NewestFirst(init) + rest);
  }

  /** Consequently element 0 is the session logged last, and the list grew by N. */
  lemma LastLoggedIsFirst(s: State, es: seq<LogEntry>)
    requires DepletionsInRange(es) && |es| > 0
    ensures LogAll(s, es).sessions[0] == es[|es| - 1].session
    ensures |LogAll(s, es).sessions| == |s.sessions| + |es|
  {
    LogAllSessions(s, es);
  }

  /** After logging N sessions the wax is the starting level less the total
      depletion, clamped once at 0; the view is never touched. (With no
      entries a negative starting level stays negative, so that case is
      excluded.) */
  lemma {:induction false} LogAllWax(s: State, es: seq<LogEntry>)
    requires DepletionsInRange(es) && (0 <= s.waxLevel || |es| > 0)
    ensures LogAll(s, es).waxLevel == Deplete(s.waxLevel, TotalDepletion(es))
    ensures LogAll(s, es).currentView == s.currentView
    ensures Valid(s) ==> Valid(LogAll(s, es))
    decreases |es|
  {
    if |es| > 0 {
      var init := es[..|es| - 1];
      InitInRange(es);
      var last := es[|es| - 1];
      assert MinDepletion <= last.depletion;
      assert LogAll(s, es) == LogSession(LogAll(s, init), last.session, last.depletion);
      if |init| > 0 || 0 <= s.waxLevel {
        LogAllWax(s, init);
        TotalDepletionNonNegative(init);
        DepleteTwice(s.waxLevel, TotalDepletion(init), last.depletion);
      } else {
        assert LogAll(s, init) == s && TotalDepletion(init) == 0;
      }
    }
  }

  lemma {:induction false} TotalDepletionNonNegative(es: seq<LogEntry>)
    requires DepletionsInRange(es)
    ensures TotalDepletion(es) >= 0
    decreases |es|
  {
    if |es| > 0 {
      var init := es[..|es| - 1];
      InitInRange(es);
      TotalDepletionNonNegative(init);
    }
  }
}
