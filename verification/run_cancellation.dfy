/** cancel_run among other transactions: it reads the run, asks for CANCELLING in one transaction, and
    for a run that was queued asks for CANCELLED in another, while anything may happen between the three. */
module RunCancellation {
  import opened Outcomes
  import opened StateMachine
  import opened RunTables
  import opened EventLog
  import opened RunInvariants
  import opened RunHistories
  import opened RunRefinement
  import opened RunStore

  /** The state of run r after n steps. */
  ghost function StateAt(steps: seq<Step>, n: nat, r: Id): RunState
    requires n <= |steps| && r in Exec(steps[..n]).runs
  {
    StateOf(Exec(steps[..n]).runs[r])
  }

  lemma NextState(steps: seq<Step>, n: nat, r: Id)
    requires n < |steps| && r in Exec(steps[..n]).runs
    ensures r in Exec(steps[..n + 1]).runs
    ensures StateAt(steps, n + 1, r) == StateAt(steps, n, r) || Moves(StateAt(steps, n, r), StateAt(steps, n + 1, r))
    ensures Exec(steps[..n + 1]) == Next(Exec(steps[..n]), steps[n])
  {
    hide Base, Moves, Next;
    assert steps[..n + 1][..n] == steps[..n];
    StepRefinesStateMachine(Exec(steps[..n]), steps[n], r);
  }

  lemma MovesCount(x: RunState, y: RunState)
    requires Moves(x, y)
    ensures y.version == x.version + 1 && !Terminal(x.status)
    ensures x.status == Cancelling ==> y.status == Cancelled
  {
  }

  /** Not before x, and x itself under its version. */
  predicate NotBefore(x: RunState, y: RunState) {
    y.version >= x.version && (y.version == x.version ==> y == x)
  }

  lemma MovesOn(x: RunState, y: RunState, z: RunState)
    requires NotBefore(x, y) && (z == y || Moves(y, z))
    ensures NotBefore(x, z)
  {
    hide Moves;
    if z != y { MovesCount(y, z); }
  }

  /** The version tells whether a run has moved: while it is the same, so is the state. */
  lemma {:induction false} VersionTells(steps: seq<Step>, i: nat, j: nat, r: Id)
    requires i <= j <= |steps| && r in Exec(steps[..i]).runs
    ensures r in Exec(steps[..j]).runs && NotBefore(StateAt(steps, i, r), StateAt(steps, j, r))
    decreases j
  {
    hide Base, Moves, Exec;
    if i < j {
      VersionTells(steps, i, j - 1, r);
      NextState(steps, j - 1, r);
      hide StateAt, NotBefore;
      MovesOn(StateAt(steps, i, r), StateAt(steps, j - 1, r), StateAt(steps, j, r));
    }
  }

  /** Still x, or cancelled in one transition from there. */
  predicate OnTheWay(x: RunState, y: RunState) {
    y == x || (y.status == Cancelled && y.version == x.version + 1)
  }

  lemma GoesOnTheWay(x: RunState, y: RunState, z: RunState)
    requires x.status == Cancelling && OnTheWay(x, y) && (z == y || Moves(y, z))
    ensures OnTheWay(x, z)
  {
    hide Moves;
    if z != y { MovesCount(y, z); }
  }

  /** A run that is cancelling stays so until it is cancelled, and then for ever. */
  lemma {:induction false} CancellingLeadsToCancelled(steps: seq<Step>, i: nat, j: nat, r: Id)
    requires i <= j <= |steps| && r in Exec(steps[..i]).runs && StateAt(steps, i, r).status == Cancelling
    ensures r in Exec(steps[..j]).runs && OnTheWay(StateAt(steps, i, r), StateAt(steps, j, r))
    decreases j
  {
    hide Base, Moves, Exec, OnTheWay;
    if i < j {
      CancellingLeadsToCancelled(steps, i, j - 1, r);
      NextState(steps, j - 1, r);
      hide StateAt;
      GoesOnTheWay(StateAt(steps, i, r), StateAt(steps, j - 1, r), StateAt(steps, j, r));
    } else {
      assert OnTheWay(StateAt(steps, i, r), StateAt(steps, i, r)) by { StaysOnTheWay(StateAt(steps, i, r)); }
    }
  }

  lemma StaysOnTheWay(x: RunState)
    ensures OnTheWay(x, x)
  {
  }

  function AskCancel(scope: string, r: Id, version: int): Move {
    Move(scope, r, version, Cancelling, None, None, None)
  }

  function FinishCancel(scope: string, r: Id, version: int): Move {
    Move(scope, r, version, Cancelled, None, None, None)
  }

  /** What a transition does to the state of a run that exists. */
  lemma TransitState(db: Db, m: Move, id: Id, now: Time)
    requires Base(db) && HasRun(db, m.scope, m.run)
    ensures var x, d := StateOf(db.runs[m.run]), Next(db, Transit(m, id, now));
      var change := StateMachine.Transition(x, m.target, m.expected, m.outcome, m.reason);
      && Rooted(db, m.run)
      && m.run in d.runs
      && (TransitionRun(db, m, id, now).Ok? <==> change.Ok? && !EventIdTaken(db.events, id))
      && (change.Err? ==> TransitionRun(db, m, id, now) == Err(change.error))
      && StateOf(d.runs[m.run]) == if TransitionRun(db, m, id, now).Ok? then change.value.after else x
  {
    Roots(db);
    hide Refs, Pointers, Epochs, Keys, Checks, Numbered;
    if StateMachine.Transition(StateOf(db.runs[m.run]), m.target, m.expected, m.outcome, m.reason).Ok?
       && !EventIdTaken(db.events, id) {
      TransitionHappens(db, m, id, now);
    }
  }

  /** The first transaction of a cancellation, whatever came after the read: it takes effect exactly when
      the run has not moved since, and else reports a conflict. */
  lemma AskedUnlessMoved(steps: seq<Step>, i: nat, j: nat, scope: string, r: Id, id: Id, now: Time)
    requires i <= j < |steps| && HasRun(Exec(steps[..i]), scope, r)
    requires var x := StateAt(steps, i, r);
      !Terminal(x.status) && x.status != Cancelling && steps[j] == Transit(AskCancel(scope, r, x.version), id, now)
    ensures HasRun(Exec(steps[..j]), scope, r) && Rooted(Exec(steps[..j]), r) && r in Exec(steps[..j + 1]).runs
    ensures var x, db := StateAt(steps, i, r), Exec(steps[..j]);
      var effect := TransitionRun(db, AskCancel(scope, r, x.version), id, now);
      && (effect.Ok? <==> StateAt(steps, j, r) == x && !EventIdTaken(db.events, id))
      && (StateAt(steps, j, r) != x ==> effect == Err(StateConflict))
      && (effect.Ok? ==> StateAt(steps, j + 1, r) == RunState(Cancelling, x.version + 1, None, None))
  {
    var x, db := StateAt(steps, i, r), Exec(steps[..j]);
    VersionTells(steps, i, j, r);
    ScopeKept(steps, i, j, r);
    NextState(steps, j, r);
    hide Base, Next, Exec, EventIdTaken, TransitionRun;
    TransitState(db, AskCancel(scope, r, x.version), id, now);
  }

  lemma ScopeKept(steps: seq<Step>, i: nat, j: nat, r: Id)
    requires i <= j <= |steps| && r in Exec(steps[..i]).runs
    ensures r in Exec(steps[..j]).runs && Exec(steps[..j]).runs[r].scope == Exec(steps[..i]).runs[r].scope
  {
    assert steps[..j][..i] == steps[..i];
    HistoryExtends(steps[..j], i);
    assert RunKept(Exec(steps[..i]), Exec(steps[..j]), r);
  }

  lemma FinishTakesEffect(db: Db, scope: string, r: Id, id: Id, now: Time, x: RunState)
    requires Base(db) && HasRun(db, scope, r) && !EventIdTaken(db.events, id)
    requires x.status == Cancelling && OnTheWay(x, StateOf(db.runs[r]))
    ensures var d := Next(db, Transit(FinishCancel(scope, r, x.version), id, now));
      r in d.runs && StateOf(d.runs[r]).status == Cancelled && StateOf(d.runs[r]).version == x.version + 1
  {
    hide Base, Next, EventIdTaken, TransitionRun;
    TransitState(db, FinishCancel(scope, r, x.version), id, now);
  }

  /** Both transactions of a cancellation of a queued run, with anything between them: once the first has
      taken effect, the run is CANCELLED after the second, and for ever. */
  lemma CancelledWhateverComesBetween(steps: seq<Step>, j: nat, k: nat, n: nat, scope: string, r: Id, id: Id, now: Time)
    requires j <= k < n <= |steps| && HasRun(Exec(steps[..j]), scope, r) && StateAt(steps, j, r).status == Cancelling
    requires steps[k] == Transit(FinishCancel(scope, r, StateAt(steps, j, r).version), id, now)
    requires !EventIdTaken(Exec(steps[..k]).events, id)
    ensures r in Exec(steps[..n]).runs
    ensures StateAt(steps, n, r).status == Cancelled && StateAt(steps, n, r).version == StateAt(steps, j, r).version + 1
  {
    hide Base, Next, Exec, EventIdTaken, Moves, OnTheWay;
    var x, db := StateAt(steps, j, r), Exec(steps[..k]);
    CancellingLeadsToCancelled(steps, j, k, r);
    ScopeKept(steps, j, k, r);
    NextState(steps, k, r);
    FinishTakesEffect(db, scope, r, id, now, x);
    CancellingLeadsToCancelled(steps, j, n, r);
    VersionTells(steps, k + 1, n, r);
    hide StateAt;
    EndsCancelled(x, StateAt(steps, n, r));
  }

  lemma EndsCancelled(x: RunState, y: RunState)
    requires OnTheWay(x, y) && y.version > x.version
    ensures y.status == Cancelled && y.version == x.version + 1
  {
  }
}
