/** What every state of the Runtime database satisfies, and what each transaction keeps of it. */
module RunInvariants {
  import opened Outcomes
  import opened StateMachine
  import opened Bindings
  import opened RunTables
  import opened EventLog

  // ----- The invariants -----

  /** Foreign keys, and the agreement of the scope and workspace columns they join. */
  ghost predicate Refs(db: Db) {
    && (forall s :: s in db.sessions ==>
          && db.sessions[s].workspace in db.workspaces
          && db.workspaces[db.sessions[s].workspace].scope == db.sessions[s].scope)
    && (forall r :: r in db.runs ==>
          && db.runs[r].session in db.sessions
          && db.sessions[db.runs[r].session].scope == db.runs[r].scope
          && db.sessions[db.runs[r].session].workspace == db.runs[r].workspace)
    && (forall a :: a in db.attempts ==>
          && db.attempts[a].run in db.runs
          && db.runs[db.attempts[a].run].session == db.attempts[a].session
          && db.runs[db.attempts[a].run].workspace == db.attempts[a].workspace)
    && (forall p :: p in db.pendings ==> db.pendings[p].run in db.runs)
  }

  /** A run that points at an attempt owns its session and its workspace, under their current epochs. */
  ghost predicate Owns(db: Db, r: Id, a: Id)
    requires r in db.runs
  {
    && a in db.attempts && db.attempts[a].run == r && db.attempts[a].ended.None?
    && !Terminal(db.runs[r].status)
    && db.runs[r].session in db.sessions && db.runs[r].workspace in db.workspaces
    && db.sessions[db.runs[r].session].active == Some(r)
    && db.workspaces[db.runs[r].workspace].active == Some(a)
    && db.attempts[a].epoch == db.sessions[db.runs[r].session].epoch
    && db.attempts[a].workspaceEpoch == db.workspaces[db.runs[r].workspace].epoch
  }

  ghost predicate RunPointer(db: Db, r: Id)
    requires r in db.runs
  {
    db.runs[r].attempt.Some? ==> Owns(db, r, db.runs[r].attempt.value)
  }

  ghost predicate SessionPointer(db: Db, s: Id)
    requires s in db.sessions
  {
    db.sessions[s].active.Some? ==>
      var r := db.sessions[s].active.value;
      r in db.runs && db.runs[r].session == s && db.runs[r].attempt.Some?
  }

  ghost predicate WorkspacePointer(db: Db, w: Id)
    requires w in db.workspaces
  {
    db.workspaces[w].active.Some? ==>
      var a := db.workspaces[w].active.value;
      && a in db.attempts && db.attempts[a].workspace == w && db.attempts[a].run in db.runs
      && db.runs[db.attempts[a].run].attempt == Some(a)
  }

  ghost predicate AttemptPointer(db: Db, a: Id)
    requires a in db.attempts
  {
    db.attempts[a].run in db.runs ==>
      || db.runs[db.attempts[a].run].attempt == Some(a)
      || (Terminal(db.runs[db.attempts[a].run].status) && db.attempts[a].ended.Some?)
  }

  /** Every pointer comes from such a run, and an attempt is over only when its run is terminal. */
  ghost predicate Pointers(db: Db) {
    && (forall r {:trigger RunPointer(db, r)} :: r in db.runs ==> RunPointer(db, r))
    && (forall s {:trigger SessionPointer(db, s)} :: s in db.sessions ==> SessionPointer(db, s))
    && (forall w {:trigger WorkspacePointer(db, w)} :: w in db.workspaces ==> WorkspacePointer(db, w))
    && (forall a {:trigger AttemptPointer(db, a)} :: a in db.attempts ==> AttemptPointer(db, a))
  }

  /** Epochs count the claims: none is above the current one of its session or workspace. */
  ghost predicate EpochBounds(db: Db) {
    forall a :: a in db.attempts ==>
      && db.attempts[a].session in db.sessions && db.attempts[a].workspace in db.workspaces
      && 1 <= db.attempts[a].epoch <= db.sessions[db.attempts[a].session].epoch
      && 1 <= db.attempts[a].workspaceEpoch <= db.workspaces[db.attempts[a].workspace].epoch
  }

  /** Two attempts never share a run, nor an epoch of one session or of one workspace. */
  predicate Apart(a: Attempt, b: Attempt) {
    && a.run != b.run
    && (a.session == b.session ==> a.epoch != b.epoch)
    && (a.workspace == b.workspace ==> a.workspaceEpoch != b.workspaceEpoch)
  }

  ghost predicate Distinct(attempts: map<Id, Attempt>) {
    forall a, b {:trigger Apart(attempts[a], attempts[b])} ::
      a in attempts && b in attempts && a != b ==> Apart(attempts[a], attempts[b])
  }

  ghost predicate Epochs(db: Db) {
    EpochBounds(db) && Distinct(db.attempts)
  }

  ghost predicate KeyBounds(db: Db) {
    && (forall r :: r in db.runs && db.runs[r].session in db.sessions ==>
          1 <= db.runs[r].runSeq < db.sessions[db.runs[r].session].nextRun)
    && (forall s :: s in db.sessions ==> db.sessions[s].nextRun >= 1)
  }

  predicate Separate(r: Run, p: Run) {
    r.session == p.session ==> r.runSeq != p.runSeq && r.key != p.key
  }

  /** Run sequence numbers and idempotency keys are unique in a session. */
  ghost predicate Keys(db: Db) {
    && KeyBounds(db)
    && (forall r, p {:trigger Separate(db.runs[r], db.runs[p])} ::
          r in db.runs && p in db.runs && r != p ==> Separate(db.runs[r], db.runs[p]))
  }

  ghost predicate Checks(db: Db) {
    forall r {:trigger RowChecks(StateOf(db.runs[r]))} :: r in db.runs ==> RowChecks(StateOf(db.runs[r]))
  }

  /** The six sides of consistency. */
  datatype Side = References | Ownership | EpochOrder | Uniqueness | Constraints | EventNumbers

  ghost predicate Holds(db: Db, side: Side) {
    match side
    case References => Refs(db)
    case Ownership => Pointers(db)
    case EpochOrder => Epochs(db)
    case Uniqueness => Keys(db)
    case Constraints => Checks(db)
    case EventNumbers => Numbered(db)
  }

  /** A consistent database.  It is said side by side so that a proof meets only the sides it asks for. */
  ghost predicate Base(db: Db) {
    forall side {:trigger Holds(db, side)} :: Holds(db, side)
  }

  lemma Sides(db: Db)
    requires Base(db)
    ensures Refs(db) && Pointers(db) && Epochs(db) && Keys(db) && Checks(db) && Numbered(db)
  {
    assert Holds(db, References) && Holds(db, Ownership) && Holds(db, EpochOrder);
    assert Holds(db, Uniqueness) && Holds(db, Constraints) && Holds(db, EventNumbers);
  }

  /** RUNNING, waiting and recovering runs have an attempt. */
  ghost predicate Owned(db: Db) {
    forall r :: r in db.runs && Active(db.runs[r].status) ==> db.runs[r].attempt.Some?
  }

  /** A run that no later step can put back into the queue. */
  predicate Settled(run: Run) {
    Terminal(run.status) || (run.status == Cancelling && run.attempt.None?)
  }

  /** Run p was submitted before the run of attempt a, in the same session. */
  predicate Precedes(db: Db, p: Id, a: Id) {
    && p in db.runs && a in db.attempts && db.attempts[a].run in db.runs
    && db.runs[p].session == db.attempts[a].session
    && db.runs[p].runSeq < db.runs[db.attempts[a].run].runSeq
  }

  /** Attempt a was claimed before attempt b, in the same session. */
  predicate ClaimedBefore(db: Db, a: Id, b: Id) {
    && a in db.attempts && b in db.attempts && db.attempts[a].run in db.runs && db.attempts[b].run in db.runs
    && db.attempts[a].session == db.attempts[b].session && db.attempts[a].epoch < db.attempts[b].epoch
  }

  /** Every run before a claimed one is settled, and claims went in run order. */
  ghost predicate Fifo(db: Db) {
    && (forall a, p :: Precedes(db, p, a) ==> Settled(db.runs[p]))
    && (forall a, b :: ClaimedBefore(db, a, b) ==>
          db.runs[db.attempts[a].run].runSeq < db.runs[db.attempts[b].run].runSeq)
  }

  /** Only event numbering differs. */
  ghost predicate SameRows(db: Db, d: Db) {
    && d.workspaces == db.workspaces && d.attempts == db.attempts && d.revisions == db.revisions
    && d.pendings == db.pendings && d.runs.Keys == db.runs.Keys && d.sessions.Keys == db.sessions.Keys
    && (forall r :: r in db.runs ==> r in d.runs && d.runs[r] == db.runs[r].(nextEvent := d.runs[r].nextEvent))
    && (forall s :: s in db.sessions ==>
          s in d.sessions && d.sessions[s] == db.sessions[s].(nextEvent := d.sessions[s].nextEvent))
  }

  lemma InsertKeepsRows(db: Db, r: Id, kind: EventKind, data: EventData, id: Id)
    requires r in db.runs && db.runs[r].session in db.sessions
    requires Insert(db, r, kind, data, id).Ok?
    ensures SameRows(db, Insert(db, r, kind, data, id).value)
  {
  }

  lemma RowsFrame(db: Db, d: Db)
    requires SameRows(db, d) && Refs(db) && Pointers(db) && Epochs(db) && Keys(db) && Checks(db)
    ensures Refs(d) && Pointers(d) && Epochs(d) && Keys(d) && Checks(d)
  {
    RefsFrame(db, d);
    PointersFrame(db, d);
    EpochsFrame(db, d);
    KeysFrame(db, d);
    ChecksFrame(db, d);
  }

  lemma ChecksFrame(db: Db, d: Db)
    requires SameRows(db, d) && Checks(db)
    ensures Checks(d)
  {
    forall r | r in d.runs ensures RowChecks(StateOf(d.runs[r])) {
      assert RowChecks(StateOf(db.runs[r]));
    }
  }

  lemma RefsFrame(db: Db, d: Db)
    requires SameRows(db, d) && Refs(db)
    ensures Refs(d)
  {
  }

  lemma PointersFrame(db: Db, d: Db)
    requires SameRows(db, d) && Pointers(db)
    ensures Pointers(d)
  {
    forall r | r in d.runs ensures RunPointer(d, r) { assert RunPointer(db, r); }
    forall s | s in d.sessions ensures SessionPointer(d, s) { assert SessionPointer(db, s); }
    forall w | w in d.workspaces ensures WorkspacePointer(d, w) { assert WorkspacePointer(db, w); }
    forall a | a in d.attempts ensures AttemptPointer(d, a) { assert AttemptPointer(db, a); }
  }

  lemma EpochsFrame(db: Db, d: Db)
    requires SameRows(db, d) && Epochs(db)
    ensures Epochs(d)
  {
  }

  lemma KeysFrame(db: Db, d: Db)
    requires SameRows(db, d) && Keys(db)
    ensures Keys(d)
  {
    forall r, p | r in d.runs && p in d.runs && r != p ensures Separate(d.runs[r], d.runs[p]) {
      assert Separate(db.runs[r], db.runs[p]);
    }
  }

  lemma FifoFrame(db: Db, d: Db)
    requires SameRows(db, d) && Fifo(db)
    ensures Fifo(d)
  {
    forall a, p | Precedes(d, p, a) ensures Settled(d.runs[p]) {
      assert Precedes(db, p, a);
    }
    forall a, b | ClaimedBefore(d, a, b)
      ensures d.runs[d.attempts[a].run].runSeq < d.runs[d.attempts[b].run].runSeq
    {
      assert ClaimedBefore(db, a, b);
    }
  }
}
