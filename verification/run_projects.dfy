/** Projects and their workspaces: the sessions of one project share a workspace, sessions of different
    projects never do, and a project's identity never changes. */
module RunProjects {
  import opened Outcomes
  import opened StateMachine
  import opened Bindings
  import opened RunTables
  import opened EventLog
  import opened RunInvariants
  import opened RunSteps
  import opened RunHistories

  /** A scope has one workspace for each project. */
  ghost predicate OnePerProject(db: Db) {
    forall v, w {:trigger SameProject(db, v, w)} ::
      v in db.workspaces && w in db.workspaces && SameProject(db, v, w) ==> v == w
  }

  predicate SameProject(db: Db, v: Id, w: Id)
    requires v in db.workspaces && w in db.workspaces
  {
    var x, y := db.workspaces[v], db.workspaces[w];
    x.scope == y.scope && x.columns.Some? && y.columns.Some? && x.columns.value.project == y.columns.value.project
  }

  predicate SameIdentity(x: Option<Columns>, y: Option<Columns>) {
    match x
    case None => y.None?
    case Some(c) => y.Some? && y.value.tenant == c.tenant && y.value.user == c.user && y.value.project == c.project
  }

  predicate IdentityKept(db: Db, d: Db, w: Id)
    requires w in db.workspaces
  {
    && w in d.workspaces && d.workspaces[w].scope == db.workspaces[w].scope
    && SameIdentity(db.workspaces[w].columns, d.workspaces[w].columns)
  }

  ghost predicate Keeps(db: Db, d: Db) {
    forall w {:trigger IdentityKept(db, d, w)} :: w in db.workspaces ==> IdentityKept(db, d, w)
  }

  lemma SameWorkspacesKept(db: Db, d: Db)
    requires OnePerProject(db) && Keeps(db, d) && d.workspaces.Keys == db.workspaces.Keys
    ensures OnePerProject(d)
  {
    forall v, w | v in d.workspaces && w in d.workspaces && SameProject(d, v, w) ensures v == w {
      assert IdentityKept(db, d, v) && IdentityKept(db, d, w);
      assert SameProject(db, v, w);
    }
  }

  // ----- create_session -----

  /** The project has a workspace in this scope. */
  ghost predicate HasWorkspace(db: Db, scope: string, project: string) {
    exists x :: HasProject(db, scope, project, x)
  }

  /** Session s was created in workspace x, whose columns are those of the binding, and nothing else differs. */
  predicate CreatedIn(db: Db, d: Db, scope: string, binding: Option<UserBinding>, s: Id, x: Id) {
    && d.sessions == db.sessions[s := Session(scope, x, 1, 1, 0, None)]
    && x in d.workspaces && d.workspaces[x].scope == scope
    && d.workspaces[x].columns == (if binding.Some? then Some(Stored(binding.value)) else None)
    && d == db.(workspaces := db.workspaces[x := d.workspaces[x]], sessions := d.sessions)
    && (x in db.workspaces ==> d.workspaces[x] == db.workspaces[x].(columns := d.workspaces[x].columns))
    && (x !in db.workspaces ==> d.workspaces[x] == Workspace(scope, d.workspaces[x].columns, None, None, 0, None))
  }

  /** Joining workspace x, which has the project: its tenant and user must be the binding's. */
  predicate Joins(db: Db, created: Outcome<Db>, scope: string, binding: UserBinding, s: Id, x: Id) {
    && HasProject(db, scope, binding.project, x)
    && var had := db.workspaces[x].columns.value;
    if had.tenant != binding.tenant || had.user != binding.user then created == Err(IdempotencyConflict)
    else if s in db.sessions then created == Err(Integrity)
    else created.Ok? && CreatedIn(db, created.value, scope, Some(binding), s, x)
  }

  /** What create_session does: it joins the workspace of its project, if that has the same tenant and user,
      or opens one; a session without a binding has a workspace of its own. */
  lemma CreateExactly(db: Db, scope: string, binding: Option<UserBinding>, s: Id, w: Id)
    ensures var created := CreateSession(db, scope, binding, s, w);
      if binding.Some? && HasWorkspace(db, scope, binding.value.project) then
        exists x :: Joins(db, created, scope, binding.value, s, x)
      else if w in db.workspaces || s in db.sessions then created == Err(Integrity)
      else created.Ok? && CreatedIn(db, created.value, scope, binding, s, w)
  {
    if binding.Some? && HasWorkspace(db, scope, binding.value.project) {
      var x :| HasProject(db, scope, binding.value.project, x)
               && CreateSession(db, scope, binding, s, w) == JoinWorkspace(db, scope, x, Stored(binding.value), s);
      JoinIsExact(db, scope, binding.value, s, x);
    } else {
      OpenIsExact(db, scope, binding, s, w);
    }
  }

  lemma JoinIsExact(db: Db, scope: string, binding: UserBinding, s: Id, x: Id)
    requires HasProject(db, scope, binding.project, x)
    ensures Joins(db, JoinWorkspace(db, scope, x, Stored(binding), s), scope, binding, s, x)
  {
    var joined := JoinWorkspace(db, scope, x, Stored(binding), s);
    if joined.Ok? { assert joined.value.workspaces == db.workspaces[x := joined.value.workspaces[x]]; }
  }

  lemma OpenIsExact(db: Db, scope: string, binding: Option<UserBinding>, s: Id, w: Id)
    ensures var made := OpenWorkspace(db, scope, if binding.Some? then Some(Stored(binding.value)) else None, s, w);
      if w in db.workspaces || s in db.sessions then made == Err(Integrity)
      else made.Ok? && CreatedIn(db, made.value, scope, binding, s, w)
  {
    var made := OpenWorkspace(db, scope, if binding.Some? then Some(Stored(binding.value)) else None, s, w);
    if made.Ok? { assert made.value.workspaces == db.workspaces[w := made.value.workspaces[w]]; }
  }

  lemma JoinKeepsProjects(db: Db, d: Db, scope: string, binding: UserBinding, s: Id, x: Id)
    requires OnePerProject(db) && Joins(db, Ok(d), scope, binding, s, x)
    ensures OnePerProject(d) && Keeps(db, d) && CreatedIn(db, d, scope, Some(binding), s, x)
  {
    forall w | w in db.workspaces ensures IdentityKept(db, d, w) {}
    SameWorkspacesKept(db, d);
  }

  lemma OpenKeepsProjects(db: Db, d: Db, scope: string, binding: Option<UserBinding>, s: Id, w: Id)
    requires OnePerProject(db) && w !in db.workspaces && CreatedIn(db, d, scope, binding, s, w)
    requires binding.Some? ==> !HasWorkspace(db, scope, binding.value.project)
    ensures OnePerProject(d) && Keeps(db, d)
  {
    forall v, x | v in d.workspaces && x in d.workspaces && SameProject(d, v, x) ensures v == x {
      if v != w && x != w { assert SameProject(db, v, x); }
      if x != w { NoneHasProject(db, scope, binding, x); }
      if v != w { NoneHasProject(db, scope, binding, v); }
    }
  }

  lemma NoneHasProject(db: Db, scope: string, binding: Option<UserBinding>, x: Id)
    requires binding.Some? ==> !HasWorkspace(db, scope, binding.value.project)
    ensures binding.Some? ==> !HasProject(db, scope, binding.value.project, x)
  {
  }

  /** The workspace of a created session. */
  ghost predicate CreatedSomewhere(db: Db, d: Db, scope: string, binding: Option<UserBinding>, s: Id, w: Id) {
    exists x :: CreatedIn(db, d, scope, binding, s, x) && (binding.None? ==> x == w && w !in db.workspaces)
  }

  lemma CreateKeepsProjects(db: Db, scope: string, binding: Option<UserBinding>, s: Id, w: Id)
    requires OnePerProject(db) && CreateSession(db, scope, binding, s, w).Ok?
    ensures var d := CreateSession(db, scope, binding, s, w).value;
      OnePerProject(d) && Keeps(db, d) && CreatedSomewhere(db, d, scope, binding, s, w)
  {
    CreateExactly(db, scope, binding, s, w);
    var d := CreateSession(db, scope, binding, s, w).value;
    hide CreateSession, CreatedIn, OnePerProject, Keeps;
    if binding.Some? && HasWorkspace(db, scope, binding.value.project) {
      var x :| Joins(db, Ok(d), scope, binding.value, s, x);
      JoinKeepsProjects(db, d, scope, binding.value, s, x);
    } else {
      OpenKeepsProjects(db, d, scope, binding, s, w);
    }
  }

  // ----- Every other transaction leaves projects alone -----

  lemma TransitKeepsProjects(db: Db, m: Move, id: Id, now: Time)
    requires (m.run in db.runs ==> Rooted(db, m.run)) && TransitionRun(db, m, id, now).Ok?
    ensures var d := TransitionRun(db, m, id, now).value; Keeps(db, d) && d.workspaces.Keys == db.workspaces.Keys
  {
    hide EventIdTaken, Transition;
  }

  lemma AcceptKeepsProjects(db: Db, q: Request, r: Id, id: Id, now: Time)
    requires Accept(db, q, r, id, now).Ok?
    ensures Accept(db, q, r, id, now).value.0.workspaces == db.workspaces
  {
    hide EventIdTaken, BindingCheck, Busy;
  }

  lemma ClaimKeepsProjects(db: Db, r: Id, a: Id, id: Id, now: Time, until: Time)
    requires r in db.runs && HasSession(db, db.runs[r].scope, db.runs[r].session) && Claim(db, r, a, id, now, until).Ok?
    ensures var d := Claim(db, r, a, id, now, until).value; Keeps(db, d) && d.workspaces.Keys == db.workspaces.Keys
  {
    hide EventIdTaken, EpochTaken;
  }

  lemma RespondKeepsProjects(db: Db, y: Reply, id: Id)
    requires (y.run in db.runs ==> Rooted(db, y.run)) && Respond(db, y, id).Ok?
    ensures Respond(db, y, id).value.workspaces == db.workspaces
  {
    hide EventIdTaken, ReplyKeyTaken, Transition;
  }

  lemma NextProjects(db: Db, step: Step)
    requires Base(db) && OnePerProject(db)
    ensures OnePerProject(Next(db, step)) && Keeps(db, Next(db, step))
  {
    if Effect(db, step).Ok? {
      Roots(db);
      var d := Next(db, step);
      hide CreateSession, Accept, Claim, TransitionRun, Respond, Refs, Pointers, Epochs, Keys, Checks, Numbered, OnePerProject;
      match step {
        case Create(scope, binding, s, w) => CreateKeepsProjects(db, scope, binding, s, w);
        case Submit(q, r, id, now) => AcceptKeepsProjects(db, q, r, id, now);
        case ClaimNext(only, r, a, id, now, until) => if NextClaim(db, only, now, r) { ClaimKeepsProjects(db, r, a, id, now, until); }
        case Transit(m, id, now) => TransitKeepsProjects(db, m, id, now);
        case Resume(y, id) => RespondKeepsProjects(db, y, id);
        case _ =>
      }
      if !step.Create? { SameWorkspacesKept(db, d); }
    }
  }

  // ----- Over whole histories -----

  lemma {:induction false} HistoryOnePerProject(steps: seq<Step>)
    ensures OnePerProject(Exec(steps))
  {
    if steps != [] {
      HistoryOnePerProject(steps[..|steps| - 1]);
      hide Next, OnePerProject;
      NextProjects(Exec(steps[..|steps| - 1]), steps[|steps| - 1]);
    }
  }

  lemma LastKeeps(steps: seq<Step>)
    requires steps != []
    ensures Keeps(Exec(steps[..|steps| - 1]), Exec(steps))
  {
    HistoryOnePerProject(steps[..|steps| - 1]);
    hide Next, OnePerProject, Keeps, Base;
    NextProjects(Exec(steps[..|steps| - 1]), steps[|steps| - 1]);
  }

  lemma IdentityTransitive(a: Db, b: Db, c: Db, w: Id)
    requires w in a.workspaces && IdentityKept(a, b, w) && Keeps(b, c)
    ensures IdentityKept(a, c, w)
  {
    assert IdentityKept(b, c, w);
  }

  lemma IdentityReflexive(db: Db, w: Id)
    requires w in db.workspaces
    ensures IdentityKept(db, db, w)
  {
  }

  /** A workspace never changes its scope, tenant, user or project. */
  lemma {:induction false} IdentityNeverChanges(steps: seq<Step>, n: nat, w: Id)
    requires n <= |steps| && w in Exec(steps[..n]).workspaces
    ensures IdentityKept(Exec(steps[..n]), Exec(steps), w)
  {
    hide Exec, IdentityKept, Keeps;
    if n == |steps| {
      assert steps[..n] == steps;
      IdentityReflexive(Exec(steps), w);
    } else {
      var init := steps[..|steps| - 1];
      assert init[..n] == steps[..n];
      IdentityNeverChanges(init, n, w);
      LastKeeps(steps);
      IdentityTransitive(Exec(steps[..n]), Exec(init), Exec(steps), w);
    }
  }

  /** Step i creates session s. */
  ghost predicate Creates(steps: seq<Step>, i: nat, s: Id) {
    && i < |steps| && steps[i].Create? && steps[i].session == s
    && s !in Exec(steps[..i]).sessions && s in Exec(steps[..i + 1]).sessions
  }

  /** A session's workspace has the identity that the session was created with; one created without a
      binding has the workspace that it was created with, which was new. */
  ghost predicate Belongs(db: Db, step: Step)
    requires step.Create?
  {
    && step.session in db.sessions && db.sessions[step.session].scope == step.scope
    && var w := db.sessions[step.session].workspace;
    && w in db.workspaces && db.workspaces[w].scope == step.scope
    && SameIdentity(if step.binding.Some? then Some(Stored(step.binding.value)) else None, db.workspaces[w].columns)
    && (step.binding.None? ==> w == step.workspace)
  }

  lemma CreateStep(steps: seq<Step>, i: nat, s: Id)
    requires Creates(steps, i, s)
    ensures Belongs(Exec(steps[..i + 1]), steps[i])
    ensures steps[i].binding.None? ==> steps[i].workspace !in Exec(steps[..i]).workspaces
    ensures steps[i].binding.Some? ==>
              var d := Exec(steps[..i + 1]);
              d.workspaces[d.sessions[s].workspace].columns == Some(Stored(steps[i].binding.value))
  {
    var db, step := Exec(steps[..i]), steps[i];
    assert steps[..i + 1][..i] == steps[..i];
    HistoryOnePerProject(steps[..i]);
    hide Base, CreateSession, OnePerProject;
    CreateKeepsProjects(db, step.scope, step.binding, s, step.workspace);
    hide Keeps;
    assert Exec(steps[..i + 1]) == CreateSession(db, step.scope, step.binding, s, step.workspace).value;
  }

  lemma StillBelongs(steps: seq<Step>, i: nat, s: Id)
    requires Creates(steps, i, s)
    ensures Belongs(Exec(steps), steps[i])
  {
    CreateStep(steps, i, s);
    var db := Exec(steps[..i + 1]);
    IdentityNeverChanges(steps, i + 1, db.sessions[s].workspace);
    HistoryExtends(steps, i + 1);
    hide Exec;
    assert SessionKept(db, Exec(steps), s);
  }

  /** Two sessions share a workspace if and only if they were created for one project of one scope. */
  lemma ProjectsShareWorkspaces(steps: seq<Step>, i: nat, j: nat, s: Id, t: Id)
    requires Creates(steps, i, s) && Creates(steps, j, t) && i < j
    ensures s in Exec(steps).sessions && t in Exec(steps).sessions
    ensures Exec(steps).sessions[s].workspace == Exec(steps).sessions[t].workspace <==>
              && steps[i].scope == steps[j].scope && steps[i].binding.Some? && steps[j].binding.Some?
              && steps[i].binding.value.project == steps[j].binding.value.project
  {
    StillBelongs(steps, i, s);
    StillBelongs(steps, j, t);
    HistoryOnePerProject(steps);
    var db := Exec(steps);
    var v, w := db.sessions[s].workspace, db.sessions[t].workspace;
    if steps[i].binding.None? && steps[j].binding.None? { OwnWorkspace(steps, i, j, s, t); }
    hide Exec, Creates;
    assert v in db.workspaces && w in db.workspaces && (SameProject(db, v, w) ==> v == w);
  }

  lemma OwnWorkspace(steps: seq<Step>, i: nat, j: nat, s: Id, t: Id)
    requires Creates(steps, i, s) && Creates(steps, j, t) && i < j
    requires steps[i].binding.None? && steps[j].binding.None?
    ensures steps[i].workspace != steps[j].workspace
  {
    CreateStep(steps, i, s);
    CreateStep(steps, j, t);
    assert steps[..j][..i + 1] == steps[..i + 1];
    HistoryExtends(steps[..j], i + 1);
    hide Exec;
    assert WorkspaceKept(Exec(steps[..i + 1]), Exec(steps[..j]), steps[i].workspace);
  }
}
