/** Workspace revisions over whole histories: one parent chain for each workspace, written under the
    lease of the day. */
module RunRevisions {
  import opened Outcomes
  import opened StateMachine
  import opened RunTables
  import opened RunInvariants
  import opened RunSteps
  import opened RunHistories

  /** What one step publishes. */
  ghost function Published(db: Db, step: Step): seq<Publication>
    requires Base(db)
  {
    if step.Commit? && Publish(db, step.scope, step.publication, step.now).Ok? then [step.publication] else []
  }

  /** The revisions a history published, in the order it published them. */
  ghost function Publications(steps: seq<Step>): seq<Publication> {
    if steps == [] then []
    else
      var init := steps[..|steps| - 1];
      Publications(init) + Published(Exec(init), steps[|steps| - 1])
  }

  function OfWorkspace(pubs: seq<Publication>, w: Id): seq<Publication> {
    if pubs == [] then []
    else
      var last := pubs[|pubs| - 1];
      OfWorkspace(pubs[..|pubs| - 1], w) + if last.workspace == w then [last] else []
  }

  /** Publication i of the chain is a revision whose parent is publication i - 1, and was made by an
      attempt of this workspace under the epoch that the attempt was given. */
  ghost predicate Link(db: Db, chain: seq<Publication>, w: Id, i: nat)
    requires i < |chain|
  {
    var p := chain[i];
    && p.workspace == w && p.revision in db.revisions && db.revisions[p.revision].workspace == w
    && db.revisions[p.revision].parent == (if i == 0 then None else Some(chain[i - 1].revision))
    && p.attempt in db.attempts && db.attempts[p.attempt].workspace == w
    && db.attempts[p.attempt].workspaceEpoch == p.epoch
    && w in db.workspaces && p.epoch <= db.workspaces[w].epoch
  }

  /** The revisions of w are exactly this chain: it is linear, ends at current_revision, repeats
      nothing, and its publishers' epochs never decrease. */
  ghost predicate Chain(db: Db, chain: seq<Publication>, w: Id)
    requires w in db.workspaces
  {
    && (forall i {:trigger Link(db, chain, w, i)} :: 0 <= i < |chain| ==> Link(db, chain, w, i))
    && db.workspaces[w].current == (if chain == [] then None else Some(chain[|chain| - 1].revision))
    && (forall i, j {:trigger InOrder(chain[i], chain[j])} :: 0 <= i < j < |chain| ==> InOrder(chain[i], chain[j]))
    && (forall v {:trigger Lists(chain, v)} :: v in db.revisions && db.revisions[v].workspace == w ==> Lists(chain, v))
  }

  predicate InOrder(p: Publication, q: Publication) {
    p.revision != q.revision && p.epoch <= q.epoch
  }

  predicate Lists(chain: seq<Publication>, v: Id) {
    exists i :: 0 <= i < |chain| && chain[i].revision == v
  }

  ghost predicate Chained(db: Db, pubs: seq<Publication>) {
    && (forall w :: w in db.workspaces ==> Chain(db, OfWorkspace(pubs, w), w))
    && (forall v :: v in db.revisions ==> db.revisions[v].workspace in db.workspaces)
    && (forall i :: 0 <= i < |pubs| ==> pubs[i].workspace in db.workspaces)
  }

  lemma {:induction false} OfWorkspaceMembers(pubs: seq<Publication>, w: Id)
    requires forall i :: 0 <= i < |pubs| ==> pubs[i].workspace != w
    ensures OfWorkspace(pubs, w) == []
  {
    if pubs != [] { OfWorkspaceMembers(pubs[..|pubs| - 1], w); }
  }

  /** A step that publishes nothing leaves every chain as it was, and starts none. */
  ghost predicate PublishesNothing(db: Db, d: Db) {
    && d.revisions == db.revisions
    && (forall w :: w in db.workspaces ==> w in d.workspaces && d.workspaces[w].current == db.workspaces[w].current)
    && (forall w :: w in d.workspaces && w !in db.workspaces ==> d.workspaces[w].current.None?)
  }

  lemma ChainsKept(db: Db, d: Db, pubs: seq<Publication>)
    requires Chained(db, pubs) && Extends(db, d) && PublishesNothing(db, d)
    ensures Chained(d, pubs)
  {
    forall w | w in d.workspaces ensures Chain(d, OfWorkspace(pubs, w), w) {
      var chain := OfWorkspace(pubs, w);
      if w in db.workspaces {
        assert WorkspaceKept(db, d, w);
        forall i | 0 <= i < |chain| ensures Link(d, chain, w, i) {
          assert Link(db, chain, w, i);
          assert AttemptKept(db, d, chain[i].attempt);
        }
        forall i, j | 0 <= i < j < |chain| ensures InOrder(chain[i], chain[j]) {}
        forall v | v in d.revisions && d.revisions[v].workspace == w ensures Lists(chain, v) {}
      } else {
        OfWorkspaceMembers(pubs, w);
      }
    }
    forall v | v in d.revisions ensures d.revisions[v].workspace in d.workspaces {
      assert WorkspaceKept(db, d, db.revisions[v].workspace);
    }
    forall i | 0 <= i < |pubs| ensures pubs[i].workspace in d.workspaces {
      assert WorkspaceKept(db, d, pubs[i].workspace);
    }
  }

  /** Whoever holds a workspace holds it under its current epoch. */
  lemma HolderHasCurrentEpoch(db: Db, w: Id, a: Id)
    requires Base(db) && w in db.workspaces && db.workspaces[w].active == Some(a)
    ensures a in db.attempts && db.attempts[a].workspace == w
    ensures db.attempts[a].workspaceEpoch == db.workspaces[w].epoch
  {
    assert Holds(db, References) && Holds(db, Ownership);
    assert WorkspacePointer(db, w);
    assert RunPointer(db, db.attempts[a].run);
  }

  lemma PublishChains(db: Db, scope: string, p: Publication, now: Time, pubs: seq<Publication>)
    requires Base(db) && Chained(db, pubs) && Publish(db, scope, p, now).Ok?
    ensures Chained(Publish(db, scope, p, now).value, pubs + [p])
  {
    HolderHasCurrentEpoch(db, p.workspace, p.attempt);
    AdvanceChains(db, scope, p, pubs);
  }

  /** The publisher is an attempt of the workspace, under the workspace's current epoch. */
  ghost predicate HoldsLease(db: Db, p: Publication) {
    && p.workspace in db.workspaces && p.attempt in db.attempts && db.attempts[p.attempt].workspace == p.workspace
    && db.attempts[p.attempt].workspaceEpoch == p.epoch == db.workspaces[p.workspace].epoch
  }

  lemma AdvanceChains(db: Db, scope: string, p: Publication, pubs: seq<Publication>)
    requires Chained(db, pubs) && HoldsLease(db, p) && p.revision !in db.revisions
    ensures Chained(Advance(db, scope, p), pubs + [p])
  {
    var d := Advance(db, scope, p);
    assert (pubs + [p])[..|pubs|] == pubs;
    forall w | w in d.workspaces ensures Chain(d, OfWorkspace(pubs + [p], w), w) {
      var chain := OfWorkspace(pubs, w);
      assert Chain(db, chain, w);
      if w == p.workspace {
        ExtendChain(db, scope, chain, p);
      } else {
        assert OfWorkspace(pubs + [p], w) == chain;
        KeepChain(db, d, chain, w);
      }
    }
  }

  lemma KeepChain(db: Db, d: Db, chain: seq<Publication>, w: Id)
    requires w in db.workspaces && Chain(db, chain, w)
    requires w in d.workspaces && d.workspaces[w] == db.workspaces[w] && d.attempts == db.attempts
    requires forall v :: v in db.revisions ==> v in d.revisions && d.revisions[v] == db.revisions[v]
    requires forall v :: v in d.revisions && v !in db.revisions ==> d.revisions[v].workspace != w
    ensures Chain(d, chain, w)
  {
    forall i | 0 <= i < |chain| ensures Link(d, chain, w, i) { assert Link(db, chain, w, i); }
    forall i, j | 0 <= i < j < |chain| ensures InOrder(chain[i], chain[j]) {}
    forall v | v in d.revisions && d.revisions[v].workspace == w ensures Lists(chain, v) {}
  }

  lemma ExtendChain(db: Db, scope: string, chain: seq<Publication>, p: Publication)
    requires HoldsLease(db, p) && Chain(db, chain, p.workspace) && p.revision !in db.revisions
    ensures Chain(Advance(db, scope, p), chain + [p], p.workspace)
  {
    var d, longer := Advance(db, scope, p), chain + [p];
    forall i | 0 <= i < |longer| ensures Link(d, longer, p.workspace, i) {
      if i < |chain| { assert Link(db, chain, p.workspace, i); }
    }
    forall i, j | 0 <= i < j < |longer| ensures InOrder(longer[i], longer[j]) {
      assert Link(db, chain, p.workspace, i);
      if j < |chain| { assert InOrder(chain[i], chain[j]); }
    }
    forall v | v in d.revisions && d.revisions[v].workspace == p.workspace ensures Lists(longer, v) {
      if v == p.revision {
        assert longer[|chain|].revision == v;
      } else {
        assert Lists(chain, v);
        var i :| 0 <= i < |chain| && chain[i].revision == v;
        assert longer[i].revision == v;
      }
    }
  }

  /** Workspace pointers and revisions that a step does not touch. */
  lemma TransitionPublishesNothing(db: Db, m: Move, id: Id, now: Time)
    requires (m.run in db.runs ==> Rooted(db, m.run)) && TransitionRun(db, m, id, now).Ok?
    ensures PublishesNothing(db, TransitionRun(db, m, id, now).value)
  {
  }

  lemma AcceptPublishesNothing(db: Db, q: Request, r: Id, id: Id, now: Time)
    requires Accept(db, q, r, id, now).Ok?
    ensures PublishesNothing(db, Accept(db, q, r, id, now).value.0)
  {
  }

  lemma RespondPublishesNothing(db: Db, y: Reply, id: Id)
    requires (y.run in db.runs ==> Rooted(db, y.run)) && Respond(db, y, id).Ok?
    ensures PublishesNothing(db, Respond(db, y, id).value)
  {
  }

  lemma CreatePublishesNothing(db: Db, d: Db, s: Id)
    requires AddsSession(db, d, s)
    ensures PublishesNothing(db, d)
  {
  }

  lemma ClaimPublishesNothing(db: Db, r: Id, a: Id, id: Id, now: Time, until: Time)
    requires r in db.runs && HasSession(db, db.runs[r].scope, db.runs[r].session) && Claim(db, r, a, id, now, until).Ok?
    ensures PublishesNothing(db, Claim(db, r, a, id, now, until).value)
  {
  }

  lemma InsertPublishesNothing(db: Db, r: Id, kind: EventKind, data: EventData, id: Id)
    requires r in db.runs && db.runs[r].session in db.sessions && Insert(db, r, kind, data, id).Ok?
    ensures PublishesNothing(db, Insert(db, r, kind, data, id).value)
  {
  }

  lemma OnlyCommitPublishes(db: Db, step: Step)
    requires Base(db) && !step.Commit? && Effect(db, step).Ok?
    ensures PublishesNothing(db, Effect(db, step).value)
  {
    Roots(db);
    match step
    case Create(scope, binding, s, w) =>
      CreateShape(db, scope, binding, s, w);
      CreatePublishesNothing(db, Effect(db, step).value, s);
    case Submit(q, r, id, now) => AcceptPublishesNothing(db, q, r, id, now);
    case ClaimNext(only, r, a, id, now, until) =>
      if NextClaim(db, only, now, r) { ClaimPublishesNothing(db, r, a, id, now, until); }
    case Transit(m, id, now) => TransitionPublishesNothing(db, m, id, now);
    case Resume(y, id) => RespondPublishesNothing(db, y, id);
    case Record(scope, r, kind, data, id) => InsertPublishesNothing(db, r, kind, data, id);
    case Question(r, p) =>
  }

  /** Every workspace's revisions form one linear chain ending at its current revision. */
  lemma {:induction false} HistoryIsChained(steps: seq<Step>)
    ensures Chained(Exec(steps), Publications(steps))
  {
    if steps == [] {
      NothingIsChained();
    } else {
      var init, last := steps[..|steps| - 1], steps[|steps| - 1];
      HistoryIsChained(init);
      NextIsChained(Exec(init), last, Publications(init));
    }
  }

  lemma NothingIsChained()
    ensures Chained(EMPTY, [])
  {
  }

  lemma NextIsChained(db: Db, step: Step, pubs: seq<Publication>)
    requires Base(db) && Chained(db, pubs)
    ensures Chained(Next(db, step), pubs + Published(db, step))
  {
    if step.Commit? && Publish(db, step.scope, step.publication, step.now).Ok? {
      PublishChains(db, step.scope, step.publication, step.now, pubs);
    } else {
      UnpublishedIsChained(db, step, pubs);
      assert pubs + [] == pubs;
    }
  }

  lemma UnpublishedIsChained(db: Db, step: Step, pubs: seq<Publication>)
    requires Base(db) && Chained(db, pubs) && Published(db, step) == []
    ensures Chained(Next(db, step), pubs)
  {
    if Effect(db, step).Ok? {
      OnlyCommitPublishes(db, step);
      NextExtends(db, step);
      ChainsKept(db, Next(db, step), pubs);
    }
  }

  /** The chain of one workspace, as the tables show it. */
  lemma RevisionChain(steps: seq<Step>, w: Id)
    requires w in Exec(steps).workspaces
    ensures Chain(Exec(steps), OfWorkspace(Publications(steps), w), w)
  {
    HistoryIsChained(steps);
  }

  /** An attempt that has lost its workspace can publish nothing, under any arguments. */
  lemma ReleasedCannotPublish(db: Db, scope: string, p: Publication, now: Time)
    requires Base(db) && Released(db, p.attempt)
    ensures Publish(db, scope, p, now).Err?
  {
    if p.workspace in db.workspaces && db.workspaces[p.workspace].active == Some(p.attempt) {
      HolderHasCurrentEpoch(db, p.workspace, p.attempt);
    }
  }

  /** Fencing over whole histories: after an attempt has been released, no later publication is its. */
  lemma {:induction false} NoPublicationAfterRelease(steps: seq<Step>, n: nat, a: Id)
    requires n <= |steps| && Released(Exec(steps[..n]), a)
    ensures Publications(steps[..n]) <= Publications(steps)
    ensures forall i :: |Publications(steps[..n])| <= i < |Publications(steps)| ==> Publications(steps)[i].attempt != a
  {
    if n == |steps| {
      assert steps[..n] == steps;
    } else {
      var init, last := steps[..|steps| - 1], steps[|steps| - 1];
      assert init[..n] == steps[..n];
      NoPublicationAfterRelease(init, n, a);
      HistoryExtends(init, n);
      ReleasedPublishesNothing(Exec(init), last, a);
    }
  }

  lemma ReleasedPublishesNothing(db: Db, step: Step, a: Id)
    requires Base(db) && Released(db, a)
    ensures forall i :: 0 <= i < |Published(db, step)| ==> Published(db, step)[i].attempt != a
  {
    if step.Commit? && step.publication.attempt == a {
      ReleasedCannotPublish(db, step.scope, step.publication, step.now);
    }
  }
}
