/** Answers to questions: which are taken, that each question takes one answer, for ever, and that only the
    first call that gives it changes anything. */
module RunAnswers {
  import opened Outcomes
  import opened StateMachine
  import opened Bindings
  import opened RunTables
  import opened EventLog
  import opened RunInvariants
  import opened RunSteps
  import opened RunHistories

  /** The answer is given a first time: to an open question of the run, under a key that no other question of
      the run was answered with, at the version the run has, while it waits or recovers. */
  ghost predicate TakesAnswer(db: Db, y: Reply) {
    && y.pending in db.pendings && db.pendings[y.pending].scope == y.scope && db.pendings[y.pending].run == y.run
    && y.run in db.runs && db.runs[y.run].scope == y.scope
    && !db.pendings[y.pending].resolved
    && (forall o :: o in db.pendings && o != y.pending && db.pendings[o].run == y.run && db.pendings[o].scope == y.scope ==>
          db.pendings[o].key != Some(y.key))
    && db.runs[y.run].version == y.expected
    && (db.runs[y.run].status == WaitingUser || db.runs[y.run].status == WaitingExternal || db.runs[y.run].status == Recovering)
  }

  /** The answer that the question has is given again. */
  predicate RepeatsAnswer(db: Db, y: Reply) {
    && y.pending in db.pendings && db.pendings[y.pending].scope == y.scope && db.pendings[y.pending].run == y.run
    && y.run in db.runs && db.runs[y.run].scope == y.scope
    && db.pendings[y.pending].resolved
    && db.pendings[y.pending].key == Some(y.key) && db.pendings[y.pending].digest == Some(y.digest)
  }

  /** The question is answered, its run is queued again, and an event says so; nothing else differs. */
  predicate Answered(db: Db, d: Db, y: Reply, id: Id) {
    && y.pending in db.pendings && y.run in db.runs && y.run in d.runs
    && d.pendings == db.pendings[y.pending := Pending(y.scope, y.run, Some(y.key), Some(y.digest), true)]
    && StateOf(d.runs[y.run]) == RunState(Queued, db.runs[y.run].version + 1, None, None)
    && d.runs == db.runs[y.run := d.runs[y.run]]
    && d.runs[y.run] == WithState(db.runs[y.run], StateOf(d.runs[y.run])).(nextEvent := db.runs[y.run].nextEvent + 1)
    && d.workspaces == db.workspaces && d.attempts == db.attempts && d.revisions == db.revisions
    && |d.events| == |db.events| + 1 && d.events[..|db.events|] == db.events
    && d.events[|db.events|].id == id && d.events[|db.events|].run == y.run && d.events[|db.events|].kind == RunResumed
  }

  lemma RespondExactly(db: Db, y: Reply, id: Id)
    requires y.run in db.runs ==> Rooted(db, y.run)
    ensures Respond(db, y, id).Ok? <==> RepeatsAnswer(db, y) || (TakesAnswer(db, y) && !EventIdTaken(db.events, id))
    ensures RepeatsAnswer(db, y) ==> Respond(db, y, id) == Ok(db)
    ensures TakesAnswer(db, y) && !EventIdTaken(db.events, id) ==> Answered(db, Respond(db, y, id).value, y, id)
  {
    hide EventIdTaken;
    if HasPending(db, y.scope, y.run, y.pending) && !db.pendings[y.pending].resolved {
      assert ReplyKeyTaken(db, y.scope, y.run, y.pending, y.key) <==>
             exists o :: o in db.pendings && o != y.pending && db.pendings[o].run == y.run && db.pendings[o].scope == y.scope
                         && db.pendings[o].key == Some(y.key);
    }
  }

  // ----- Over whole histories -----

  /** A question stays with its run, and its answer stays what it is. */
  predicate QuestionKept(db: Db, d: Db, p: Id)
    requires p in db.pendings
  {
    && p in d.pendings && d.pendings[p].scope == db.pendings[p].scope && d.pendings[p].run == db.pendings[p].run
    && (db.pendings[p].resolved ==> d.pendings[p] == db.pendings[p])
  }

  ghost predicate QuestionsKept(db: Db, d: Db) {
    forall p {:trigger QuestionKept(db, d, p)} :: p in db.pendings ==> QuestionKept(db, d, p)
  }

  /** UNIQUE(scope_id,run_id,response_key) */
  ghost predicate KeysDiffer(db: Db) {
    forall p, q {:trigger SameKey(db, p, q)} :: p in db.pendings && q in db.pendings && SameKey(db, p, q) ==> p == q
  }

  predicate SameKey(db: Db, p: Id, q: Id)
    requires p in db.pendings && q in db.pendings
  {
    var x, y := db.pendings[p], db.pendings[q];
    x.run == y.run && x.scope == y.scope && x.key.Some? && x.key == y.key
  }

  lemma TransitKeepsPendings(db: Db, m: Move, id: Id, now: Time)
    requires (m.run in db.runs ==> Rooted(db, m.run)) && TransitionRun(db, m, id, now).Ok?
    ensures TransitionRun(db, m, id, now).value.pendings == db.pendings
  {
    hide EventIdTaken, Transition;
  }

  lemma AcceptKeepsPendings(db: Db, q: Request, r: Id, id: Id, now: Time)
    requires Accept(db, q, r, id, now).Ok?
    ensures Accept(db, q, r, id, now).value.0.pendings == db.pendings
  {
    hide EventIdTaken, BindingCheck, Busy;
  }

  lemma CreateKeepsPendings(db: Db, scope: string, binding: Option<UserBinding>, s: Id, w: Id)
    requires CreateSession(db, scope, binding, s, w).Ok?
    ensures CreateSession(db, scope, binding, s, w).value.pendings == db.pendings
  {
  }

  lemma RespondKeepsQuestions(db: Db, y: Reply, id: Id)
    requires (y.run in db.runs ==> Rooted(db, y.run)) && KeysDiffer(db) && Respond(db, y, id).Ok?
    ensures QuestionsKept(db, Respond(db, y, id).value) && KeysDiffer(Respond(db, y, id).value)
  {
    RespondExactly(db, y, id);
    var d := Respond(db, y, id).value;
    hide Respond, EventIdTaken;
    if RepeatsAnswer(db, y) {
      forall p | p in db.pendings ensures QuestionKept(db, d, p) {}
    } else {
      assert d.pendings[y.pending] == Pending(y.scope, y.run, Some(y.key), Some(y.digest), true);
      forall p | p in db.pendings ensures QuestionKept(db, d, p) {}
      forall p, q | p in d.pendings && q in d.pendings && SameKey(d, p, q) ensures p == q {
        if p != y.pending && q != y.pending { assert SameKey(db, p, q); }
      }
    }
  }

  lemma AskKeepsQuestions(db: Db, r: Id, p: Id)
    requires KeysDiffer(db) && Ask(db, r, p).Ok?
    ensures QuestionsKept(db, Ask(db, r, p).value) && KeysDiffer(Ask(db, r, p).value)
  {
    var d := Ask(db, r, p).value;
    forall q | q in db.pendings ensures QuestionKept(db, d, q) {}
    forall q, x | q in d.pendings && x in d.pendings && SameKey(d, q, x) ensures q == x {
      assert q != p && x != p && SameKey(db, q, x);
    }
  }

  lemma SameQuestions(db: Db, d: Db)
    requires KeysDiffer(db) && d.pendings == db.pendings
    ensures QuestionsKept(db, d) && KeysDiffer(d)
  {
    forall p | p in db.pendings ensures QuestionKept(db, d, p) {}
    forall p, q | p in d.pendings && q in d.pendings && SameKey(d, p, q) ensures p == q { assert SameKey(db, p, q); }
  }

  lemma NextQuestions(db: Db, step: Step)
    requires Base(db) && KeysDiffer(db)
    ensures QuestionsKept(db, Next(db, step)) && KeysDiffer(Next(db, step))
  {
    var d := Next(db, step);
    if Effect(db, step).Ok? {
      Roots(db);
      hide CreateSession, Accept, TransitionRun, Respond, Ask, Refs, Pointers, Epochs, Keys, Checks, Numbered,
        KeysDiffer, QuestionsKept, EventIdTaken, EpochTaken;
      match step
      case Create(scope, binding, s, w) => CreateKeepsPendings(db, scope, binding, s, w); SameQuestions(db, d);
      case Submit(q, r, id, now) => AcceptKeepsPendings(db, q, r, id, now); SameQuestions(db, d);
      case ClaimNext(_, _, _, _, _, _) => SameQuestions(db, d);
      case Transit(m, id, now) => TransitKeepsPendings(db, m, id, now); SameQuestions(db, d);
      case Resume(y, id) => RespondKeepsQuestions(db, y, id);
      case Commit(_, _, _) => SameQuestions(db, d);
      case Record(_, _, _, _, _) => SameQuestions(db, d);
      case Question(r, p) => AskKeepsQuestions(db, r, p);
    } else {
      SameQuestions(db, d);
    }
  }

  /** No two questions of a run are answered under one key. */
  lemma {:induction false} ResponseKeysDiffer(steps: seq<Step>)
    ensures KeysDiffer(Exec(steps))
  {
    if steps != [] {
      ResponseKeysDiffer(steps[..|steps| - 1]);
      hide Next, KeysDiffer;
      NextQuestions(Exec(steps[..|steps| - 1]), steps[|steps| - 1]);
    }
  }

  lemma LastQuestions(steps: seq<Step>)
    requires steps != []
    ensures QuestionsKept(Exec(steps[..|steps| - 1]), Exec(steps))
  {
    ResponseKeysDiffer(steps[..|steps| - 1]);
    hide Next, KeysDiffer, QuestionsKept;
    NextQuestions(Exec(steps[..|steps| - 1]), steps[|steps| - 1]);
  }

  lemma QuestionTransitive(a: Db, b: Db, c: Db, p: Id)
    requires p in a.pendings && QuestionKept(a, b, p) && QuestionsKept(b, c)
    ensures QuestionKept(a, c, p)
  {
    assert QuestionKept(b, c, p);
  }

  lemma QuestionReflexive(db: Db, p: Id)
    requires p in db.pendings
    ensures QuestionKept(db, db, p)
  {
  }

  /** An answer that was taken is never changed or taken back. */
  lemma {:induction false} AnswersStay(steps: seq<Step>, n: nat, p: Id)
    requires n <= |steps| && p in Exec(steps[..n]).pendings
    ensures QuestionKept(Exec(steps[..n]), Exec(steps), p)
  {
    hide Exec, QuestionKept, QuestionsKept;
    if n == |steps| {
      assert steps[..n] == steps;
      QuestionReflexive(Exec(steps), p);
    } else {
      var init := steps[..|steps| - 1];
      assert init[..n] == steps[..n];
      AnswersStay(init, n, p);
      LastQuestions(steps);
      QuestionTransitive(Exec(steps[..n]), Exec(init), Exec(steps), p);
    }
  }

  /** Step i is an answer that succeeds. */
  ghost predicate Succeeds(steps: seq<Step>, i: nat) {
    i < |steps| && steps[i].Resume? && Effect(Exec(steps[..i]), steps[i]).Ok?
  }

  lemma AnswerStep(steps: seq<Step>, i: nat)
    requires Succeeds(steps, i)
    ensures var db, d, y := Exec(steps[..i]), Exec(steps[..i + 1]), steps[i].reply;
      && (if RepeatsAnswer(db, y) then d == db else TakesAnswer(db, y) && Answered(db, d, y, steps[i].event))
      && RepeatsAnswer(d, y)
  {
    var db, y := Exec(steps[..i]), steps[i].reply;
    assert steps[..i + 1][..i] == steps[..i];
    Roots(db);
    RespondExactly(db, y, steps[i].event);
    assert Exec(steps[..i + 1]) == Respond(db, y, steps[i].event).value;
    hide Base, Respond, EventIdTaken, TakesAnswer;
  }

  /** A question takes one answer: every answer of it that succeeds has the same key and text, and only the
      first of them changes anything. */
  lemma QuestionTakesOneAnswer(steps: seq<Step>, i: nat, j: nat)
    requires i < j && Succeeds(steps, i) && Succeeds(steps, j) && steps[i].reply.pending == steps[j].reply.pending
    ensures steps[j].reply.key == steps[i].reply.key && steps[j].reply.digest == steps[i].reply.digest
    ensures Exec(steps[..j + 1]) == Exec(steps[..j])
  {
    AnswerStep(steps, i);
    AnswerStep(steps, j);
    assert steps[..j][..i + 1] == steps[..i + 1];
    AnswersStay(steps[..j], i + 1, steps[i].reply.pending);
    hide Exec, Answered, Succeeds;
  }
}
