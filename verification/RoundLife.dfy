/** Rounds over crashes, restarts and executions again. */
module RoundLife {
  import opened Basics
  import opened ContextModel
  import opened ContextWorld
  import opened ContextInvariant
  import opened ContextTheorems
  import opened RoundRules

  /**
   * What a crash leaves: the context's store and the scheduler's finished batches; `decided` counts decisions for the
   * proof.
   */
  datatype Moment = Moment(world: World, decided: multiset<string>, finished: map<string, Intent>)

  /** One durable step: a manager operation made for a run, or a batch reported as finished to the scheduler. */
  datatype Event =
    | Perform(run: AgentRun, op: Op)
    | Finish(batch: string, intent: Intent)

  /** The step publishes a business decision of this batch. */
  predicate Decides(size: Sizes, m: Moment, e: Event, batch: string) {
    && e.Perform? && e.op.Apply? && e.op.round == batch
    && RoundDone(batch) !in m.world.receipts
    && After(size, m.world, e.op).Success?
  }

  function Next(size: Sizes, m: Moment, e: Event): Moment {
    match e
    case Perform(run, op) =>
      Moment(Step(size, m.world, op),
             if op.Apply? && Decides(size, m, e, op.round) then m.decided + multiset{op.round} else m.decided,
             m.finished)
    case Finish(batch, intent) => m.(finished := m.finished[batch := intent])
  }

  /**
   * What a runner does: it ends a round only with all inputs recorded, and finishes a batch only when its round is
   * done.
   */
  ghost predicate Allowed(m: Moment, runs: set<AgentRun>, e: Event) {
    match e
    case Perform(run, op) => run in runs && Admissible(m.world, run, op)
    case Finish(batch, _) => RoundDone(batch) in m.world.receipts
  }

  function Lived(size: Sizes, m: Moment, es: seq<Event>): Moment
    decreases |es|
  {
    if |es| == 0 then m else Next(size, Lived(size, m, es[..|es| - 1]), es[|es| - 1])
  }

  /** Every step of the log is one that a runner makes in the state it meets. */
  ghost predicate Possible(size: Sizes, runs: set<AgentRun>, m: Moment, es: seq<Event>)
    decreases |es|
  {
    |es| == 0 ||
    (&& Possible(size, runs, m, es[..|es| - 1])
     && Allowed(Lived(size, m, es[..|es| - 1]), runs, es[|es| - 1]))
  }

  /** How many steps of the log publish a decision of this batch. */
  function Decisions(size: Sizes, m: Moment, es: seq<Event>, batch: string): nat
    decreases |es|
  {
    if |es| == 0 then 0
    else
      Decisions(size, m, es[..|es| - 1], batch)
      + if Decides(size, Lived(size, m, es[..|es| - 1]), es[|es| - 1], batch) then 1 else 0
  }

  predicate OneDecision(w: World, decided: multiset<string>, batch: string) {
    decided[batch] <= if RoundDone(batch) in w.receipts then 1 else 0
  }

  /** What holds of every durable state: the context's invariant, and no round done or batch finished too early. */
  ghost predicate MomentOk(size: Sizes, runs: set<AgentRun>, m: Moment) {
    && Inv(size, m.world)
    && DistinctBatches(runs) && AllSafe(m.world, runs)
    && (forall b: string :: OneDecision(m.world, m.decided, b))
    && (forall b :: b in m.finished ==> RoundDone(b) in m.world.receipts)
  }

  // ---- one step ----

  lemma DecisionSigns(size: Sizes, m: Moment, e: Event, batch: string)
    requires Decides(size, m, e, batch)
    ensures RoundDone(batch) in Next(size, m, e).world.receipts
  {
    ApplySigns(size, m.world, batch, e.op.cursor, e.op.decision, e.op.entries);
  }

  lemma LogOn(log: seq<Event>, e: Event, rest: seq<Event>)
    ensures (log + [e]) + rest == log + ([e] + rest)
  {
  }

  lemma LastsOn(a: World, b: World, c: World)
    requires Lasts(a, b) && Lasts(b, c)
    ensures Lasts(a, c)
  {
  }

  lemma NextLasts(size: Sizes, m: Moment, e: Event)
    ensures Lasts(m.world, Next(size, m, e).world)
  {
    if e.Perform? {
      StepLasts(size, m.world, e.op);
    }
  }

  lemma NextOk(size: Sizes, runs: set<AgentRun>, m: Moment, e: Event)
    requires MomentOk(size, runs, m) && Allowed(m, runs, e)
    ensures MomentOk(size, runs, Next(size, m, e)) && Lasts(m.world, Next(size, m, e).world)
  {
    if e.Perform? {
      StepKeepsInv(size, m.world, e.op);
      StepSafe(size, m.world, runs, e.run, e.op);
      StepLasts(size, m.world, e.op);
      var after := Next(size, m, e);
      forall b: string ensures OneDecision(after.world, after.decided, b) {
        assert OneDecision(m.world, m.decided, b);
        if Decides(size, m, e, b) {
          DecisionSigns(size, m, e, b);
        }
      }
    }
  }

  lemma {:induction false} LivedOk(size: Sizes, runs: set<AgentRun>, m: Moment, es: seq<Event>)
    requires MomentOk(size, runs, m) && Possible(size, runs, m, es)
    ensures MomentOk(size, runs, Lived(size, m, es)) && Lasts(m.world, Lived(size, m, es).world)
    decreases |es|
  {
    if |es| > 0 {
      var front := es[..|es| - 1];
      LivedOk(size, runs, m, front);
      NextOk(size, runs, Lived(size, m, front), es[|es| - 1]);
    }
  }

  /** The count kept in the moments is the number of deciding steps. */
  lemma {:induction false} DecidedCounts(size: Sizes, m: Moment, es: seq<Event>, batch: string)
    ensures Lived(size, m, es).decided[batch] == m.decided[batch] + Decisions(size, m, es, batch)
    decreases |es|
  {
    if |es| > 0 {
      DecidedCounts(size, m, es[..|es| - 1], batch);
    }
  }

  // ---- crashes ----

  /** A crash may come after any step: what it leaves is a state that the log up to there leads to. */
  lemma {:induction false} CrashPossible(size: Sizes, runs: set<AgentRun>, m: Moment, es: seq<Event>, at: nat)
    requires Possible(size, runs, m, es) && at <= |es|
    ensures Possible(size, runs, m, es[..at])
    decreases |es|
  {
    if at < |es| {
      assert es[..|es| - 1][..at] == es[..at];
      CrashPossible(size, runs, m, es[..|es| - 1], at);
    } else {
      assert es[..at] == es;
    }
  }

  lemma JoinFront(es: seq<Event>, later: seq<Event>)
    requires |later| > 0
    ensures (es + later)[..|es + later| - 1] == es + later[..|later| - 1]
    ensures (es + later)[|es + later| - 1] == later[|later| - 1]
  {
  }

  lemma {:induction false} LivedJoins(size: Sizes, m: Moment, es: seq<Event>, later: seq<Event>)
    ensures Lived(size, m, es + later) == Lived(size, Lived(size, m, es), later)
    decreases |later|
  {
    if |later| == 0 {
      assert es + later == es;
    } else {
      JoinFront(es, later);
      LivedJoins(size, m, es, later[..|later| - 1]);
    }
  }

  lemma {:induction false} DecisionsJoin(size: Sizes, m: Moment, es: seq<Event>, later: seq<Event>, batch: string)
    ensures Decisions(size, m, es + later, batch) ==
              Decisions(size, m, es, batch) + Decisions(size, Lived(size, m, es), later, batch)
    decreases |later|
  {
    if |later| == 0 {
      assert es + later == es;
    } else {
      JoinFront(es, later);
      LivedJoins(size, m, es, later[..|later| - 1]);
      DecisionsJoin(size, m, es, later[..|later| - 1], batch);
    }
  }

  /** An execution after a restart goes on where the crash left off. */
  lemma {:induction false} LivesJoin(size: Sizes, runs: set<AgentRun>, m: Moment, es: seq<Event>, later: seq<Event>)
    requires Possible(size, runs, m, es) && Possible(size, runs, Lived(size, m, es), later)
    ensures Lived(size, m, es + later) == Lived(size, Lived(size, m, es), later)
    ensures Possible(size, runs, m, es + later)
    ensures forall b :: Decisions(size, m, es + later, b) ==
              Decisions(size, m, es, b) + Decisions(size, Lived(size, m, es), later, b)
    decreases |later|
  {
    LivedJoins(size, m, es, later);
    forall b ensures Decisions(size, m, es + later, b) ==
                       Decisions(size, m, es, b) + Decisions(size, Lived(size, m, es), later, b)
    {
      DecisionsJoin(size, m, es, later, b);
    }
    PossibleJoins(size, runs, m, es, later);
  }

  lemma {:induction false} PossibleJoins(size: Sizes, runs: set<AgentRun>, m: Moment, es: seq<Event>, later: seq<Event>)
    requires Possible(size, runs, m, es) && Possible(size, runs, Lived(size, m, es), later)
    ensures Possible(size, runs, m, es + later)
    decreases |later|
  {
    if |later| == 0 {
      assert es + later == es;
    } else {
      JoinFront(es, later);
      LivedJoins(size, m, es, later[..|later| - 1]);
      PossibleJoins(size, runs, m, es, later[..|later| - 1]);
    }
  }

  /**
   * One stretch between two starts of the process: the steps its runner would make, and how many of them the crash let
   * happen.
   */
  datatype Era = Era(log: seq<Event>, survived: nat)

  function Surviving(era: Era): seq<Event> {
    if era.survived <= |era.log| then era.log[..era.survived] else era.log
  }

  function Eras(size: Sizes, m: Moment, eras: seq<Era>): Moment
    decreases |eras|
  {
    if |eras| == 0 then m else Eras(size, Lived(size, m, Surviving(eras[0])), eras[1..])
  }

  /** Each era is an execution log that starts from what the crash before it left. */
  ghost predicate ErasPossible(size: Sizes, runs: set<AgentRun>, m: Moment, eras: seq<Era>)
    decreases |eras|
  {
    |eras| == 0 ||
    (&& Possible(size, runs, m, eras[0].log)
     && ErasPossible(size, runs, Lived(size, m, Surviving(eras[0])), eras[1..]))
  }

  /** Everything that durably happened, over all eras. */
  function History(eras: seq<Era>): seq<Event>
    decreases |eras|
  {
    if |eras| == 0 then [] else Surviving(eras[0]) + History(eras[1..])
  }

  /** What durably happened over all eras is one possible log, as if nothing had ever crashed. */
  lemma {:induction false} ErasAreOneLog(size: Sizes, runs: set<AgentRun>, m: Moment, eras: seq<Era>)
    requires ErasPossible(size, runs, m, eras)
    ensures Possible(size, runs, m, History(eras)) && Eras(size, m, eras) == Lived(size, m, History(eras))
    decreases |eras|
  {
    if |eras| > 0 {
      var first := Surviving(eras[0]);
      if eras[0].survived <= |eras[0].log| {
        CrashPossible(size, runs, m, eras[0].log, eras[0].survived);
      }
      ErasAreOneLog(size, runs, Lived(size, m, first), eras[1..]);
      LivesJoin(size, runs, m, first, History(eras[1..]));
    }
  }

  // ---- what holds of a whole life ----

  /** Nothing is done yet. */
  function Birth(w: World): Moment {
    Moment(w, multiset{}, map[])
  }

  lemma BirthOk(size: Sizes, runs: set<AgentRun>, next: Id, policy: Policy, instructions: seq<string>,
                objective: string, idle: bool)
    requires DistinctBatches(runs) && Created(size, next, policy, instructions, objective, idle).Success?
    ensures MomentOk(size, runs, Birth(Created(size, next, policy, instructions, objective, idle).value))
  {
    CreatedInv(size, next, policy, instructions, objective, idle);
  }

  /**
   * At most one business decision per batch over a whole life: executions that fail or are cut off between any
   * two durable steps, restarts, and executions of the same batch again, any number of times.
   */
  lemma DecidesOnce(size: Sizes, runs: set<AgentRun>, w: World, eras: seq<Era>, batch: string)
    requires MomentOk(size, runs, Birth(w)) && ErasPossible(size, runs, Birth(w), eras)
    ensures Decisions(size, Birth(w), History(eras), batch) <= 1
  {
    var es := History(eras);
    ErasAreOneLog(size, runs, Birth(w), eras);
    LivedOk(size, runs, Birth(w), es);
    DecidedCounts(size, Birth(w), es, batch);
    var m := Lived(size, Birth(w), es);
    assert OneDecision(m.world, m.decided, batch);
  }

  /** A batch is finished only when all its inputs are durably recorded, whatever crashes came before. */
  lemma FinishesRecorded(size: Sizes, runs: set<AgentRun>, w: World, eras: seq<Era>, run: AgentRun)
    requires MomentOk(size, runs, Birth(w)) && ErasPossible(size, runs, Birth(w), eras) && run in runs
    ensures var m := Eras(size, Birth(w), eras);
            run.batchId in m.finished ==>
              RoundDone(run.batchId) in m.world.receipts && AllRecorded(InputKeys(run), m.world.records)
  {
    ErasAreOneLog(size, runs, Birth(w), eras);
    LivedOk(size, runs, Birth(w), History(eras));
    assert RoundSafe(Eras(size, Birth(w), eras).world, run);
  }

  /** Any crash of any era leaves a state from which a restart succeeds, and none of the history before it is lost. */
  lemma CrashRestarts(size: Sizes, runs: set<AgentRun>, w: World, eras: seq<Era>)
    requires MomentOk(size, runs, Birth(w)) && ErasPossible(size, runs, Birth(w), eras)
    ensures MomentOk(size, runs, Eras(size, Birth(w), eras)) && Lasts(w, Eras(size, Birth(w), eras).world)
  {
    ErasAreOneLog(size, runs, Birth(w), eras);
    LivedOk(size, runs, Birth(w), History(eras));
  }
}
