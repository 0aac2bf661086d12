/** packages/ai/src/models.ts: what each step of a publication is for: when its update runs, when its catalog
    is stored, and that it is not refused without a reason. */
module PublicationEffects {
  import opened Options
  import opened Publication

  /** The refresh is the current one and its signal has not fired. */
  predicate Fresh(p: Provider, generation: nat) { generation == p.generation && generation !in p.aborted }

  /** Only this publication has moved, to this phase; neither the refreshes nor the chain have changed. */
  ghost predicate MovesOnly(p: Provider, p': Provider, i: nat, phase: Phase) {
    && i < |p.jobs| == |p'.jobs| && p'.jobs[i] == p.jobs[i].(phase := phase)
    && (forall j :: 0 <= j < |p.jobs| && j != i ==> p'.jobs[j] == p.jobs[j])
    && p'.generation == p.generation && p'.controller == p.controller && p'.aborted == p.aborted && p'.chain == p.chain
  }

  ghost predicate SameModels(p: Provider, p': Provider) { p'.models == p.models && p'.updates == p.updates }

  ghost predicate SameStore(p: Provider, p': Provider) { p'.store == p.store && p'.commits == p.commits }

  /** The last step of a publication: its store operation has succeeded, or it had none to begin with. */
  predicate Concludes(p: Provider, a: Action) {
    || (a.Answer? && a.ok)
    || (a.Start? && a.i < |p.jobs| && p.jobs[a.i].persist == Keep)
  }

  /** At that step the update runs if and only if the refresh is the current one and its signal has not fired;
      and then the models are those of the update, while the store holds what the publication has persisted. */
  lemma UpdateRunsIff(p: Provider, a: Action)
    requires Inv(p) && Enabled(p, a) && Concludes(p, a)
    ensures var (p', job) := (Step(p, a), p.jobs[a.i]);
            && (Fresh(p, job.generation) ==>
                  && MovesOnly(p, p', a.i, Published) && p'.updates == p.updates + [a.i]
                  && p'.models == (if job.update.Some? then job.update.value else p.models)
                  && (job.persist.Write? ==> p'.store == Some(job.persist.catalog))
                  && (job.persist.Delete? ==> p'.store == None))
            && (!Fresh(p, job.generation) ==> MovesOnly(p, p', a.i, Refused) && SameModels(p, p'))
            && SameStore(p, p')
  {
    if a.Answer? { assert Exclusive(p.jobs, p.commits, a.i); }
  }

  /** A publication that persists something goes to the store if and only if it is not stale by then. */
  lemma StoreOperationStartsIff(p: Provider, i: nat)
    requires Inv(p) && Enabled(p, Start(i)) && p.jobs[i].persist != Keep
    ensures var p' := Step(p, Start(i));
            && MovesOnly(p, p', i, if Fresh(p, p.jobs[i].generation) then Mutating(false) else Refused)
            && SameModels(p, p') && SameStore(p, p')
  {
  }

  /** A store operation that takes effect leaves exactly the catalog of the publication in the store, or none. */
  lemma CommitStores(p: Provider, i: nat)
    requires Inv(p) && Enabled(p, Commit(i))
    ensures var (p', persist) := (Step(p, Commit(i)), p.jobs[i].persist);
            && MovesOnly(p, p', i, Mutating(true)) && SameModels(p, p') && p'.commits == p.commits + [i]
            && persist != Keep
            && p'.store == if persist.Write? then Some(persist.catalog) else None
  {
    assert Exclusive(p.jobs, p.commits, i);
  }

  /** A store operation that fails ends the publication, and nothing else happens. */
  lemma FailedStoreOnlyFails(p: Provider, i: nat)
    requires Enabled(p, Answer(i, false))
    ensures var p' := Step(p, Answer(i, false)); MovesOnly(p, p', i, Failed) && SameModels(p, p') && SameStore(p, p')
  {
  }

  /** What the answer of the store leads to: the update has run if and only if the store operation has succeeded
      and the refresh is still the current one, its signal not fired. */
  ghost predicate AnswerDone(p: Provider, p': Provider, i: nat, ok: bool) {
    && i < |p.jobs| && i < |p'.jobs|
    && var updated := ok && Fresh(p, p.jobs[i].generation);
       && p'.jobs[i].phase == (if !ok then Failed else if updated then Published else Refused)
       && p'.updates == (if updated then p.updates + [i] else p.updates)
       && p'.models == (if updated && p.jobs[i].update.Some? then p.jobs[i].update.value else p.models)
       && p'.store == p.store
  }

  lemma AnswerDoes(p: Provider, i: nat, ok: bool)
    requires Inv(p) && Enabled(p, Answer(i, ok))
    ensures AnswerDone(p, Step(p, Answer(i, ok)), i, ok)
  {
    if ok { UpdateRunsIff(p, Answer(i, ok)); } else { FailedStoreOnlyFails(p, i); }
  }

  /** Which steps of all run an update. */
  lemma UpdateIff(p: Provider, a: Action)
    requires Inv(p) && Enabled(p, a)
    ensures Step(p, a).updates != p.updates <==> Concludes(p, a) && Fresh(p, p.jobs[a.i].generation)
    ensures Step(p, a).models != p.models ==> a.Replace? || Step(p, a).updates != p.updates
    ensures Step(p, a).commits != p.commits <==> a.Commit?
    ensures Step(p, a).store != p.store ==> a.Commit?
  {
    if Concludes(p, a) { UpdateRunsIff(p, a); }
  }

  /** A refresh that is superseded has its signal fired, and none of the publications so far is fresh any more;
      a new one, and only it, has the controller. */
  lemma SupersedeEnds(p: Provider, a: Action)
    requires Inv(p) && Supersedes(a)
    ensures var p' := Step(p, a);
            && (forall i :: 0 <= i < |p.jobs| ==> !Fresh(p', p.jobs[i].generation))
            && p'.generation == p.generation + 1
            && p'.aborted == (if p.controller.Some? then p.aborted + {p.controller.value} else p.aborted)
            && p'.controller == (if a.Begin? then Some(p'.generation) else None)
            && p'.models == (if a.Replace? then a.models else p.models)
            && p'.jobs == p.jobs && p'.chain == p.chain && p'.updates == p.updates && SameStore(p, p')
  {
  }

  /** A refresh gives up its own controller only, and a publication its own place at the end of the chain. */
  lemma BookkeepingOnly(p: Provider, a: Action)
    requires Enabled(p, a) && (a.Finish? || a.Forget? || a.CallerAborts? || a.Publish?)
    ensures var p' := Step(p, a);
            && p'.generation == p.generation && SameModels(p, p') && SameStore(p, p')
            && (a.Finish? ==> p' == p.(controller := p'.controller)
                              && (p'.controller != p.controller <==> p.controller == Some(a.generation))
                              && (p'.controller == None || p'.controller == p.controller))
            && (a.Forget? ==> p' == p.(chain := p'.chain) && (p'.chain != p.chain <==> p.chain == Some(a.i))
                              && (p'.chain == None || p'.chain == p.chain))
            && (a.CallerAborts? ==> p' == p.(aborted := p'.aborted)
                                    && forall g :: Fresh(p', g) <==> Fresh(p, g) && g != a.generation)
            && (a.Publish? ==> p'.controller == p.controller && p'.aborted == p.aborted
                               && |p'.jobs| == |p.jobs| + 1 && p'.jobs[..|p.jobs|] == p.jobs && p'.chain == Some(|p.jobs|)
                               && p'.jobs[|p.jobs|] == Job(a.generation, a.persist, a.update, Queued(p.chain)))
  {
  }

  // ---- Runs ------------------------------------------------------------------------------------------------------

  /** Every publication that says so has run its update. */
  ghost predicate Listed(p: Provider) {
    forall i :: 0 <= i < |p.jobs| && p.jobs[i].phase.Published? ==> i in p.updates
  }

  lemma StepKeepsListed(p: Provider, a: Action)
    requires Inv(p) && Enabled(p, a) && Listed(p)
    ensures Listed(Step(p, a))
  {
    var p' := Step(p, a);
    assert p.updates <= p'.updates;
    if Concludes(p, a) { UpdateRunsIff(p, a); }
    forall i | 0 <= i < |p'.jobs| && p'.jobs[i].phase.Published? ensures i in p'.updates {
      if i < |p.jobs| && p.jobs[i].phase.Published? { assert i in p.updates; }
    }
  }

  /** In every run the publications that have run their update are exactly those that are published. */
  lemma {:induction false} PublishedIffUpdated(p: Provider, actions: seq<Action>, i: nat)
    requires Inv(p) && Listed(p) && Possible(p, actions)
    ensures var end := Run(p, actions);
            i < |end.jobs| ==> (end.jobs[i].phase == Published <==> i in end.updates)
    decreases |actions|
  {
    if actions == [] {
      assert AllPublished(p.jobs, p.updates);
    } else {
      StepKeeps(p, actions[0]);
      StepKeepsListed(p, actions[0]);
      PublishedIffUpdated(Step(p, actions[0]), actions[1..], i);
    }
  }

  /** The refresh is superseded, or its signal fires. */
  predicate Disturbs(a: Action, generation: nat) { Supersedes(a) || a == CallerAborts(generation) }

  ghost predicate NoneRefused(p: Provider, generation: nat) {
    forall i :: 0 <= i < |p.jobs| && p.jobs[i].generation == generation ==> p.jobs[i].phase != Refused
  }

  /** In every run in which a refresh is not disturbed none of its publications is refused: each of them is
      published once it is over, unless the store fails, and its update has run. */
  lemma {:induction false} UndisturbedIsNotRefused(p: Provider, actions: seq<Action>, generation: nat, i: nat)
    requires Inv(p) && Listed(p) && Possible(p, actions) && Fresh(p, generation) && NoneRefused(p, generation)
    requires forall k :: 0 <= k < |actions| ==> !Disturbs(actions[k], generation)
    ensures var end := Run(p, actions);
            && Fresh(end, generation)
            && (i < |end.jobs| && end.jobs[i].generation == generation && end.jobs[i].phase.Settled() ==>
                  end.jobs[i].phase == Failed || (end.jobs[i].phase == Published && i in end.updates))
    decreases |actions|
  {
    if actions != [] {
      var p' := Step(p, actions[0]);
      StepKeeps(p, actions[0]);
      StepKeepsListed(p, actions[0]);
      StaysFresh(p, actions[0], generation);
      UndisturbedIsNotRefused(p', actions[1..], generation, i);
    }
  }

  lemma StaysFresh(p: Provider, a: Action, generation: nat)
    requires Enabled(p, a) && Fresh(p, generation) && NoneRefused(p, generation) && !Disturbs(a, generation)
    ensures Fresh(Step(p, a), generation) && NoneRefused(Step(p, a), generation)
  {
  }

  /** And it gets there: a publication whose turn has come during its refresh is published by taking its turn
      and, if it persists something, by the store operation and its answer. */
  lemma UndisturbedPublishes(p: Provider, i: nat)
    requires Inv(p) && Turn(p, i) && Fresh(p, p.jobs[i].generation)
    ensures var run := if p.jobs[i].persist == Keep then [Start(i)] else [Start(i), Commit(i), Answer(i, true)];
            && Possible(p, run)
            && var (end, job) := (Run(p, run), p.jobs[i]);
               && i < |end.jobs| && end.jobs[i].phase == Published && end.updates == p.updates + [i]
               && end.models == (if job.update.Some? then job.update.value else p.models)
               && end.store == match job.persist
                               case Keep => p.store
                               case Delete => None
                               case Write(catalog) => Some(catalog)
  {
    var p1 := Step(p, Start(i));
    StepKeeps(p, Start(i));
    if p.jobs[i].persist == Keep {
      UpdateRunsIff(p, Start(i));
      Last(p, Start(i));
    } else {
      StoreOperationStartsIff(p, i);
      var p2 := Step(p1, Commit(i));
      StepKeeps(p1, Commit(i));
      CommitStores(p1, i);
      UpdateRunsIff(p2, Answer(i, true));
      hide Step, Inv;
      Last(p2, Answer(i, true));
      Then(p1, Commit(i), [Answer(i, true)]);
      Then(p, Start(i), [Commit(i), Answer(i, true)]);
    }
  }

  lemma Last(p: Provider, a: Action)
    requires Enabled(p, a)
    ensures Possible(p, [a]) && Run(p, [a]) == Step(p, a)
  {
    assert [a][1..] == [];
  }

  lemma Then(p: Provider, a: Action, actions: seq<Action>)
    requires Enabled(p, a) && Possible(Step(p, a), actions)
    ensures Possible(p, [a] + actions) && Run(p, [a] + actions) == Run(Step(p, a), actions)
  {
    assert ([a] + actions)[1..] == actions;
  }
}
