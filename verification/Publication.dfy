/** packages/ai/src/models.ts: how refreshes of one provider publish model catalogs. Every refresh has a
    generation; its publications queue up behind each other, and each is checked when its turn comes and
    again after the store has been written. */
module Publication {
  import opened Options

  datatype Model = Model(id: string, data: string)

  type Catalog = seq<Model>

  datatype Persist = Keep | Delete | Write(catalog: Catalog)

  /** A publication waits for the one before it, has a store operation in flight which takes effect at
      some moment, or is over. */
  datatype Phase = Queued(previous: Option<nat>) | Mutating(committed: bool) | Published | Refused | Failed {
    predicate Settled() { Published? || Refused? || Failed? }
  }

  datatype Job = Job(generation: nat, persist: Persist, update: Option<Catalog>, phase: Phase)

  /** One provider: the generation and controller of its refresh, the generations whose signal has fired,
      the end of its publication chain, all publications ever made, the stored catalog and the models in
      use, and the publications that changed the store and the models, in order. */
  datatype Provider = Provider(
    generation: nat,
    controller: Option<nat>,
    aborted: set<nat>,
    chain: Option<nat>,
    jobs: seq<Job>,
    store: Option<Catalog>,
    models: Catalog,
    commits: seq<nat>,
    updates: seq<nat>)

  /** A provider that takes the place of another one brings its own models. */
  datatype Action =
    | Supersede
    | Replace(models: Catalog)
    | Begin
    | Finish(generation: nat)
    | CallerAborts(generation: nat)
    | Publish(generation: nat, persist: Persist, update: Option<Catalog>)
    | Start(i: nat)
    | Commit(i: nat)
    | Answer(i: nat, ok: bool)
    | Forget(i: nat)

  // ---- Steps -----------------------------------------------------------------------------------------

  function SupersedeProviderRefresh(p: Provider): Provider {
    p.(generation := p.generation + 1, controller := None,
       aborted := if p.controller.Some? then p.aborted + {p.controller.value} else p.aborted)
  }

  predicate Stale(p: Provider, generation: nat) {
    generation in p.aborted || generation != p.generation
  }

  function Enter(p: Provider, i: nat, phase: Phase): Provider
    requires i < |p.jobs|
  {
    p.(jobs := p.jobs[i := p.jobs[i].(phase := phase)])
  }

  /** The second check, and the update if it passes. */
  function Conclude(p: Provider, i: nat): Provider
    requires i < |p.jobs|
  {
    if Stale(p, p.jobs[i].generation) then Enter(p, i, Refused)
    else Enter(p, i, Published).(models := if p.jobs[i].update.Some? then p.jobs[i].update.value else p.models,
                                 updates := p.updates + [i])
  }

  function StartJob(p: Provider, i: nat): Provider
    requires i < |p.jobs|
  {
    if Stale(p, p.jobs[i].generation) then Enter(p, i, Refused)
    else if p.jobs[i].persist == Keep then Conclude(p, i)
    else Enter(p, i, Mutating(false))
  }

  function Stored(persist: Persist): Option<Catalog> {
    if persist.Write? then Some(persist.catalog) else None
  }

  predicate Turn(p: Provider, i: nat) {
    && i < |p.jobs| && p.jobs[i].phase.Queued?
    && var previous := p.jobs[i].phase.previous;
       previous == None || (previous.value < |p.jobs| && p.jobs[previous.value].phase.Settled())
  }

  predicate Supersedes(a: Action) { a.Supersede? || a.Replace? || a.Begin? }

  /** A publication belongs to a refresh that has begun. A store operation that succeeds has taken effect,
      and one that has been answered takes no effect afterwards. */
  predicate Enabled(p: Provider, a: Action) {
    match a
    case Publish(generation, _, _) => generation <= p.generation
    case Start(i) => Turn(p, i)
    case Commit(i) => i < |p.jobs| && p.jobs[i].phase == Mutating(false)
    case Answer(i, ok) => i < |p.jobs| && p.jobs[i].phase.Mutating? && (ok ==> p.jobs[i].phase.committed)
    case Forget(i) => i < |p.jobs| && p.jobs[i].phase.Settled()
    case _ => true
  }

  function Step(p: Provider, a: Action): Provider
    requires Enabled(p, a)
  {
    match a
    case Supersede => SupersedeProviderRefresh(p)
    case Replace(models) => SupersedeProviderRefresh(p).(models := models)
    case Begin => SupersedeProviderRefresh(p).(controller := Some(p.generation + 1))
    case Finish(generation) => if p.controller == Some(generation) then p.(controller := None) else p
    case CallerAborts(generation) => p.(aborted := p.aborted + {generation})
    case Publish(generation, persist, update) =>
      p.(jobs := p.jobs + [Job(generation, persist, update, Queued(p.chain))], chain := Some(|p.jobs|))
    case Start(i) => StartJob(p, i)
    case Commit(i) =>
      Enter(p, i, Mutating(true)).(store := Stored(p.jobs[i].persist), commits := p.commits + [i])
    case Answer(i, ok) => if ok then Conclude(p, i) else Enter(p, i, Failed)
    case Forget(i) => if p.chain == Some(i) then p.(chain := None) else p
  }

  // ---- The invariant ---------------------------------------------------------------------------------

  ghost predicate SettledBefore(jobs: seq<Job>, i: nat) {
    i <= |jobs| && forall j :: 0 <= j < i ==> jobs[j].phase.Settled()
  }

  /** The chain ends in the last publication, or all of them are over. */
  ghost predicate Chained(jobs: seq<Job>, chain: Option<nat>) {
    if chain.Some? then chain.value + 1 == |jobs| else SettledBefore(jobs, |jobs|)
  }

  /** Publications take turns: one is taken up only after all earlier ones are over. */
  ghost predicate Serial(jobs: seq<Job>) {
    forall i :: 0 <= i < |jobs| ==>
      match jobs[i].phase
      case Queued(previous) => if previous.Some? then previous.value + 1 == i else SettledBefore(jobs, i)
      case _ => SettledBefore(jobs, i)
  }

  /** Publications in order, of generations that do not go back, all taken up. */
  ghost predicate History(jobs: seq<Job>, h: seq<nat>) {
    && (forall a :: 0 <= a < |h| ==> h[a] < |jobs| && !jobs[h[a]].phase.Queued?)
    && (forall a, b :: 0 <= a < b < |h| ==> h[a] < h[b] && jobs[h[a]].generation <= jobs[h[b]].generation)
  }

  /** What a publication with a store operation in flight can rely on. */
  ghost predicate Exclusive(jobs: seq<Job>, commits: seq<nat>, i: nat)
    requires i < |jobs| && History(jobs, commits)
  {
    && jobs[i].persist != Keep
    && (jobs[i].phase == Mutating(true) ==> commits != [] && commits[|commits| - 1] == i)
    && (jobs[i].phase == Mutating(false) ==> forall a :: 0 <= a < |commits| ==> commits[a] < i)
    && forall a :: 0 <= a < |commits| ==> jobs[commits[a]].generation <= jobs[i].generation
  }

  ghost predicate AllExclusive(jobs: seq<Job>, commits: seq<nat>)
    requires History(jobs, commits)
  {
    forall i :: 0 <= i < |jobs| && jobs[i].phase.Mutating? ==> Exclusive(jobs, commits, i)
  }

  ghost predicate AllPublished(jobs: seq<Job>, updates: seq<nat>)
    requires History(jobs, updates)
  {
    forall a :: 0 <= a < |updates| ==> jobs[updates[a]].phase == Published
  }

  ghost predicate UpTo(jobs: seq<Job>, generation: nat) {
    forall i :: 0 <= i < |jobs| ==> jobs[i].generation <= generation
  }

  /** The store holds what was written to it last. */
  ghost predicate StoreIsLatest(jobs: seq<Job>, commits: seq<nat>, store: Option<Catalog>)
    requires History(jobs, commits)
  {
    commits != [] ==> store == Stored(jobs[commits[|commits| - 1]].persist)
  }

  ghost predicate Inv(p: Provider) {
    && Chained(p.jobs, p.chain) && Serial(p.jobs) && History(p.jobs, p.commits) && History(p.jobs, p.updates)
    && UpTo(p.jobs, p.generation) && AllExclusive(p.jobs, p.commits) && AllPublished(p.jobs, p.updates)
    && StoreIsLatest(p.jobs, p.commits, p.store)
  }

  lemma TurnIsNext(p: Provider, i: nat)
    requires Inv(p) && Turn(p, i)
    ensures SettledBefore(p.jobs, i)
    ensures forall j :: i < j < |p.jobs| ==> p.jobs[j].phase.Queued?
  {
    var previous := p.jobs[i].phase.previous;
    if previous.Some? { assert SettledBefore(p.jobs, previous.value); }
    OthersQueued(p, i);
  }

  lemma OthersQueued(p: Provider, i: nat)
    requires Serial(p.jobs) && i < |p.jobs| && !p.jobs[i].phase.Settled()
    ensures forall j :: i < j < |p.jobs| ==> p.jobs[j].phase.Queued?
  {
    forall j | i < j < |p.jobs| ensures p.jobs[j].phase.Queued? {
      assert !SettledBefore(p.jobs, j);
    }
  }

  /** Taking up or finishing a publication whose predecessors are over keeps everybody in turn. */
  lemma EnterKeepsOrder(p: Provider, i: nat, phase: Phase)
    requires Inv(p) && i < |p.jobs| && !p.jobs[i].phase.Settled() && SettledBefore(p.jobs, i) && !phase.Queued?
    ensures var p' := Enter(p, i, phase);
            Chained(p'.jobs, p.chain) && Serial(p'.jobs) && History(p'.jobs, p.commits) && History(p'.jobs, p.updates)
  {
    var p' := Enter(p, i, phase);
    OthersQueued(p, i);
    assert p.chain.Some? by { assert !SettledBefore(p.jobs, |p.jobs|); }
    forall j | 0 <= j < |p.jobs|
      ensures SettledBefore(p.jobs, j) ==> SettledBefore(p'.jobs, j)
    {
    }
    forall j | 0 <= j < |p.jobs|
      ensures match p'.jobs[j].phase
              case Queued(previous) => if previous.Some? then previous.value + 1 == j else SettledBefore(p'.jobs, j)
              case _ => SettledBefore(p'.jobs, j)
    {
      if j != i { assert p'.jobs[j] == p.jobs[j]; }
    }
    assert forall a :: 0 <= a < |p.commits| ==> p'.jobs[p.commits[a]].generation == p.jobs[p.commits[a]].generation;
    assert forall a :: 0 <= a < |p.updates| ==> p'.jobs[p.updates[a]].generation == p.jobs[p.updates[a]].generation;
  }

  lemma CommitKeeps(p: Provider, i: nat)
    requires Inv(p) && Enabled(p, Commit(i))
    ensures Inv(Step(p, Commit(i)))
  {
    EnterKeepsOrder(p, i, Mutating(true));
    hide Chained, Serial, SettledBefore;
    CommitKeepsHistories(p, i);
  }

  lemma CommitKeepsHistories(p: Provider, i: nat)
    requires Inv(p) && Enabled(p, Commit(i))
    requires History(Enter(p, i, Mutating(true)).jobs, p.commits) && History(Enter(p, i, Mutating(true)).jobs, p.updates)
    ensures var p' := Step(p, Commit(i));
            && History(p'.jobs, p'.commits) && History(p'.jobs, p'.updates) && AllExclusive(p'.jobs, p'.commits)
            && AllPublished(p'.jobs, p'.updates) && StoreIsLatest(p'.jobs, p'.commits, p'.store)
  {
    SerialExcludes(p);
    hide Serial, Chained;
    assert Exclusive(p.jobs, p.commits, i);
  }

  lemma GiveUpKeeps(p: Provider, i: nat, phase: Phase)
    requires Inv(p) && i < |p.jobs| && !p.jobs[i].phase.Settled() && SettledBefore(p.jobs, i)
    requires phase == Refused || phase == Failed
    ensures Inv(Enter(p, i, phase))
  {
    EnterKeepsOrder(p, i, phase);
  }

  /** Nothing in the history comes after a publication that is about to conclude. */
  lemma HistoryGrows(p: Provider, h: seq<nat>, i: nat)
    requires History(p.jobs, h) && i < |p.jobs| && !p.jobs[i].phase.Queued?
    requires forall a :: 0 <= a < |h| ==> h[a] < i && p.jobs[h[a]].generation <= p.jobs[i].generation
    ensures History(p.jobs, h + [i])
  {
  }

  lemma ConcludeKeeps(p: Provider, i: nat)
    requires Inv(p) && i < |p.jobs| && !p.jobs[i].phase.Settled() && SettledBefore(p.jobs, i)
    ensures Inv(Conclude(p, i))
  {
    if Stale(p, p.jobs[i].generation) {
      GiveUpKeeps(p, i, Refused);
      return;
    }
    EnterKeepsOrder(p, i, Published);
    OthersQueued(p, i);
    var p' := Conclude(p, i);
    HistoryGrows(p', p.updates, i);
    hide History, Serial, Chained;
    assert forall a :: 0 <= a < |p.updates| ==> p'.updates[a] == p.updates[a];
    assert forall j :: 0 <= j < |p.jobs| ==> !p'.jobs[j].phase.Mutating?;
  }

  lemma StartKeeps(p: Provider, i: nat)
    requires Inv(p) && Turn(p, i)
    ensures Inv(StartJob(p, i))
  {
    TurnIsNext(p, i);
    if Stale(p, p.jobs[i].generation) {
      GiveUpKeeps(p, i, Refused);
    } else if p.jobs[i].persist == Keep {
      ConcludeKeeps(p, i);
    } else {
      EnterKeepsOrder(p, i, Mutating(false));
    }
  }

  lemma PublishKeeps(p: Provider, generation: nat, persist: Persist, update: Option<Catalog>)
    requires Inv(p) && generation <= p.generation
    ensures Inv(Step(p, Publish(generation, persist, update)))
  {
    var p' := Step(p, Publish(generation, persist, update));
  }

  // ---- Runs --------------------------------------------------------------------------------------------

  const INITIAL := Provider(0, None, {}, None, [], None, [], [], [])

  lemma InitiallySound()
    ensures Inv(INITIAL)
  {
  }

  /** Nothing can break the invariant. */
  lemma StepKeeps(p: Provider, a: Action)
    requires Inv(p) && Enabled(p, a)
    ensures Inv(Step(p, a))
  {
    match a
    case Publish(generation, persist, update) => PublishKeeps(p, generation, persist, update);
    case Start(i) => StartKeeps(p, i);
    case Commit(i) => CommitKeeps(p, i);
    case Answer(i, ok) => if ok { ConcludeKeeps(p, i); } else { GiveUpKeeps(p, i, Failed); }
    case _ => BookkeepingKeeps(p, a);
  }

  lemma BookkeepingKeeps(p: Provider, a: Action)
    requires Inv(p) && Enabled(p, a) && (Supersedes(a) || a.Finish? || a.CallerAborts? || a.Forget?)
    ensures Inv(Step(p, a))
  {
    if a.Forget? { assert SettledBefore(p.jobs, a.i); }
  }

  ghost predicate Possible(p: Provider, actions: seq<Action>)
    decreases |actions|
  {
    actions == [] || (Enabled(p, actions[0]) && Possible(Step(p, actions[0]), actions[1..]))
  }

  ghost function Run(p: Provider, actions: seq<Action>): Provider
    requires Possible(p, actions)
    decreases |actions|
  {
    if actions == [] then p else Run(Step(p, actions[0]), actions[1..])
  }

  lemma {:induction false} RunKeeps(p: Provider, actions: seq<Action>)
    requires Inv(p) && Possible(p, actions)
    ensures Inv(Run(p, actions))
    decreases |actions|
  {
    if actions != [] {
      StepKeeps(p, actions[0]);
      RunKeeps(Step(p, actions[0]), actions[1..]);
    }
  }

  /** Store operations never overlap. */
  ghost predicate OneAtATime(p: Provider) {
    forall i, j :: 0 <= i < j < |p.jobs| && p.jobs[i].phase.Mutating? ==> !p.jobs[j].phase.Mutating?
  }

  lemma SerialExcludes(p: Provider)
    requires Serial(p.jobs)
    ensures OneAtATime(p)
  {
    forall i, j | 0 <= i < j < |p.jobs| && p.jobs[i].phase.Mutating?
      ensures !p.jobs[j].phase.Mutating?
    {
      OthersQueued(p, i);
    }
  }

  /** In every run store operations never overlap, stored catalogs and updates are made in the order of
      publication, and their generations never go back; the store holds what was written last. */
  lemma PublicationsAreSerial(actions: seq<Action>)
    requires Possible(INITIAL, actions)
    ensures var p := Run(INITIAL, actions);
            OneAtATime(p) && History(p.jobs, p.commits) && History(p.jobs, p.updates) && StoreIsLatest(p.jobs, p.commits, p.store)
  {
    hide Run, Possible, OneAtATime, Serial, History, StoreIsLatest, AllExclusive, AllPublished, UpTo, Chained;
    InitiallySound();
    RunKeeps(INITIAL, actions);
    SerialExcludes(Run(INITIAL, actions));
  }

  /** An update runs only for the current refresh, whose signal has not fired; and if the publication
      persists a catalog, the store then holds exactly that one. */
  lemma UpdateIsCurrent(p: Provider, a: Action)
    requires Inv(p) && Enabled(p, a) && Step(p, a).updates != p.updates
    ensures var p' := Step(p, a);
            && |p'.updates| == |p.updates| + 1
            && var job := p'.jobs[p'.updates[|p.updates|]];
               && job.generation == p.generation && job.generation !in p.aborted
               && (job.update.Some? ==> p'.models == job.update.value)
               && (job.persist != Keep ==> p'.store == Stored(job.persist))
  {
    if a.Answer? { assert Exclusive(p.jobs, p.commits, a.i); }
  }

  /** Publications keep what they were made with, histories only grow, generations never go back. */
  lemma StepExtends(p: Provider, a: Action)
    requires Enabled(p, a)
    ensures var p' := Step(p, a);
            && p.generation <= p'.generation && p.commits <= p'.commits && p.updates <= p'.updates
            && |p.jobs| <= |p'.jobs|
            && forall i :: 0 <= i < |p.jobs| ==> p'.jobs[i].generation == p.jobs[i].generation
  {
  }

  ghost predicate NewUpdatesAbove(p: Provider, since: nat, bound: nat) {
    forall a :: since <= a < |p.updates| ==> p.updates[a] < |p.jobs| && p.jobs[p.updates[a]].generation > bound
  }

  lemma {:induction false} RunStaysAbove(p: Provider, actions: seq<Action>, since: nat, bound: nat)
    requires Inv(p) && Possible(p, actions) && p.generation > bound && NewUpdatesAbove(p, since, bound)
    ensures NewUpdatesAbove(Run(p, actions), since, bound)
    decreases |actions|
  {
    if actions != [] {
      var p' := Step(p, actions[0]);
      StepKeeps(p, actions[0]);
      StepExtends(p, actions[0]);
      if p'.updates != p.updates { UpdateIsCurrent(p, actions[0]); }
      assert NewUpdatesAbove(p', since, bound);
      RunStaysAbove(p', actions[1..], since, bound);
    }
  }

  /** Once a refresh is superseded, by another one or because its provider was replaced or deleted, none
      of its updates runs, whatever happens. */
  lemma NoUpdateOnceSuperseded(p: Provider, a: Action, actions: seq<Action>)
    requires Inv(p) && Supersedes(a) && Possible(Step(p, a), actions)
    ensures NewUpdatesAbove(Run(Step(p, a), actions), |p.updates|, p.generation)
  {
    StepKeeps(p, a);
    RunStaysAbove(Step(p, a), actions, |p.updates|, p.generation);
  }

  /** The chain never gets stuck: if a publication is not over, the first such one can go on. */
  lemma {:induction false} SomethingCanHappen(p: Provider, i: nat) returns (first: nat)
    requires Inv(p) && i < |p.jobs| && !p.jobs[i].phase.Settled()
    ensures first <= i && !p.jobs[first].phase.Settled() && SettledBefore(p.jobs, first)
    ensures if p.jobs[first].phase.Queued? then Enabled(p, Start(first)) else Enabled(p, Answer(first, false))
  {
    if SettledBefore(p.jobs, i) {
      first := i;
    } else {
      var j :| 0 <= j < i && !p.jobs[j].phase.Settled();
      first := SomethingCanHappen(p, j);
    }
  }
}
