/** packages/ai/src/models.ts: the maps of the model registry, one entry per provider, and the merged list
    of a provider's models. */
module ModelsImpl {
  import opened Options
  import opened Publication
  import Effects = PublicationEffects

  class ModelsImpl {
    var providers: set<string>
    var refreshGenerations: map<string, nat>
    var refreshControllers: map<string, nat>
    var publicationChains: map<string, nat>
    var abortedRefreshes: map<string, set<nat>>
    /** What the promises of a provider's publications are up to. */
    var jobs: map<string, seq<Job>>
    var modelsStore: map<string, Catalog>
    var dynamicModels: map<string, Catalog>
    ghost var commits: map<string, seq<nat>>
    ghost var updates: map<string, seq<nat>>

    ghost function View(id: string): Provider
      reads this
    {
      Provider(Get(refreshGenerations, id, 0), Find(refreshControllers, id), Get(abortedRefreshes, id, {}),
               Find(publicationChains, id), Get(jobs, id, []), Find(modelsStore, id), Get(dynamicModels, id, []),
               Get(commits, id, []), Get(updates, id, []))
    }

    twostate predicate Only(id: string)
      reads this
    {
      forall other :: other != id ==> View(other) == old(View(other))
    }

    constructor ()
      ensures providers == {} && forall id :: View(id) == INITIAL
    {
      providers, refreshGenerations, refreshControllers, publicationChains := {}, map[], map[], map[];
      abortedRefreshes, jobs, modelsStore, dynamicModels := map[], map[], map[], map[];
      commits, updates := map[], map[];
    }

    // ---- Providers ---------------------------------------------------------------------------------

    method SupersedeProviderRefresh(id: string) returns (generation: nat)
      modifies this`refreshGenerations, this`refreshControllers, this`abortedRefreshes
      ensures Only(id) && View(id) == Step(old(View(id)), Supersede) && generation == View(id).generation
    {
      generation := Get(refreshGenerations, id, 0) + 1;
      refreshGenerations := refreshGenerations[id := generation];
      if id in refreshControllers {
        abortedRefreshes := abortedRefreshes[id := Get(abortedRefreshes, id, {}) + {refreshControllers[id]}];
        refreshControllers := refreshControllers - {id};
      }
      forall other | other != id ensures View(other) == old(View(other)) {}
    }

    method SetModels(id: string, models: Catalog)
      modifies this`dynamicModels
      ensures Only(id) && View(id) == old(View(id)).(models := models)
    {
      dynamicModels := dynamicModels[id := models];
    }

    /** The provider comes with its own dynamic models: none if it is new. */
    method SetProvider(id: string, models: Catalog)
      modifies this
      ensures Only(id) && View(id) == Step(old(View(id)), Replace(models)) && providers == old(providers) + {id}
    {
      var _ := SupersedeProviderRefresh(id);
      SetModels(id, models);
      providers := providers + {id};
    }

    method DeleteProvider(id: string)
      modifies this
      ensures Only(id) && View(id) == Step(old(View(id)), Replace([])) && providers == old(providers) - {id}
    {
      var _ := SupersedeProviderRefresh(id);
      SetModels(id, []);
      providers := providers - {id};
    }

    /** Every provider there is, and every refresh still under way, is superseded. */
    method ClearProviders()
      modifies this
      ensures providers == {}
      ensures forall id :: View(id) == if id in old(providers) || id in old(refreshControllers)
                                       then Step(old(View(id)), Replace([])) else old(View(id))
    {
      hide Step, View;
      var all := providers + refreshControllers.Keys;
      var left := all;
      while left != {}
        invariant left <= all
        invariant forall id :: View(id) == if id in all && id !in left then Step(old(View(id)), Replace([])) else old(View(id))
        decreases |left|
      {
        var id :| id in left;
        left := left - {id};
        DeleteProvider(id);
      }
      ForgetProviders();
    }

    method ForgetProviders()
      modifies this`providers
      ensures providers == {} && forall id :: View(id) == old(View(id))
    {
      providers := {};
    }

    method BeginProviderRefresh(id: string) returns (generation: nat)
      modifies this`refreshGenerations, this`refreshControllers, this`abortedRefreshes
      ensures Only(id) && View(id) == Step(old(View(id)), Begin) && generation == View(id).generation
    {
      generation := SupersedeProviderRefresh(id);
      refreshControllers := refreshControllers[id := generation];
    }

    method FinishProviderRefresh(id: string, generation: nat)
      modifies this`refreshControllers
      ensures Only(id) && View(id) == Step(old(View(id)), Finish(generation))
    {
      if id in refreshControllers && refreshControllers[id] == generation {
        refreshControllers := refreshControllers - {id};
      }
    }

    // ---- Publications ---------------------------------------------------------------------------------

    method PublishProviderModels(id: string, generation: nat, persist: Persist, update: Option<Catalog>) returns (i: nat)
      requires generation <= View(id).generation
      modifies this`jobs, this`publicationChains
      ensures Only(id) && View(id) == Step(old(View(id)), Publish(generation, persist, update)) && i + 1 == |View(id).jobs|
    {
      i := |Get(jobs, id, [])|;
      var previous := Find(publicationChains, id);
      jobs := jobs[id := Get(jobs, id, []) + [Job(generation, persist, update, Queued(previous))]];
      publicationChains := publicationChains[id := i];
    }

    method Enter(id: string, i: nat, phase: Phase)
      requires i < |View(id).jobs|
      modifies this`jobs
      ensures Only(id) && View(id) == Publication.Enter(old(View(id)), i, phase)
    {
      jobs := jobs[id := jobs[id][i := jobs[id][i].(phase := phase)]];
    }

    method IsStale(id: string, generation: nat) returns (stale: bool)
      ensures stale == Stale(View(id), generation)
    {
      stale := generation in Get(abortedRefreshes, id, {}) || Get(refreshGenerations, id, 0) != generation;
    }

    ghost method NoteUpdate(id: string, i: nat)
      modifies this`updates
      ensures Only(id) && View(id) == old(View(id)).(updates := old(View(id)).updates + [i])
    {
      updates := updates[id := Get(updates, id, []) + [i]];
    }

    /** The rest of a publication once the store has been written. */
    method Conclude(id: string, i: nat) returns (published: bool)
      requires i < |View(id).jobs|
      modifies this`jobs, this`dynamicModels, this`updates
      ensures Only(id) && View(id) == Publication.Conclude(old(View(id)), i)
      ensures published == !Stale(View(id), View(id).jobs[i].generation)
    {
      var job := jobs[id][i];
      var stale := IsStale(id, job.generation);
      if stale {
        Enter(id, i, Refused);
        return false;
      }
      if job.update.Some? { SetModels(id, job.update.value); }
      Enter(id, i, Published);
      NoteUpdate(id, i);
      published := true;
    }

    /** A publication whose turn has come. */
    method TakeTurn(id: string, i: nat)
      requires Enabled(View(id), Start(i))
      modifies this`jobs, this`dynamicModels, this`updates
      ensures Only(id) && View(id) == Step(old(View(id)), Start(i))
    {
      var job := jobs[id][i];
      var stale := IsStale(id, job.generation);
      if stale {
        Enter(id, i, Refused);
      } else if job.persist == Keep {
        var _ := Conclude(id, i);
      } else {
        Enter(id, i, Mutating(false));
      }
    }

    ghost method NoteCommit(id: string, i: nat)
      modifies this`commits
      ensures Only(id) && View(id) == old(View(id)).(commits := old(View(id)).commits + [i])
    {
      commits := commits[id := Get(commits, id, []) + [i]];
    }

    /** The store operation takes effect. */
    method MutateStore(id: string, i: nat)
      requires Enabled(View(id), Commit(i))
      modifies this`jobs, this`modelsStore, this`commits
      ensures Only(id) && View(id) == Step(old(View(id)), Commit(i))
    {
      var job := jobs[id][i];
      modelsStore := if job.persist.Write? then modelsStore[id := job.persist.catalog] else modelsStore - {id};
      Enter(id, i, Mutating(true));
      NoteCommit(id, i);
    }

    method StoreAnswered(id: string, i: nat, ok: bool)
      requires Enabled(View(id), Answer(i, ok))
      modifies this`jobs, this`dynamicModels, this`updates
      ensures Only(id) && View(id) == Step(old(View(id)), Answer(i, ok))
      ensures Inv(old(View(id))) ==> Effects.AnswerDone(old(View(id)), View(id), i, ok)
    {
      hide Inv, Effects.AnswerDone;
      if Inv(View(id)) { Effects.AnswerDoes(View(id), i, ok); }
      if ok {
        var _ := Conclude(id, i);
      } else {
        Enter(id, i, Failed);
      }
    }

    /** A settled tail leaves the map, unless another publication has replaced it. */
    method ForgetTail(id: string, i: nat)
      requires Enabled(View(id), Forget(i))
      modifies this`publicationChains
      ensures Only(id) && View(id) == Step(old(View(id)), Forget(i))
    {
      if id in publicationChains && publicationChains[id] == i {
        publicationChains := publicationChains - {id};
      }
    }
  }

  // ---- A provider's models -----------------------------------------------------------------------------

  /** The first model with this id. */
  function Lookup(models: Catalog, id: string): Option<Model> {
    if models == [] then None
    else if models[0].id == id then Some(models[0])
    else Lookup(models[1..], id)
  }

  /** The last model with this id. */
  function Latest(models: Catalog, id: string): Option<Model> {
    if models == [] then None
    else if models[|models| - 1].id == id then Some(models[|models| - 1])
    else Latest(models[..|models| - 1], id)
  }

  lemma {:induction false} LookupReplaced(models: Catalog, i: nat, m: Model, id: string)
    requires i < |models| && models[i].id == m.id && forall k :: 0 <= k < i ==> models[k].id != m.id
    ensures Lookup(models[i := m], id) == if id == m.id then Some(m) else Lookup(models, id)
  {
    if i > 0 {
      LookupReplaced(models[1..], i - 1, m, id);
      assert models[i := m][1..] == models[1..][i - 1 := m];
    } else {
      assert models[0 := m][1..] == models[1..];
    }
  }

  lemma {:induction false} LookupAppended(models: Catalog, m: Model, id: string)
    requires forall k :: 0 <= k < |models| ==> models[k].id != m.id
    ensures Lookup(models + [m], id) == if id == m.id then Some(m) else Lookup(models, id)
  {
    if models != [] {
      LookupAppended(models[1..], m, id);
      assert (models + [m])[1..] == models[1..] + [m];
    }
  }

  /** What a lookup in the merged list finds. */
  function Merged(baseline: Catalog, dynamic: Catalog, id: string): Option<Model> {
    var latest := Latest(dynamic, id);
    if latest.Some? then latest else Lookup(baseline, id)
  }

  method FindIndex(models: Catalog, id: string) returns (index: nat)
    ensures index <= |models| && forall k :: 0 <= k < index ==> models[k].id != id
    ensures index < |models| ==> models[index].id == id
  {
    index := 0;
    while index < |models| && models[index].id != id
      invariant index <= |models| && forall k :: 0 <= k < index ==> models[k].id != id
    {
      index := index + 1;
    }
  }

  /** The merged list keeps the places of the baseline, overrides each entry by the latest dynamic model
      with its id, and appends every other dynamic model once. */
  method CurrentModels(baseline: Catalog, dynamic: Catalog) returns (merged: Catalog)
    ensures forall id :: Lookup(merged, id) == Merged(baseline, dynamic, id)
    ensures |merged| >= |baseline| && forall k :: 0 <= k < |baseline| ==> merged[k].id == baseline[k].id
    ensures forall a, b :: 0 <= a < b < |merged| && |baseline| <= b ==> merged[a].id != merged[b].id
  {
    merged := baseline;
    for n := 0 to |dynamic|
      invariant forall id :: Lookup(merged, id) == Merged(baseline, dynamic[..n], id)
      invariant |merged| >= |baseline| && forall k :: 0 <= k < |baseline| ==> merged[k].id == baseline[k].id
      invariant forall a, b :: 0 <= a < b < |merged| && |baseline| <= b ==> merged[a].id != merged[b].id
    {
      var model := dynamic[n];
      assert dynamic[..n + 1][..n] == dynamic[..n];
      var index := FindIndex(merged, model.id);
      ghost var before := merged;
      merged := if index < |merged| then merged[index := model] else merged + [model];
      forall id: string ensures Lookup(merged, id) == Merged(baseline, dynamic[..n + 1], id) {
        if index < |before| {
          LookupReplaced(before, index, model, id);
        } else {
          LookupAppended(before, model, id);
        }
      }
    }
    assert dynamic[..|dynamic|] == dynamic;
  }
}
