/** packages/client/src/client.ts: what each step of the lease protocol is for, said in terms of the leases
    held and reserved, of the requests under way, and of who may acquire next. */
module LeaseEffects {
  import opened Options
  import opened SessionLeases

  /** Nothing has happened to any other acquisition or handle, or to the generation. */
  ghost predicate OnlyTouches(s: Session, s': Session, t: Token) {
    && s'.generation == s.generation
    && (forall u :: u != t ==> (u in s'.reservations <==> u in s.reservations) && (u in s'.handles <==> u in s.handles))
    && (forall u :: u != t && u in s.reservations ==> s'.reservations[u] == s.reservations[u])
    && (forall u :: u != t && u in s.handles ==> s'.handles[u] == s.handles[u])
  }

  /** Everybody who waited for p goes on as q, nobody else does, and nobody has come or gone. */
  ghost predicate Wakes(s: Session, s': Session, p: Progress, q: Progress) {
    && s'.reservations.Keys == s.reservations.Keys
    && forall t :: t in s.reservations ==>
                     && s'.reservations[t].mode == s.reservations[t].mode
                     && s'.reservations[t].at == if s.reservations[t].at == p then q else s.reservations[t].at
  }

  // ---- Releasing -------------------------------------------------------------------------------------------

  /** A confirmed detach gives the lease up: nobody holds the session any more, it is not attached, and
      everybody who has reserved it has been woken. Without reservations anybody may have it. */
  lemma ConfirmedDetachGivesUp(s: Session)
    requires Inv(s) && Enabled(s, DetachSettled(true))
    ensures var t, s' := s.detaching.value, Step(s, DetachSettled(true));
            && Inv(s') && GivenUp(s') && t !in s'.handles && OnlyHandles(s, s', t) && !s'.cleanupRequired
            && Wakes(s, s', ForDetach, Detached)
            && (forall u :: u in s'.reservations ==> s'.reservations[u].at == Detached)
  {
    StepKeepsIff(s, DetachSettled(true));
    SettleDetachAccounts(s, true);
    var s' := Step(s, DetachSettled(true));
    assert |s'.reservations| == |s'.reservations.Keys| == |s.reservations|;
    assert s'.Current() == {} by { assert s.Current() == {s.detaching.value}; }
  }

  /** Nobody holds the session, and it is not attached; without reservations anybody may have it. */
  ghost predicate GivenUp(s: Session) {
    && s.Current() == {} && s.count == |s.reservations| && !s.attached && s.detaching == None
    && (s.reservations == map[] ==> s.Unused() && !Refused(s, Exclusive) && !Refused(s, Shared))
  }

  ghost predicate OnlyHandles(s: Session, s': Session, t: Token) {
    && s'.generation == s.generation
    && (forall u :: u != t ==> (u in s'.handles <==> u in s.handles))
    && (forall u :: u != t && u in s.handles ==> s'.handles[u] == s.handles[u])
  }

  /** After a detach that failed the lease is active again, unless it was to be given up in that case: then
      nobody holds the session, and a clean-up is due before it is attached again. */
  lemma FailedDetachKeepsOrGivesUp(s: Session)
    requires Inv(s) && Enabled(s, DetachSettled(false))
    ensures var t, s' := s.detaching.value, Step(s, DetachSettled(false));
            && Inv(s') && OnlyHandles(s, s', t) && s'.attached == s.attached && s'.detaching == None
            && Wakes(s, s', ForDetach, Detached)
            && (s.handles[t].phase.relinquishOnFailure ==>
                  s'.Current() == {} && s'.count == |s.reservations| && s'.cleanupRequired && t !in s'.handles)
            && (!s.handles[t].phase.relinquishOnFailure ==>
                  s'.Current() == {t} && s'.IsActive(t) && s'.handles[t].mode == s.handles[t].mode
                  && s'.count == s.count && !s'.cleanupRequired)
  {
    StepKeepsIff(s, DetachSettled(false));
    SettleDetachAccounts(s, false);
    var s' := Step(s, DetachSettled(false));
    assert |s'.reservations| == |s'.reservations.Keys| == |s.reservations|;
    var t := s.detaching.value;
    if s.handles[t].phase.relinquishOnFailure {
      assert s'.Current() == {} by { assert s.Current() == {t}; }
    }
  }

  /** What a release does: a lease that is not the last one is given up at once, the last one stays held while
      its detach is under way, and anything else that is released changes nothing. */
  lemma ReleaseDoes(s: Session, t: Token, relinquishOnFailure: bool, permitted: bool)
    requires Inv(s) && t in s.handles
    ensures var s' := Step(s, Release(t, relinquishOnFailure, permitted));
            var last := s.Current() == {t} && s.reservations == map[];
            && OnlyTouches(s, s', t) && s'.reservations == s.reservations && s'.attached == s.attached
            && s'.cleanupRequired == s.cleanupRequired && s'.attaching == s.attaching && s'.reconciling == s.reconciling
            && (s.IsActive(t) && permitted && s.attached && !last ==>
                  && t !in s'.handles && s'.Current() == s.Current() - {t} && s'.count == s.count - 1
                  && s'.detaching == s.detaching)
            && (s.IsActive(t) && permitted && s.attached && last ==>
                  && s'.detaching == Some(t) && s'.Current() == {t} && s'.count == 1
                  && s'.handles[t] == Handle(s.handles[t].mode, s.generation, Releasing(relinquishOnFailure)))
            && (!(s.IsActive(t) && permitted && s.attached) ==> s' == s)
  {
    var s' := Step(s, Release(t, relinquishOnFailure, permitted));
    if s.IsActive(t) && permitted && s.attached {
      StepKeepsIff(s, Release(t, relinquishOnFailure, permitted));
      assert t in s.Current();
      assert s.count <= 1 <==> s.Current() == {t} && s.reservations == map[] by { LastIff(s, t); }
      if s.count <= 1 {
        assert s'.Current() == s.Current();
      } else {
        assert s'.Current() == s.Current() - {t};
      }
    }
  }

  lemma LastIff(s: Session, t: Token)
    requires Accounted(s) && t in s.Current()
    ensures s.count <= 1 <==> s.Current() == {t} && s.reservations == map[]
    ensures s.count > 0
  {
    assert |s.Current() - {t}| == |s.Current()| - 1;
    if s.count <= 1 {
      assert |s.Current() - {t}| == 0 && |s.reservations| == 0;
      assert s.Current() - {t} == {};
    }
  }

  // ---- Acquiring -------------------------------------------------------------------------------------------

  /** Where an acquisition can be once it has got as far as it can: the lease is active, or it has been given
      back, or it waits for a request that is under way. */
  ghost predicate IsGranted(s: Session, t: Token, mode: Mode) {
    t !in s.reservations && s.IsActive(t) && s.handles[t].mode == mode
  }

  ghost predicate Gone(s: Session, t: Token) { t !in s.reservations && t !in s.handles }

  ghost predicate Pending(s: Session, t: Token, mode: Mode, p: Progress) {
    && t !in s.handles && t in s.reservations && s.reservations[t] == Reservation(mode, p)
    && (p == ForDetach ==> s.detaching.Some?) && (p == ForReconcile ==> s.reconciling) && (p == ForAttach ==> s.attaching)
  }

  /** How an acquisition goes on with no detach in its way. It is granted at once exactly if the session is
      attached and clean; it waits for the clean-up if one is due, and for the attachment otherwise; it fails
      exactly if there is no such request yet and none can be sent. */
  ghost predicate Proceeds(s: Session, s': Session, t: Token, mode: Mode, sent: bool) {
    && (IsGranted(s', t, mode) <==> !s.cleanupRequired && s.attached)
    && (Pending(s', t, mode, ForReconcile) <==> s.cleanupRequired && (s.reconciling || sent))
    && (Pending(s', t, mode, ForAttach) <==> !s.cleanupRequired && !s.attached && (s.attaching || sent))
    && (Gone(s', t) <==> !sent && if s.cleanupRequired then !s.reconciling else !s.attached && !s.attaching)
    && (Pending(s', t, mode, ForReconcile) || s'.reconciling == s.reconciling)
    && (Pending(s', t, mode, ForAttach) || s'.attaching == s.attaching)
  }

  /** The step is about this acquisition, and about the requests it waits for, only. */
  ghost predicate Stands(s: Session, s': Session, t: Token) {
    && OnlyTouches(s, s', t) && s'.attached == s.attached && s'.detaching == s.detaching
    && s'.cleanupRequired == s.cleanupRequired
  }

  lemma ProceedDoes(s: Session, t: Token, sent: bool)
    requires t in s.reservations && t !in s.handles
    ensures var s' := Proceed(s, t, sent);
            && Stands(s, s', t) && Proceeds(s, s', t, s.reservations[t].mode, sent)
            && (t in s'.handles ==> s'.handles[t].generation == s'.generation)
  {
  }

  lemma ReconciledAttaches(s: Session, t: Token, sent: bool)
    requires t in s.reservations && t !in s.handles
    ensures var (mode, s') := (s.reservations[t].mode, AttachIfNeeded(s, t, true, sent));
            && Stands(s, s', t) && t !in s'.handles
            && if s.attaching || sent then Pending(s', t, mode, ForAttach) else Gone(s', t)
  {
  }

  /** Having been reserved makes no difference to the session but for the reservation. */
  lemma ReservedProceeds(s: Session, r: Session, s': Session, t: Token, mode: Mode, sent: bool)
    requires r == Reserve(s, t, mode, Detached) && Stands(r, s', t) && Proceeds(r, s', t, mode, sent)
    ensures Stands(s, s', t) && Proceeds(s, s', t, mode, sent)
  {
    hide IsGranted, Pending, Gone;
  }

  lemma AcquireSettles(s: Session, t: Token, mode: Mode, sent: bool)
    requires Enabled(s, Acquire(t, mode, sent)) && !Refused(s, mode)
    ensures var s' := Step(s, Acquire(t, mode, sent));
            && Stands(s, s', t) && (t in s'.handles ==> s'.handles[t].generation == s'.generation)
            && (s.detaching.Some? ==> Pending(s', t, mode, ForDetach) && s'.attaching == s.attaching && s'.reconciling == s.reconciling)
            && (s.detaching == None ==> Proceeds(s, s', t, mode, sent))
  {
    if s.detaching == None {
      var r := Reserve(s, t, mode, Detached);
      ProceedDoes(r, t, sent);
      ReservedProceeds(s, r, Proceed(r, t, sent), t, mode, sent);
      hide Proceeds, Stands, OnlyTouches;
    }
  }

  /** What an acquisition comes to at once: a refused one changes nothing at all, one that finds a detach under
      way waits for it, and any other goes on. */
  lemma AcquireDoes(s: Session, t: Token, mode: Mode, sent: bool)
    requires Inv(s) && Enabled(s, Acquire(t, mode, sent))
    ensures var s' := Step(s, Acquire(t, mode, sent));
            && Inv(s') && Stands(s, s', t)
            && (Refused(s, mode) ==> s' == s)
            && (!Refused(s, mode) && s.detaching.Some? ==> Pending(s', t, mode, ForDetach))
            && (!Refused(s, mode) && s.detaching == None ==> Proceeds(s, s', t, mode, sent))
            && s'.count == s.count + if Gone(s', t) then 0 else 1
  {
    StepKeepsIff(s, Acquire(t, mode, sent));
    var s' := Step(s, Acquire(t, mode, sent));
    if Refused(s, mode) {
      assert s' == s;
    } else {
      AcquireSettles(s, t, mode, sent);
      hide Step, Proceeds, Pending, IsGranted, Gone, Refused;
      CountFollows(s, s', t);
    }
  }

  lemma SameButOne<T>(a: set<T>, b: set<T>, t: T)
    requires a - {t} == b - {t}
    ensures |b| == |a| + (if t in b then 1 else 0) - if t in a then 1 else 0
  {
    assert |a - {t}| == |a| - if t in a then 1 else 0;
    assert |b - {t}| == |b| - if t in b then 1 else 0;
  }

  lemma TouchedSets(s: Session, s': Session, t: Token)
    requires OnlyTouches(s, s', t)
    ensures s.reservations.Keys - {t} == s'.reservations.Keys - {t}
    ensures s.Current() - {t} == s'.Current() - {t}
  {
  }

  /** The count follows the one acquisition that was touched. */
  lemma CountFollows(s: Session, s': Session, t: Token)
    requires Accounted(s) && Accounted(s') && OnlyTouches(s, s', t) && t !in s.handles
    requires t in s'.handles ==> s'.handles[t].generation == s'.generation
    ensures s'.count == s.count + (if Gone(s', t) then 0 else 1) - if t in s.reservations then 1 else 0
  {
    TouchedSets(s, s', t);
    SameButOne(s.reservations.Keys, s'.reservations.Keys, t);
    SameButOne(s.Current(), s'.Current(), t);
    hide OnlyTouches;
    assert t in s'.handles <==> t in s'.Current();
    assert |s'.reservations.Keys| == |s'.reservations| && |s.reservations.Keys| == |s.reservations|;
  }

  lemma ResumeSettles(s: Session, t: Token, sent: bool)
    requires Enabled(s, Resume(t, sent)) && t !in s.handles
    ensures var (mode, at, s') := (s.reservations[t].mode, s.reservations[t].at, Step(s, Resume(t, sent)));
            && Stands(s, s', t) && (t in s'.handles ==> s'.handles[t].generation == s'.generation)
            && (at == AttachedOk ==> IsGranted(s', t, mode))
            && (at == Failed ==> Gone(s', t))
            && (at == Reconciled ==> if s.attaching || sent then Pending(s', t, mode, ForAttach) else Gone(s', t))
            && (at == Detached ==> Proceeds(s, s', t, mode, sent))
  {
    ReconciledAttaches(s, t, sent);
    GrantedOrGone(s, t);
    ProceedDoes(s, t, sent);
    hide Proceeds, Proceed, Pending, IsGranted, Gone, Stands, AttachIfNeeded, SessionLeases.CreateSessionLease, GiveBack;
  }

  lemma GrantedOrGone(s: Session, t: Token)
    requires t in s.reservations && t !in s.handles
    ensures var s' := SessionLeases.CreateSessionLease(s, t);
            && Stands(s, s', t) && IsGranted(s', t, s.reservations[t].mode) && s'.handles[t].generation == s'.generation
    ensures Stands(s, GiveBack(s, t), t) && Gone(GiveBack(s, t), t)
  {
  }

  /** What a woken acquisition comes to: after an attachment it is granted, after a failed request given back;
      after a clean-up the session is attached anew, even if it is attached; after a detach it goes on. */
  lemma ResumeDoes(s: Session, t: Token, sent: bool)
    requires Inv(s) && Enabled(s, Resume(t, sent))
    ensures var (mode, at, s') := (s.reservations[t].mode, s.reservations[t].at, Step(s, Resume(t, sent)));
            && Inv(s') && Stands(s, s', t)
            && (at == AttachedOk ==> IsGranted(s', t, mode))
            && (at == Failed ==> Gone(s', t))
            && (at == Reconciled ==> if s.attaching || sent then Pending(s', t, mode, ForAttach) else Gone(s', t))
            && (at == Detached ==> Proceeds(s, s', t, mode, sent))
            && s'.count == if Gone(s', t) then s.count - 1 else s.count
  {
    StepKeepsIff(s, Resume(t, sent));
    assert t !in s.handles;
    ResumeSettles(s, t, sent);
    hide Step, Proceeds, Pending, IsGranted, Gone;
    CountFollows(s, Step(s, Resume(t, sent)), t);
  }

  // ---- Answers and events --------------------------------------------------------------------------------------

  /** The answer to an attachment wakes everybody who waits for it, as granted or as failed; only a good answer
      says whether the session is attached. */
  lemma AttachAnswerWakes(s: Session, ok: bool, attached: bool)
    requires Inv(s) && s.attaching
    ensures var s' := Step(s, AttachSettled(ok, attached));
            && Inv(s') && !s'.attaching && !s'.Waits(ForAttach)
            && Wakes(s, s', ForAttach, if ok then AttachedOk else Failed)
            && s'.attached == (if ok then attached else s.attached)
            && s'.handles == s.handles && s'.count == s.count && s'.generation == s.generation
  {
    StepKeepsIff(s, AttachSettled(ok, attached));
  }

  /** A clean-up that succeeds leaves the session clean and detached, and wakes those who wait for it; one that
      fails leaves it due. */
  lemma CleanupAnswerWakes(s: Session, ok: bool)
    requires Inv(s) && s.reconciling
    ensures var s' := Step(s, ReconcileSettled(ok));
            && Inv(s') && !s'.reconciling && !s'.Waits(ForReconcile)
            && Wakes(s, s', ForReconcile, if ok then Reconciled else Failed)
            && s'.cleanupRequired == !ok && (ok ==> !s'.attached) && (!ok ==> s'.attached == s.attached)
            && s'.handles == s.handles && s'.count == s.count && s'.generation == s.generation
  {
    StepKeepsIff(s, ReconcileSettled(ok));
  }

  /** A created session is leased exclusively at once if nobody reserves or holds it, and not at all otherwise. */
  lemma CreateDoes(s: Session, t: Token, attached: bool)
    requires Inv(s) && Enabled(s, Create(t, attached))
    ensures var s' := Step(s, Create(t, attached));
            && OnlyTouches(s, s', t) && s'.attached == attached
            && (IsGranted(s', t, Exclusive) <==> s.Unused()) && (Gone(s', t) <==> !s.Unused())
            && s'.count == (if s.Unused() then 1 else s.count)
            && s'.exclusive == if s.Unused() then Some(t) else s.exclusive
  {
    RefusedIffTaken(s);
    NoneIfEmpty(s);
  }

  /** Whatever is held is invalidated when the session is removed or the connection is lost: no lease is active
      any more, and a session nobody is still acquiring is free for anybody. */
  lemma InvalidationEndsLeases(s: Session, a: Action, t: Token)
    requires Inv(s) && (a == Removed || a == Disconnected)
    ensures var s' := Step(s, a);
            && !s'.IsCurrent(t) && s'.Current() == {} && s'.count == 0 && !s'.attached && !s'.cleanupRequired
            && !Refused(s', Exclusive) && !Refused(s', Shared)
            && (a == Disconnected ==> !s'.attaching && !s'.reconciling && s'.detaching == None
                                      && forall u :: u in s'.reservations ==> s'.reservations[u].at == AttachedOk)
            && (a == Removed ==> s'.reservations == s.reservations)
            && s'.handles == s.handles
  {
    if a == Disconnected {
      DisconnectForgets(s);
      assert t in Step(s, a).Current() <==> Step(s, a).IsCurrent(t);
    }
  }

  // ---- Handing over --------------------------------------------------------------------------------------------

  /** A session that nobody holds or reserves, and that is not due for a clean-up. */
  ghost predicate Free(s: Session) { Inv(s) && s.Unused() && !s.attached && !s.cleanupRequired && s.detaching == None }

  /** Releasing the last lease, and the server's confirmation, make the session free. */
  lemma ReleasedIsFree(s: Session, t: Token, relinquish: bool)
    requires Inv(s) && s.IsActive(t) && s.attached && s.Current() == {t} && s.reservations == map[]
    ensures var released := Step(s, Release(t, relinquish, true));
            && Enabled(released, DetachSettled(true)) && Free(Step(released, DetachSettled(true)))
            && forall u :: u != t && u !in s.handles ==> u !in Step(released, DetachSettled(true)).handles
  {
    ReleaseDoes(s, t, relinquish, true);
    StepKeepsIff(s, Release(t, relinquish, true));
    var released := Step(s, Release(t, relinquish, true));
    hide Step, Inv, Session.Current;
    ConfirmedDetachGivesUp(released);
  }

  /** And a free session is there for whoever wants it: an acquisition is attached and granted. */
  lemma FreeIsGranted(s: Session, u: Token, mode: Mode)
    requires Free(s) && u !in s.handles
    ensures var run := [Acquire(u, mode, true), AttachSettled(true, true), Resume(u, true)];
            && Possible(s, run) && AllHarmless(s, run) && IsGranted(Run(s, run), u, mode) && Inv(Run(s, run))
  {
    FreeAttaches(s, u, mode);
    var s1 := Step(s, Acquire(u, mode, true));
    AttachmentGrants(s1, u, mode);
    var s2 := Step(s1, AttachSettled(true, true));
    hide *;
    Last(s2, Resume(u, true));
    Then(s1, AttachSettled(true, true), [Resume(u, true)]);
    Then(s, Acquire(u, mode, true), [AttachSettled(true, true), Resume(u, true)]);
    assert [Acquire(u, mode, true)] + ([AttachSettled(true, true)] + [Resume(u, true)])
           == [Acquire(u, mode, true), AttachSettled(true, true), Resume(u, true)];
  }

  lemma FreeAttaches(s: Session, u: Token, mode: Mode)
    requires Free(s) && u !in s.handles
    ensures var a := Acquire(u, mode, true);
            Enabled(s, a) && Harmless(s, a) && Inv(Step(s, a)) && Pending(Step(s, a), u, mode, ForAttach)
  {
    NoneIfEmpty(s);
    hide Step;
    AcquireDoes(s, u, mode, true);
  }

  lemma AttachmentGrants(s: Session, u: Token, mode: Mode)
    requires Inv(s) && Pending(s, u, mode, ForAttach)
    ensures var (answer, resume) := (AttachSettled(true, true), Resume(u, true));
            && Enabled(s, answer) && Harmless(s, answer)
            && Enabled(Step(s, answer), resume) && Harmless(Step(s, answer), resume)
            && Inv(Step(Step(s, answer), resume)) && IsGranted(Step(Step(s, answer), resume), u, mode)
  {
    AttachAnswerWakes(s, true, true);
    hide Step, Inv;
    ResumeDoes(Step(s, AttachSettled(true, true)), u, true);
  }

  lemma Last(s: Session, a: Action)
    requires Enabled(s, a) && Harmless(s, a)
    ensures Possible(s, [a]) && AllHarmless(s, [a]) && Run(s, [a]) == Step(s, a)
  {
    assert [a][1..] == [];
  }

  lemma Then(s: Session, a: Action, actions: seq<Action>)
    requires Enabled(s, a) && Possible(Step(s, a), actions) && Harmless(s, a) && AllHarmless(Step(s, a), actions)
    ensures Possible(s, [a] + actions) && AllHarmless(s, [a] + actions) && Run(s, [a] + actions) == Run(Step(s, a), actions)
  {
    assert ([a] + actions)[1..] == actions;
  }
}
