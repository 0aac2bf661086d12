/** packages/client/src/client.ts: the lease protocol of one session. A lease is reserved, waits for a
    detach in flight, a clean-up and an attachment as needed, becomes an active handle, and is released;
    the last release detaches the session. Steps happen in any order; a settled request wakes its
    waiters, which resume one by one. */
module SessionLeases {
  import opened Options

  type Token = nat

  datatype Mode = Shared | Exclusive

  /** Where a reservation stands: waiting for a request, or woken by its answer and about to resume. */
  datatype Progress = ForDetach | Detached | ForReconcile | Reconciled | ForAttach | AttachedOk | Failed

  datatype Reservation = Reservation(mode: Mode, at: Progress)

  datatype Phase = Active | Releasing(relinquishOnFailure: bool)

  /** A lease handed out and not released. It is invalidated once the session's generation moves on. */
  datatype Handle = Handle(mode: Mode, generation: nat, phase: Phase)

  datatype Session = Session(
    count: nat,
    exclusive: Option<Token>,
    generation: nat,
    attached: bool,
    attaching: bool,
    detaching: Option<Token>,
    cleanupRequired: bool,
    reconciling: bool,
    reservations: map<Token, Reservation>,
    handles: map<Token, Handle>)
  {
    predicate IsCurrent(t: Token) { t in handles && handles[t].generation == generation }

    /** The leases that are active or releasing and not invalidated. */
    function Current(): set<Token> { set t | t in handles && handles[t].generation == generation }

    predicate IsActive(t: Token) { IsCurrent(t) && handles[t].phase == Active }

    /** Reserved or held as an exclusive lease. */
    predicate HeldExclusively(t: Token) {
      || (t in reservations && reservations[t].mode == Exclusive)
      || (IsCurrent(t) && handles[t].mode == Exclusive)
    }

    predicate Waits(p: Progress) { exists t :: t in reservations && reservations[t].at == p }

    /** Nobody reserves or holds a lease. */
    predicate Unused() { reservations == map[] && Current() == {} }
  }

  const INITIAL := Session(0, None, 0, false, false, None, false, false, map[], map[])

  // ---- The operations --------------------------------------------------------------------------------

  predicate Refused(s: Session, mode: Mode) {
    (mode == Exclusive && s.count > 0) || (mode == Shared && s.exclusive.Some?)
  }

  function Reserve(s: Session, t: Token, mode: Mode, at: Progress): Session {
    s.(count := s.count + 1,
       exclusive := if mode == Exclusive then Some(t) else s.exclusive,
       reservations := s.reservations[t := Reservation(mode, at)])
  }

  function ReleaseSessionLease(s: Session, t: Token): Session {
    s.(count := if s.count <= 1 then 0 else s.count - 1,
       exclusive := if s.exclusive == Some(t) then None else s.exclusive)
  }

  /** A reservation that failed is given back. */
  function GiveBack(s: Session, t: Token): Session {
    ReleaseSessionLease(s, t).(reservations := s.reservations - {t})
  }

  function MoveTo(s: Session, t: Token, p: Progress): Session
    requires t in s.reservations
  {
    s.(reservations := s.reservations[t := s.reservations[t].(at := p)])
  }

  function CreateSessionLease(s: Session, t: Token): Session
    requires t in s.reservations
  {
    s.(reservations := s.reservations - {t},
       handles := s.handles[t := Handle(s.reservations[t].mode, s.generation, Active)])
  }

  /** Attaches unless that has been done; sent says whether a request can be sent. */
  function AttachIfNeeded(s: Session, t: Token, reconciled: bool, sent: bool): Session
    requires t in s.reservations
  {
    if !reconciled && s.attached then CreateSessionLease(s, t)
    else if !s.attaching && !sent then GiveBack(s, t)
    else MoveTo(s, t, ForAttach).(attaching := true)
  }

  /** What an acquisition does once no detach is in flight. */
  function Proceed(s: Session, t: Token, sent: bool): Session
    requires t in s.reservations
  {
    if !s.cleanupRequired then AttachIfNeeded(s, t, false, sent)
    else if !s.reconciling && !sent then GiveBack(s, t)
    else MoveTo(s, t, ForReconcile).(reconciling := true)
  }

  function Wake(m: map<Token, Reservation>, p: Progress, q: Progress): (r: map<Token, Reservation>)
    ensures r.Keys == m.Keys
  {
    map t | t in m :: if m[t].at == p then m[t].(at := q) else m[t]
  }

  function InvalidateSessionLeases(s: Session): Session {
    s.(count := 0, exclusive := None, cleanupRequired := false, generation := s.generation + 1)
  }

  // ---- Steps -------------------------------------------------------------------------------------------

  datatype Action =
    | Acquire(t: Token, mode: Mode, sent: bool)
    | Resume(t: Token, sent: bool)
    | Release(t: Token, relinquishOnFailure: bool, permitted: bool)
    | DetachSettled(ok: bool)
    | ReconcileSettled(ok: bool)
    | AttachSettled(ok: bool, attached: bool)
    | SnapshotArrived(attached: bool)
    | Create(t: Token, attached: bool)
    | Removed
    | Disconnected

  /** Tokens are new objects; only what is waiting can be woken, and only what is woken resumes. */
  predicate Enabled(s: Session, a: Action) {
    match a
    case Acquire(t, _, _) => t !in s.reservations && t !in s.handles
    case Create(t, _) => t !in s.reservations && t !in s.handles
    case Resume(t, _) => t in s.reservations && s.reservations[t].at in {Detached, Reconciled, AttachedOk, Failed}
    case Release(t, _, _) => t in s.handles
    case DetachSettled(_) => s.detaching.Some? && s.detaching.value in s.handles
    case ReconcileSettled(_) => s.reconciling
    case AttachSettled(_, _) => s.attaching
    case _ => true
  }

  function ResumeReservation(s: Session, t: Token, sent: bool): Session
    requires t in s.reservations
  {
    match s.reservations[t].at
    case Detached => Proceed(s, t, sent)
    case Reconciled => AttachIfNeeded(s, t, true, sent)
    case AttachedOk => CreateSessionLease(s, t)
    case Failed => GiveBack(s, t)
    case _ => s
  }

  /** Releasing an invalidated lease, or one that is being released, does nothing; the last lease is
      released only after a detach. */
  function ReleaseHandle(s: Session, t: Token, relinquishOnFailure: bool, permitted: bool): Session
    requires t in s.handles
  {
    if !s.IsActive(t) || !permitted || !s.attached then s
    else if s.count <= 1 then
      s.(detaching := Some(t), handles := s.handles[t := s.handles[t].(phase := Releasing(relinquishOnFailure))])
    else ReleaseSessionLease(s, t).(handles := s.handles - {t})
  }

  /** The answer to a detach request, for the handle that sent it. As in the source, success gives up the
      lease whether or not it has been invalidated in the meantime. */
  function SettleReleasing(s: Session, t: Token, ok: bool): (r: Session)
    requires t in s.handles
    ensures r.reservations == s.reservations && r.detaching == s.detaching
  {
    if ok then ReleaseSessionLease(s, t).(attached := false, handles := s.handles - {t})
    else if !s.IsCurrent(t) then s
    else if s.handles[t].phase.Releasing? && s.handles[t].phase.relinquishOnFailure then
      ReleaseSessionLease(s, t).(cleanupRequired := true, handles := s.handles - {t})
    else s.(handles := s.handles[t := s.handles[t].(phase := Active)])
  }

  /** The releasing handle is dealt with before those that wait for the detach. */
  function SettleDetach(s: Session, ok: bool): Session
    requires s.detaching.Some? && s.detaching.value in s.handles
  {
    SettleReleasing(s, s.detaching.value, ok).(detaching := None, reservations := Wake(s.reservations, ForDetach, Detached))
  }

  function SettleReconcile(s: Session, ok: bool): Session {
    if ok then s.(reconciling := false, cleanupRequired := false, attached := false,
                  reservations := Wake(s.reservations, ForReconcile, Reconciled))
    else s.(reconciling := false, reservations := Wake(s.reservations, ForReconcile, Failed))
  }

  function SettleAttach(s: Session, ok: bool, attached: bool): Session {
    if ok then s.(attaching := false, attached := attached, reservations := Wake(s.reservations, ForAttach, AttachedOk))
    else s.(attaching := false, reservations := Wake(s.reservations, ForAttach, Failed))
  }

  /** The acquisitions that only have to resume to be granted. */
  function Granted(rs: map<Token, Reservation>): map<Token, Reservation> {
    map t | t in rs && rs[t].at == AttachedOk :: rs[t]
  }

  /** Every pending request is rejected, and every acquisition that depends on one fails. */
  function RejectPendingRequests(s: Session): Session {
    s.(attaching := false, reconciling := false, detaching := None, reservations := Granted(s.reservations))
  }

  /** Sessions without a counter keep their generation. */
  function InvalidateIfCounted(s: Session): Session {
    (if s.count > 0 then InvalidateSessionLeases(s) else s).(cleanupRequired := false)
  }

  function Disconnect(s: Session): Session {
    RejectPendingRequests(InvalidateIfCounted(s.(attached := false)))
  }

  function Step(s: Session, a: Action): Session
    requires Enabled(s, a)
  {
    match a
    case Acquire(t, mode, sent) =>
      if Refused(s, mode) then s
      else
        var reserved := Reserve(s, t, mode, if s.detaching.Some? then ForDetach else Detached);
        if s.detaching.Some? then reserved else Proceed(reserved, t, sent)
    case Resume(t, sent) => ResumeReservation(s, t, sent)
    case Release(t, relinquish, permitted) => ReleaseHandle(s, t, relinquish, permitted)
    case DetachSettled(ok) => SettleDetach(s, ok)
    case ReconcileSettled(ok) => SettleReconcile(s, ok)
    case AttachSettled(ok, attached) => SettleAttach(s, ok, attached)
    case SnapshotArrived(attached) => s.(attached := attached)
    case Create(t, attached) =>
      if Refused(s, Exclusive) then s.(attached := attached)
      else CreateSessionLease(Reserve(s.(attached := attached), t, Exclusive, AttachedOk), t)
    case Removed => InvalidateSessionLeases(s).(attached := false)
    case Disconnected => Disconnect(s)
  }

  // ---- The invariant ---------------------------------------------------------------------------------

  /** The counter counts the open reservations and the current handles, and no handle is from the future. */
  ghost predicate Accounted(s: Session) {
    && s.count == |s.reservations| + |s.Current()| && s.reservations.Keys !! s.handles.Keys
    && forall t :: t in s.handles ==> s.handles[t].generation <= s.generation
  }

  /** An exclusive lease is registered, and is then the only one reserved or held. */
  ghost predicate ExclusiveAlone(s: Session) {
    && (s.exclusive.Some? ==> s.count == 1 && s.HeldExclusively(s.exclusive.value))
    && (forall t: Token :: s.HeldExclusively(t) ==> s.exclusive == Some(t))
  }

  /** While a detach is in flight its handle is the only current one, and everybody else waits for it. */
  ghost predicate DetachAlone(s: Session) {
    && (s.detaching.Some? ==>
          && s.Current() == {s.detaching.value} && !s.cleanupRequired
          && s.IsCurrent(s.detaching.value) && s.handles[s.detaching.value].phase.Releasing?
          && (forall t :: t in s.reservations ==> s.reservations[t].at == ForDetach))
    && (forall t :: s.IsCurrent(t) && s.handles[t].phase.Releasing? ==> s.detaching == Some(t))
    && (s.Waits(ForDetach) ==> s.detaching.Some?)
  }

  /** While a clean-up is due nobody holds a lease, or is past the point where one might be created. */
  ghost predicate CleanupAlone(s: Session) {
    && (s.cleanupRequired ==>
          && s.Current() == {}
          && forall t :: t in s.reservations ==> s.reservations[t].at !in {Reconciled, ForAttach, AttachedOk})
    && (s.reconciling <==> s.Waits(ForReconcile))
    && (s.attaching <==> s.Waits(ForAttach))
    && (s.reconciling ==> s.cleanupRequired)
  }

  ghost predicate Inv(s: Session) {
    Accounted(s) && ExclusiveAlone(s) && DetachAlone(s) && CleanupAlone(s)
  }

  // ---- Small steps keep the invariant --------------------------------------------------------------------

  lemma ReserveKeeps(s: Session, t: Token, mode: Mode, at: Progress)
    requires Inv(s) && t !in s.reservations && t !in s.handles && !Refused(s, mode)
    requires if s.detaching.Some? then at == ForDetach else at == Detached || (at == AttachedOk && !s.cleanupRequired)
    ensures Inv(Reserve(s, t, mode, at))
  {
    var s' := Reserve(s, t, mode, at);
    assert Accounted(s') by {
      assert s'.Current() == s.Current();
      assert s'.reservations.Keys == s.reservations.Keys + {t};
    }
    assert ExclusiveAlone(s') by { NoneIfEmpty(s); }
    assert DetachAlone(s') && CleanupAlone(s') by {
      assert s'.Current() == s.Current();
      forall p | p !in {ForDetach, Detached, AttachedOk} ensures s'.Waits(p) == s.Waits(p) {
        WaitsElsewhere(s, s', t, p);
      }
    }
  }

  lemma NoneIfEmpty(s: Session)
    requires Accounted(s)
    ensures s.count == 0 <==> s.Unused()
    ensures s.Current() == {} <==> forall t :: !s.IsCurrent(t)
  {
    if s.count == 0 {
      assert |s.reservations| == 0;
    }
    assert forall t :: s.IsCurrent(t) <==> t in s.Current();
  }

  /** Changing one reservation that neither waited nor waits for p. */
  lemma WaitsElsewhere(s: Session, s': Session, t: Token, p: Progress)
    requires forall u :: u != t ==> (u in s'.reservations <==> u in s.reservations)
    requires forall u :: u != t && u in s.reservations ==> s'.reservations[u] == s.reservations[u]
    requires t in s.reservations ==> s.reservations[t].at != p
    requires t in s'.reservations ==> s'.reservations[t].at != p
    ensures s'.Waits(p) == s.Waits(p)
  {
    if s.Waits(p) { var u :| u in s.reservations && s.reservations[u].at == p; assert u in s'.reservations; }
    if s'.Waits(p) { var u :| u in s'.reservations && s'.reservations[u].at == p; assert u in s.reservations; }
  }

  lemma SameWaits(s: Session, s': Session, p: Progress)
    requires s'.reservations == s.reservations
    ensures s'.Waits(p) == s.Waits(p)
  {
  }

  predicate Woken(p: Progress) { p in {Detached, Reconciled, AttachedOk, Failed} }

  lemma GiveBackAccounts(s: Session, t: Token)
    requires Accounted(s) && ExclusiveAlone(s) && t in s.reservations
    ensures Accounted(GiveBack(s, t)) && ExclusiveAlone(GiveBack(s, t)) && GiveBack(s, t).Current() == s.Current()
  {
    var s' := GiveBack(s, t);
    assert s'.Current() == s.Current();
    assert s'.reservations.Keys == s.reservations.Keys - {t};
  }

  lemma GiveBackAlone(s: Session, t: Token)
    requires DetachAlone(s) && CleanupAlone(s) && t in s.reservations && Woken(s.reservations[t].at)
    requires GiveBack(s, t).Current() == s.Current()
    ensures DetachAlone(GiveBack(s, t)) && CleanupAlone(GiveBack(s, t))
  {
    hide Session.Current, Session.Waits;
    var s' := GiveBack(s, t);
    forall p | !Woken(p) ensures s'.Waits(p) == s.Waits(p) { WaitsElsewhere(s, s', t, p); }
  }

  lemma GiveBackKeeps(s: Session, t: Token)
    requires Inv(s) && t in s.reservations && Woken(s.reservations[t].at)
    ensures Inv(GiveBack(s, t))
  {
    hide Accounted, ExclusiveAlone, DetachAlone, CleanupAlone, GiveBack;
    GiveBackAccounts(s, t);
    GiveBackAlone(s, t);
  }

  lemma GrantAccounts(s: Session, t: Token)
    requires Accounted(s) && t in s.reservations
    ensures var s' := CreateSessionLease(s, t); Accounted(s') && s'.Current() == s.Current() + {t}
  {
    var s' := CreateSessionLease(s, t);
    assert s'.Current() == s.Current() + {t};
    assert s'.reservations.Keys == s.reservations.Keys - {t};
  }

  lemma GrantExclusive(s: Session, t: Token)
    requires Accounted(s) && ExclusiveAlone(s) && t in s.reservations
    ensures ExclusiveAlone(CreateSessionLease(s, t))
  {
    assert !s.IsCurrent(t);
    hide Accounted, Session.Current;
    var s' := CreateSessionLease(s, t);
    forall u: Token ensures s'.HeldExclusively(u) == s.HeldExclusively(u) {}
  }

  lemma GrantAlone(s: Session, t: Token)
    requires DetachAlone(s) && CleanupAlone(s) && t in s.reservations && Woken(s.reservations[t].at) && !s.cleanupRequired
    ensures DetachAlone(CreateSessionLease(s, t)) && CleanupAlone(CreateSessionLease(s, t))
  {
    hide Session.Current, Session.Waits;
    var s' := CreateSessionLease(s, t);
    forall p | !Woken(p) ensures s'.Waits(p) == s.Waits(p) { WaitsElsewhere(s, s', t, p); }
  }

  lemma GrantKeeps(s: Session, t: Token)
    requires Inv(s) && t in s.reservations && Woken(s.reservations[t].at) && !s.cleanupRequired
    ensures Inv(CreateSessionLease(s, t))
  {
    hide Accounted, ExclusiveAlone, DetachAlone, CleanupAlone, CreateSessionLease;
    GrantAccounts(s, t);
    GrantExclusive(s, t);
    GrantAlone(s, t);
  }

  lemma AttachIfNeededKeeps(s: Session, t: Token, reconciled: bool, sent: bool)
    requires Inv(s) && t in s.reservations && s.reservations[t].at in {Detached, Reconciled} && !s.cleanupRequired
    ensures Inv(AttachIfNeeded(s, t, reconciled, sent))
  {
    hide Inv;
    if !reconciled && s.attached {
      GrantKeeps(s, t);
    } else if !s.attaching && !sent {
      GiveBackKeeps(s, t);
    } else {
      WaitForAttachKeeps(s, t);
    }
  }

  lemma WaitForAttachKeeps(s: Session, t: Token)
    requires Inv(s) && t in s.reservations && s.reservations[t].at in {Detached, Reconciled} && !s.cleanupRequired
    ensures Inv(MoveTo(s, t, ForAttach).(attaching := true))
  {
    var s' := MoveTo(s, t, ForAttach).(attaching := true);
    assert s'.Current() == s.Current() && s'.reservations.Keys == s.reservations.Keys;
    assert s'.reservations[t].at == ForAttach;
    forall p | !Woken(p) && p != ForAttach ensures s'.Waits(p) == s.Waits(p) { WaitsElsewhere(s, s', t, p); }
  }

  lemma ProceedKeeps(s: Session, t: Token, sent: bool)
    requires Inv(s) && t in s.reservations && s.reservations[t].at == Detached
    ensures Inv(Proceed(s, t, sent))
  {
    hide Inv, AttachIfNeeded;
    if !s.cleanupRequired {
      AttachIfNeededKeeps(s, t, false, sent);
    } else if !s.reconciling && !sent {
      GiveBackKeeps(s, t);
    } else {
      WaitForReconcileKeeps(s, t);
    }
  }

  lemma WaitForReconcileKeeps(s: Session, t: Token)
    requires Inv(s) && t in s.reservations && s.reservations[t].at == Detached && s.cleanupRequired
    ensures Inv(MoveTo(s, t, ForReconcile).(reconciling := true))
  {
    var s' := MoveTo(s, t, ForReconcile).(reconciling := true);
    assert s'.Current() == s.Current() && s'.reservations.Keys == s.reservations.Keys;
    assert s'.reservations[t].at == ForReconcile;
    forall p | !Woken(p) && p != ForReconcile ensures s'.Waits(p) == s.Waits(p) { WaitsElsewhere(s, s', t, p); }
  }

  lemma ReleaseKeeps(s: Session, t: Token, relinquishOnFailure: bool, permitted: bool)
    requires Inv(s) && t in s.handles
    ensures Inv(ReleaseHandle(s, t, relinquishOnFailure, permitted))
  {
    if s.IsActive(t) && permitted && s.attached {
      var s' := ReleaseHandle(s, t, relinquishOnFailure, permitted);
      assert t in s.Current();
      if s.count <= 1 {
        assert s.Current() == {t} by { assert |s.Current() - {t}| == 0; }
        assert s'.Current() == s.Current();
        assert s.reservations == map[];
      } else {
        assert s'.Current() == s.Current() - {t};
      }
      forall p ensures s'.Waits(p) == s.Waits(p) { SameWaits(s, s', p); }
    }
  }

  /** Waking those who wait for p makes them stop waiting, and changes nothing for the others. */
  lemma WakeWaits(s: Session, s': Session, p: Progress, q: Progress)
    requires Woken(q) && !Woken(p) && s'.reservations == Wake(s.reservations, p, q)
    ensures !s'.Waits(p)
    ensures forall r :: !Woken(r) && r != p ==> s'.Waits(r) == s.Waits(r)
  {
    forall r | !Woken(r) && r != p ensures s'.Waits(r) == s.Waits(r) {
      if s.Waits(r) { var t :| t in s.reservations && s.reservations[t].at == r; assert s'.reservations[t].at == r; }
      if s'.Waits(r) { var t :| t in s'.reservations && s'.reservations[t].at == r; assert s.reservations[t].at == r; }
    }
  }

  /** The handle that was detaching is the only one, so giving it up leaves none. */
  lemma LastGivenUp(s: Session, s': Session, t: Token)
    requires Accounted(s) && ExclusiveAlone(s) && s.Current() == {t} && s'.handles == s.handles - {t}
    requires s'.reservations.Keys == s.reservations.Keys && s'.generation == s.generation
    requires forall u :: u in s.reservations ==> s'.reservations[u].mode == s.reservations[u].mode
    requires s'.count == ReleaseSessionLease(s, t).count && s'.exclusive == ReleaseSessionLease(s, t).exclusive
    ensures s'.Current() == {} && Accounted(s') && ExclusiveAlone(s')
  {
    assert forall u :: s'.IsCurrent(u) ==> u in s.Current();
    assert s'.Current() == {};
    assert |s'.reservations.Keys| == |s.reservations.Keys| && |s.Current()| == 1;
    assert forall u: Token :: s'.HeldExclusively(u) ==> s.HeldExclusively(u) && u != t;
    if s.exclusive.Some? { assert t in s.Current(); }
  }

  lemma SettleDetachAccounts(s: Session, ok: bool)
    requires Inv(s) && s.detaching.Some? && s.detaching.value in s.handles
    ensures var s' := SettleDetach(s, ok);
            && Accounted(s') && ExclusiveAlone(s')
            && (s'.Current() == {} || (s'.Current() == s.Current() && !s'.cleanupRequired
                                       && s'.handles[s.detaching.value].phase == Active))
  {
    var t := s.detaching.value;
    var s' := SettleDetach(s, ok);
    if !ok && !s.handles[t].phase.relinquishOnFailure {
      hide CleanupAlone, Session.Waits;
      assert s'.Current() == s.Current();
    } else {
      LastGivenUp(s, s', t);
    }
  }

  /** Everybody is about to go on after a detach, and nothing is in flight. */
  lemma OnlyDetached(s: Session)
    requires s.detaching == None && !s.attaching && !s.reconciling
    requires forall u :: u in s.reservations ==> s.reservations[u].at == Detached
    requires forall u :: s.IsCurrent(u) ==> s.handles[u].phase == Active
    requires s.cleanupRequired ==> s.Current() == {}
    ensures DetachAlone(s) && CleanupAlone(s)
  {
  }

  lemma SettleDetachKeeps(s: Session, ok: bool)
    requires Inv(s) && s.detaching.Some? && s.detaching.value in s.handles
    ensures Inv(SettleDetach(s, ok))
  {
    var t := s.detaching.value;
    var s' := SettleDetach(s, ok);
    SettleDetachAccounts(s, ok);
    hide Accounted, ExclusiveAlone;
    assert !s.attaching && !s.reconciling && s.Current() == {t};
    assert s'.attaching == s.attaching && s'.reconciling == s.reconciling && s'.detaching == None;
    assert forall u :: u in s'.reservations ==> s'.reservations[u].at == Detached;
    assert forall u :: s'.IsCurrent(u) ==> u in s'.Current();
    hide DetachAlone, CleanupAlone, SettleDetach;
    OnlyDetached(s');
  }

  lemma SettleReconcileKeeps(s: Session, ok: bool)
    requires Inv(s) && s.reconciling
    ensures Inv(SettleReconcile(s, ok))
  {
    var s' := SettleReconcile(s, ok);
    WakeWaits(s, s', ForReconcile, if ok then Reconciled else Failed);
    assert s'.Current() == s.Current();
    assert !s.Waits(ForDetach) by { assert s.Waits(ForReconcile); }
  }

  lemma SettleAttachKeeps(s: Session, ok: bool, attached: bool)
    requires Inv(s) && s.attaching
    ensures Inv(SettleAttach(s, ok, attached))
  {
    var s' := SettleAttach(s, ok, attached);
    WakeWaits(s, s', ForAttach, if ok then AttachedOk else Failed);
    assert s'.Current() == s.Current();
    assert s.Waits(ForAttach);
  }

  // ---- The steps that need a hypothesis -------------------------------------------------------------------

  /** What the environment must see to: a session is not removed while it is reserved or being detached,
      a created session is new, and a granted reservation resumes before the connection is lost. */
  predicate Harmless(s: Session, a: Action) {
    match a
    case Removed => s.reservations == map[] && s.detaching == None
    case Create(_, _) => s.count == 0 ==> !s.cleanupRequired
    case Disconnected => !s.Waits(AttachedOk)
    case _ => true
  }

  lemma RemovedKeepsIff(s: Session)
    requires Inv(s)
    ensures Inv(Step(s, Removed)) <==> Harmless(s, Removed)
  {
    var s' := Step(s, Removed);
    forall p ensures s'.Waits(p) == s.Waits(p) { SameWaits(s, s', p); }
    if Harmless(s, Removed) {
      assert s'.Current() == {};
    } else if s.reservations != map[] {
      assert |s'.reservations| > 0;
    }
  }

  /** After a disconnect nothing is counted, due or in flight, whatever there was before. */
  lemma DisconnectForgets(s: Session)
    requires Accounted(s) && ExclusiveAlone(s)
    ensures var s' := Step(s, Disconnected);
            && s'.count == 0 && s'.exclusive == None && s'.Current() == {} && s'.detaching == None
            && !s'.cleanupRequired && !s'.reconciling && !s'.attaching
            && (s'.reservations == map[] <==> !s.Waits(AttachedOk))
            && forall t :: t in s'.handles ==> s'.handles[t].generation <= s'.generation
  {
    NoneIfEmpty(s);
    var s' := Step(s, Disconnected);
    assert s'.Current() == {};
    if t :| t in s'.reservations { assert s.Waits(AttachedOk); }
    if t :| t in s.reservations && s.reservations[t].at == AttachedOk { assert t in s'.reservations; }
  }

  lemma NothingIsSound(s: Session)
    requires s.count == 0 && s.exclusive == None && s.Current() == {} && s.detaching == None
    requires !s.cleanupRequired && !s.reconciling && !s.attaching
    requires forall t :: t in s.handles ==> s.handles[t].generation <= s.generation
    ensures Inv(s) <==> s.reservations == map[]
  {
    assert forall t :: s.IsCurrent(t) ==> t in s.Current();
    if t :| t in s.reservations { assert |s.reservations| > 0; }
  }

  lemma DisconnectedKeepsIff(s: Session)
    requires Inv(s)
    ensures Inv(Step(s, Disconnected)) <==> Harmless(s, Disconnected)
  {
    DisconnectForgets(s);
    hide Step;
    NothingIsSound(Step(s, Disconnected));
  }

  lemma CreateKeepsIff(s: Session, t: Token, attached: bool)
    requires Inv(s) && Enabled(s, Create(t, attached))
    ensures Inv(Step(s, Create(t, attached))) <==> Harmless(s, Create(t, attached))
  {
    var a := s.(attached := attached);
    AttachedIsFree(s, attached);
    if s.count == 0 {
      NoneIfEmpty(s);
      if s.cleanupRequired {
        var s' := Step(s, Create(t, attached));
        assert t in s'.Current();
      } else {
        var r := Reserve(a, t, Exclusive, AttachedOk);
        assert s.detaching == None;
        ReserveKeeps(a, t, Exclusive, AttachedOk);
        GrantKeeps(r, t);
      }
    }
  }

  lemma AttachedIsFree(s: Session, attached: bool)
    requires Inv(s)
    ensures Inv(s.(attached := attached))
  {
    var a := s.(attached := attached);
    assert a.Current() == s.Current();
    forall p ensures a.Waits(p) == s.Waits(p) { SameWaits(s, a, p); }
  }

  // ---- Runs -----------------------------------------------------------------------------------------------

  /** The invariant survives a step exactly if the step is harmless. */
  lemma StepKeepsIff(s: Session, a: Action)
    requires Inv(s) && Enabled(s, a)
    ensures Inv(Step(s, a)) <==> Harmless(s, a)
  {
    hide Accounted, ExclusiveAlone, DetachAlone, Session.Waits, Proceed, AttachIfNeeded, SettleDetach, SettleReconcile, SettleAttach, ReleaseHandle, Disconnect;
    match a
    case Acquire(t, mode, sent) =>
      if !Refused(s, mode) {
        var at := if s.detaching.Some? then ForDetach else Detached;
        ReserveKeeps(s, t, mode, at);
        if at == Detached { ProceedKeeps(Reserve(s, t, mode, at), t, sent); }
      }
    case Resume(t, sent) =>
      match s.reservations[t].at {
        case Detached => ProceedKeeps(s, t, sent);
        case Reconciled => AttachIfNeededKeeps(s, t, true, sent);
        case AttachedOk => GrantKeeps(s, t);
        case Failed => GiveBackKeeps(s, t);
      }
    case Release(t, relinquish, permitted) => ReleaseKeeps(s, t, relinquish, permitted);
    case DetachSettled(ok) => SettleDetachKeeps(s, ok);
    case ReconcileSettled(ok) => SettleReconcileKeeps(s, ok);
    case AttachSettled(ok, attached) => SettleAttachKeeps(s, ok, attached);
    case SnapshotArrived(attached) => AttachedIsFree(s, attached);
    case Create(t, attached) => CreateKeepsIff(s, t, attached);
    case Removed => RemovedKeepsIff(s);
    case Disconnected => DisconnectedKeepsIff(s);
  }

  ghost predicate Possible(s: Session, actions: seq<Action>)
    decreases |actions|
  {
    actions == [] || (Enabled(s, actions[0]) && Possible(Step(s, actions[0]), actions[1..]))
  }

  ghost function Run(s: Session, actions: seq<Action>): Session
    requires Possible(s, actions)
    decreases |actions|
  {
    if actions == [] then s else Run(Step(s, actions[0]), actions[1..])
  }

  ghost predicate AllHarmless(s: Session, actions: seq<Action>)
    requires Possible(s, actions)
    decreases |actions|
  {
    actions == [] || (Harmless(s, actions[0]) && AllHarmless(Step(s, actions[0]), actions[1..]))
  }

  lemma {:induction false} RunKeeps(s: Session, actions: seq<Action>)
    requires Inv(s) && Possible(s, actions) && AllHarmless(s, actions)
    ensures Inv(Run(s, actions))
    decreases |actions|
  {
    if actions != [] {
      StepKeepsIff(s, actions[0]);
      RunKeeps(Step(s, actions[0]), actions[1..]);
    }
  }

  lemma ExclusiveIsAlone(s: Session, t: Token)
    requires Inv(s) && s.IsCurrent(t) && s.handles[t].mode == Exclusive
    ensures s.Current() == {t} && s.reservations == map[]
  {
    assert s.HeldExclusively(t);
    assert t in s.Current() && |s.Current() - {t}| == |s.Current()| - 1;
    assert s.reservations == map[] by { assert |s.reservations| == 0; }
  }

  /** In every run with a harmless environment the counter is the number of open reservations and
      current leases, and an exclusive lease never coexists with anything else. */
  lemma LeasesAreSafe(actions: seq<Action>, t: Token)
    requires Possible(INITIAL, actions) && AllHarmless(INITIAL, actions)
    ensures var s := Run(INITIAL, actions);
            && s.count == |s.reservations| + |s.Current()|
            && (s.IsCurrent(t) && s.handles[t].mode == Exclusive ==> s.Current() == {t} && s.reservations == map[])
            && (s.cleanupRequired ==> s.Current() == {})
  {
    assert INITIAL.Current() == {};
    RunKeeps(INITIAL, actions);
    hide Run, Possible, AllHarmless;
    var s := Run(INITIAL, actions);
    if s.IsCurrent(t) && s.handles[t].mode == Exclusive { ExclusiveIsAlone(s, t); }
  }

  /** An exclusive lease is refused exactly if any lease is reserved or held, a shared one exactly if an
      exclusive one is. */
  lemma RefusedIffTaken(s: Session)
    requires Inv(s)
    ensures Refused(s, Exclusive) <==> !s.Unused()
    ensures Refused(s, Shared) <==> exists t: Token :: s.HeldExclusively(t)
  {
    NoneIfEmpty(s);
  }

  /** A detach is sent only for the last lease, and a clean-up only while there is none. */
  lemma DetachOnlyWhenLast(s: Session, a: Action)
    requires Inv(s) && Enabled(s, a)
    ensures var s' := Step(s, a);
            && (s.detaching == None && s'.detaching.Some? ==>
                  s'.Current() == {s'.detaching.value} && s'.reservations == map[])
            && (!s.reconciling && s'.reconciling ==> s'.Current() == {})
  {
    var s' := Step(s, a);
    if s.detaching == None && s'.detaching.Some? {
      assert a.Release? && s'.reservations == s.reservations;
      StepKeepsIff(s, a);
      assert |s.reservations| == 0 by { assert |s'.Current()| == 1; }
    }
    if !s.reconciling && s'.reconciling {
      StepKeepsIff(s, a);
    }
  }

  /** No lease becomes active while a detach or a clean-up is in flight or due. */
  lemma NoActivationDuringCleanup(s: Session, a: Action, t: Token)
    requires Inv(s) && Enabled(s, a) && Harmless(s, a)
    requires Step(s, a).IsActive(t) && !s.IsActive(t)
    ensures Step(s, a).detaching == None && !Step(s, a).reconciling && !Step(s, a).cleanupRequired
  {
    StepKeepsIff(s, a);
    var s' := Step(s, a);
    assert t in s'.Current();
  }

  /** If nothing is in flight and everybody woken has resumed, no reservation is left over. */
  lemma NoReservationStuck(s: Session)
    requires Inv(s) && s.detaching == None && !s.reconciling && !s.attaching
    requires forall p :: Woken(p) ==> !s.Waits(p)
    ensures s.reservations == map[] && s.count == |s.Current()|
  {
    assert forall p :: !s.Waits(p);
    if t :| t in s.reservations { assert s.Waits(s.reservations[t].at); }
  }

  /** A failed detach that does not relinquish leaves everything as before the release. */
  lemma FailedDetachRestores(s: Session, t: Token)
    requires Inv(s) && s.IsActive(t) && s.attached && s.count == 1
    ensures SettleDetach(ReleaseHandle(s, t, false, true), false) == s
  {
    assert t in s.Current() && |s.Current() - {t}| == |s.Current()| - 1;
    assert s.reservations == map[] by { assert |s.reservations| == 0; }
    var released := ReleaseHandle(s, t, false, true);
    assert s.detaching == None;
    assert Wake(map[], ForDetach, Detached) == map[];
    assert released.handles[t := released.handles[t].(phase := Active)] == s.handles;
  }

  // ---- The hypotheses are needed ------------------------------------------------------------------------------

  /** A removal during a shared acquisition lets an exclusive lease coexist with a shared one. */
  lemma RemovalRace()
    ensures var race := [Acquire(0, Shared, true), Removed, Acquire(1, Exclusive, true), AttachSettled(true, true),
                         Resume(0, true), Resume(1, true)];
            && Possible(INITIAL, race)
            && var s := Run(INITIAL, race);
               && s.IsActive(0) && s.IsActive(1) && s.handles[1].mode == Exclusive && s.count == 1
  {
    var s1 := Step(INITIAL, Acquire(0, Shared, true));
    assert s1.reservations == map[0 := Reservation(Shared, ForAttach)] && s1.attaching && s1.count == 1;
    var s2 := Step(s1, Removed);
    var s3 := Step(s2, Acquire(1, Exclusive, true));
    assert s3.reservations == map[0 := Reservation(Shared, ForAttach), 1 := Reservation(Exclusive, ForAttach)];
    var s4 := Step(s3, AttachSettled(true, true));
    assert s4.reservations == map[0 := Reservation(Shared, AttachedOk), 1 := Reservation(Exclusive, AttachedOk)];
    var s5 := Step(s4, Resume(0, true));
    var s6 := Step(s5, Resume(1, true));
    Prepend(s5, Resume(1, true), []);
    Prepend(s4, Resume(0, true), [Resume(1, true)]);
    Prepend(s3, AttachSettled(true, true), [Resume(0, true), Resume(1, true)]);
    Prepend(s2, Acquire(1, Exclusive, true), [AttachSettled(true, true), Resume(0, true), Resume(1, true)]);
    Prepend(s1, Removed, [Acquire(1, Exclusive, true), AttachSettled(true, true), Resume(0, true), Resume(1, true)]);
    Prepend(INITIAL, Acquire(0, Shared, true),
            [Removed, Acquire(1, Exclusive, true), AttachSettled(true, true), Resume(0, true), Resume(1, true)]);
  }

  lemma Prepend(s: Session, a: Action, actions: seq<Action>)
    requires Enabled(s, a) && Possible(Step(s, a), actions)
    ensures Possible(s, [a] + actions) && Run(s, [a] + actions) == Run(Step(s, a), actions)
  {
    assert ([a] + actions)[1..] == actions;
  }

  /** A connection lost between the answer to an attach request and the resumption of its acquisition
      leaves a lease behind that the counter knows nothing of. */
  lemma DisconnectRace()
    ensures var race := [Acquire(0, Exclusive, true), AttachSettled(true, true), Disconnected, Resume(0, true)];
            && Possible(INITIAL, race)
            && var s := Run(INITIAL, race);
               s.IsActive(0) && s.count == 0 && !Refused(s, Exclusive)
  {
    var s1 := Step(INITIAL, Acquire(0, Exclusive, true));
    assert s1.reservations == map[0 := Reservation(Exclusive, ForAttach)] && s1.attaching && s1.count == 1;
    var s2 := Step(s1, AttachSettled(true, true));
    assert s2.reservations == map[0 := Reservation(Exclusive, AttachedOk)];
    var s3 := Step(s2, Disconnected);
    Prepend(s3, Resume(0, true), []);
    Prepend(s2, Disconnected, [Resume(0, true)]);
    Prepend(s1, AttachSettled(true, true), [Disconnected, Resume(0, true)]);
    Prepend(INITIAL, Acquire(0, Exclusive, true), [AttachSettled(true, true), Disconnected, Resume(0, true)]);
  }

  lemma {:induction false} Append(s: Session, actions: seq<Action>, a: Action)
    requires Possible(s, actions) && Enabled(Run(s, actions), a)
    ensures Possible(s, actions + [a]) && Run(s, actions + [a]) == Step(Run(s, actions), a)
    decreases |actions|
  {
    hide Step, Enabled;
    if actions == [] {
      assert [] + [a] == [a] && [a][1..] == [];
      Prepend(s, a, []);
    } else {
      Append(Step(s, actions[0]), actions[1..], a);
      assert (actions + [a])[1..] == actions[1..] + [a];
    }
  }

  const LEASED := [Acquire(0, Exclusive, true), AttachSettled(true, true), Resume(0, true)]

  lemma RunLeased()
    ensures Possible(INITIAL, LEASED)
    ensures Run(INITIAL, LEASED) == Session(1, Some(0), 0, true, false, None, false, false, map[],
                                            map[0 := Handle(Exclusive, 0, Active)])
  {
    var s1 := Step(INITIAL, Acquire(0, Exclusive, true));
    assert s1.reservations == map[0 := Reservation(Exclusive, ForAttach)] && s1.attaching;
    var s2 := Step(s1, AttachSettled(true, true));
    assert s2.reservations == map[0 := Reservation(Exclusive, AttachedOk)] && s2.attached;
    assert Step(s2, Resume(0, true)).reservations == map[];
    Prepend(s2, Resume(0, true), []);
    Prepend(s1, AttachSettled(true, true), [Resume(0, true)]);
    Prepend(INITIAL, Acquire(0, Exclusive, true), [AttachSettled(true, true), Resume(0, true)]);
  }

  /** A session created under an id that is due for a clean-up is leased at once, while the clean-up is still
      due. */
  lemma CreateRace()
    ensures var race := LEASED + [Release(0, true, true)] + [DetachSettled(false)] + [Create(1, true)];
            && Possible(INITIAL, race)
            && var s := Run(INITIAL, race);
               s.IsActive(1) && s.cleanupRequired && s.count == 1
  {
    hide Run, Possible, LEASED, INITIAL;
    RunLeased();
    Append(INITIAL, LEASED, Release(0, true, true));
    var released := Run(INITIAL, LEASED + [Release(0, true, true)]);
    assert released.detaching == Some(0) && released.handles == map[0 := Handle(Exclusive, 0, Releasing(true))];
    Append(INITIAL, LEASED + [Release(0, true, true)], DetachSettled(false));
    var due := Run(INITIAL, LEASED + [Release(0, true, true)] + [DetachSettled(false)]);
    assert due.cleanupRequired && due.count == 0 && due.handles == map[] && due.reservations == map[];
    Append(INITIAL, LEASED + [Release(0, true, true)] + [DetachSettled(false)], Create(1, true));
  }
}
