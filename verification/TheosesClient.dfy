/** packages/client/src/client.ts: the client's bookkeeping, one entry per session in each of its maps and
    sets. Every method does to its session what the lease protocol says, and nothing to the others. */
module TheosesClient {
  import opened Options
  import opened SessionLeases
  import Effects = LeaseEffects

  class TheosesClient {
    var sessionLeaseCounts: map<string, nat>
    var exclusiveSessionLeases: map<string, Token>
    var sessionLeaseGenerations: map<string, nat>
    var sessionAttachments: set<string>
    var sessionDetachments: map<string, Token>
    var sessionCleanupRequired: set<string>
    var sessionReconciliations: set<string>
    var attachedSessionIds: set<string>
    var connected: bool
    /** Acquisitions that have not been granted, and handles given out: the local state of closures. */
    var reservations: map<string, map<Token, Reservation>>
    var handles: map<string, map<Token, Handle>>

    /** What the client knows about one session. */
    ghost function View(id: string): Session
      reads this
    {
      Session(Get(sessionLeaseCounts, id, 0), Find(exclusiveSessionLeases, id), Get(sessionLeaseGenerations, id, 0),
              id in attachedSessionIds, id in sessionAttachments, Find(sessionDetachments, id),
              id in sessionCleanupRequired, id in sessionReconciliations,
              Get(reservations, id, map[]), Get(handles, id, map[]))
    }

    /** A counter that reaches zero is deleted. */
    ghost predicate Valid()
      reads this
    {
      forall id :: id in sessionLeaseCounts ==> sessionLeaseCounts[id] > 0
    }

    twostate predicate Only(id: string)
      reads this
    {
      Valid() && forall other :: other != id ==> View(other) == old(View(other))
    }

    constructor ()
      ensures Valid() && forall id :: View(id) == INITIAL
    {
      sessionLeaseCounts, exclusiveSessionLeases, sessionLeaseGenerations := map[], map[], map[];
      sessionAttachments, sessionDetachments, sessionCleanupRequired, sessionReconciliations := {}, map[], {}, {};
      attachedSessionIds, connected := {}, false;
      reservations, handles := map[], map[];
    }

    // ---- Private helpers -----------------------------------------------------------------------------

    method CountUp(id: string, t: Token, mode: Mode)
      requires Valid()
      modifies this`sessionLeaseCounts, this`exclusiveSessionLeases
      ensures Only(id)
      ensures View(id) == old(View(id)).(count := old(View(id)).count + 1,
                                         exclusive := if mode == Exclusive then Some(t) else old(View(id)).exclusive)
    {
      sessionLeaseCounts := sessionLeaseCounts[id := Get(sessionLeaseCounts, id, 0) + 1];
      if mode == Exclusive { exclusiveSessionLeases := exclusiveSessionLeases[id := t]; }
    }

    method ReserveSessionLease(id: string, t: Token, mode: Mode, at: Progress) returns (reserved: bool)
      requires Valid()
      modifies this`sessionLeaseCounts, this`exclusiveSessionLeases, this`reservations
      ensures reserved == !Refused(old(View(id)), mode)
      ensures Only(id) && View(id) == if reserved then Reserve(old(View(id)), t, mode, at) else old(View(id))
    {
      var count := Get(sessionLeaseCounts, id, 0);
      if mode == Exclusive && count > 0 { return false; }
      if mode == Shared && id in exclusiveSessionLeases { return false; }
      CountUp(id, t, mode);
      SetReservations(id, Get(reservations, id, map[])[t := Reservation(mode, at)]);
      reserved := true;
    }

    method ReleaseSessionLease(id: string, t: Token)
      requires Valid()
      modifies this`sessionLeaseCounts, this`exclusiveSessionLeases
      ensures Only(id) && View(id) == SessionLeases.ReleaseSessionLease(old(View(id)), t)
    {
      var count := Get(sessionLeaseCounts, id, 0);
      if count <= 1 {
        sessionLeaseCounts := sessionLeaseCounts - {id};
      } else {
        sessionLeaseCounts := sessionLeaseCounts[id := count - 1];
      }
      if id in exclusiveSessionLeases && exclusiveSessionLeases[id] == t {
        exclusiveSessionLeases := exclusiveSessionLeases - {id};
      }
    }

    method SetReservations(id: string, rs: map<Token, Reservation>)
      requires Valid()
      modifies this`reservations
      ensures Only(id) && View(id) == old(View(id)).(reservations := rs)
    {
      reservations := reservations[id := rs];
    }

    method SetHandles(id: string, hs: map<Token, Handle>)
      requires Valid()
      modifies this`handles
      ensures Only(id) && View(id) == old(View(id)).(handles := hs)
    {
      handles := handles[id := hs];
    }

    method FailAcquisition(id: string, t: Token)
      requires Valid()
      modifies this`sessionLeaseCounts, this`exclusiveSessionLeases, this`reservations
      ensures Only(id) && View(id) == GiveBack(old(View(id)), t)
    {
      ReleaseSessionLease(id, t);
      SetReservations(id, Get(reservations, id, map[]) - {t});
    }

    method CreateSessionLease(id: string, t: Token)
      requires Valid() && t in View(id).reservations
      modifies this`sessionLeaseGenerations, this`reservations, this`handles
      ensures Only(id) && View(id) == SessionLeases.CreateSessionLease(old(View(id)), t)
    {
      var generation := Get(sessionLeaseGenerations, id, 0);
      sessionLeaseGenerations := sessionLeaseGenerations[id := generation];
      var mode := reservations[id][t].mode;
      SetReservations(id, reservations[id] - {t});
      SetHandles(id, Get(handles, id, map[])[t := Handle(mode, generation, Active)]);
    }

    method InvalidateSessionLeases(id: string)
      requires Valid()
      modifies this`sessionLeaseCounts, this`exclusiveSessionLeases, this`sessionCleanupRequired, this`sessionLeaseGenerations
      ensures Only(id) && View(id) == SessionLeases.InvalidateSessionLeases(old(View(id)))
      ensures sessionLeaseCounts == old(sessionLeaseCounts) - {id}
    {
      sessionLeaseCounts := sessionLeaseCounts - {id};
      exclusiveSessionLeases := exclusiveSessionLeases - {id};
      sessionCleanupRequired := sessionCleanupRequired - {id};
      sessionLeaseGenerations := sessionLeaseGenerations[id := Get(sessionLeaseGenerations, id, 0) + 1];
      forall other | other != id ensures View(other) == old(View(other)) {}
    }

    method WaitFor(id: string, t: Token, p: Progress)
      requires Valid() && t in View(id).reservations
      modifies this`reservations
      ensures Only(id) && View(id) == MoveTo(old(View(id)), t, p)
    {
      SetReservations(id, reservations[id][t := reservations[id][t].(at := p)]);
    }

    method WakeAll(id: string, p: Progress, q: Progress)
      requires Valid()
      modifies this`reservations
      ensures Only(id) && View(id) == old(View(id)).(reservations := Wake(old(View(id)).reservations, p, q))
    {
      SetReservations(id, Wake(Get(reservations, id, map[]), p, q));
    }

    // ---- Acquiring ---------------------------------------------------------------------------------------

    method AttachIfNeeded(id: string, t: Token, reconciled: bool)
      requires Valid() && t in View(id).reservations
      modifies this
      ensures Only(id) && View(id) == SessionLeases.AttachIfNeeded(old(View(id)), t, reconciled, connected)
      ensures connected == old(connected)
    {
      if reconciled || id !in attachedSessionIds {
        if id !in sessionAttachments {
          if !connected {
            FailAcquisition(id, t);
            return;
          }
          sessionAttachments := sessionAttachments + {id};
        }
        WaitFor(id, t, ForAttach);
        return;
      }
      CreateSessionLease(id, t);
    }

    method ReconcileSessionCleanup(id: string, t: Token)
      requires Valid() && t in View(id).reservations
      modifies this
      ensures Only(id) && View(id) == Proceed(old(View(id)), t, connected)
      ensures connected == old(connected)
    {
      if id !in sessionCleanupRequired {
        AttachIfNeeded(id, t, false);
        return;
      }
      if id !in sessionReconciliations {
        if !connected {
          FailAcquisition(id, t);
          return;
        }
        sessionReconciliations := sessionReconciliations + {id};
      }
      WaitFor(id, t, ForReconcile);
    }

    /** The token is the object this acquisition creates. */
    method AcquireSession(id: string, t: Token, mode: Mode) returns (reserved: bool)
      requires Valid() && Enabled(View(id), Acquire(t, mode, connected))
      modifies this
      ensures reserved == !Refused(old(View(id)), mode) && connected == old(connected)
      ensures Only(id) && View(id) == Step(old(View(id)), Acquire(t, mode, connected))
    {
      var waits := id in sessionDetachments;
      reserved := ReserveSessionLease(id, t, mode, if waits then ForDetach else Detached);
      if reserved && !waits { ReconcileSessionCleanup(id, t); }
    }

    /** An acquisition goes on after the request it waited for. */
    method ResumeAcquisition(id: string, t: Token)
      requires Valid() && Enabled(View(id), Resume(t, connected))
      modifies this
      ensures connected == old(connected)
      ensures Only(id) && View(id) == Step(old(View(id)), Resume(t, connected))
    {
      match reservations[id][t].at {
        case Detached => ReconcileSessionCleanup(id, t);
        case Reconciled => AttachIfNeeded(id, t, true);
        case AttachedOk => CreateSessionLease(id, t);
        case Failed => FailAcquisition(id, t);
      }
    }

    /** The answer to a create request: its session is leased at once. */
    method SessionCreated(id: string, t: Token, attached: bool) returns (created: bool)
      requires Valid() && Enabled(View(id), Create(t, attached))
      modifies this
      ensures created == !Refused(old(View(id)), Exclusive) && connected == old(connected)
      ensures Only(id) && View(id) == Step(old(View(id)), Create(t, attached))
    {
      SetAttached(id, attached);
      created := ReserveSessionLease(id, t, Exclusive, AttachedOk);
      if created { CreateSessionLease(id, t); }
    }

    method SetAttached(id: string, attached: bool)
      requires Valid()
      modifies this`attachedSessionIds
      ensures Only(id) && View(id) == old(View(id)).(attached := attached)
    {
      attachedSessionIds := if attached then attachedSessionIds + {id} else attachedSessionIds - {id};
    }

    // ---- Releasing -------------------------------------------------------------------------------------

    method BeginDetach(id: string, t: Token, releasing: Handle)
      requires Valid() && t in View(id).handles
      modifies this`sessionDetachments, this`handles
      ensures Only(id) && View(id) == old(View(id)).(detaching := Some(t), handles := old(View(id)).handles[t := releasing])
    {
      SetHandles(id, handles[id][t := releasing]);
      sessionDetachments := sessionDetachments[id := t];
    }

    /** A handle's release: asynchronous only if a detach has to be sent. */
    method Release(id: string, t: Token, relinquishOnFailure: bool)
      requires Valid() && Enabled(View(id), SessionLeases.Release(t, relinquishOnFailure, connected))
      modifies this
      ensures connected == old(connected)
      ensures Only(id) && View(id) == Step(old(View(id)), SessionLeases.Release(t, relinquishOnFailure, connected))
    {
      var handle := handles[id][t];
      if handle.generation != Get(sessionLeaseGenerations, id, 0) || handle.phase.Releasing? { return; }
      if !connected || id !in attachedSessionIds { return; }
      if Get(sessionLeaseCounts, id, 0) <= 1 {
        BeginDetach(id, t, handle.(phase := Releasing(relinquishOnFailure)));
      } else {
        ReleaseSessionLease(id, t);
        SetHandles(id, handles[id] - {t});
      }
    }

    /** Gives up a lease whose detach failed; the session needs cleaning up before it is attached again. */
    method Relinquish(id: string, t: Token)
      requires Valid()
      modifies this
      ensures connected == old(connected)
      ensures Only(id) && View(id) == SessionLeases.ReleaseSessionLease(old(View(id)), t).(
                                        cleanupRequired := true, handles := old(View(id)).handles - {t})
    {
      ReleaseSessionLease(id, t);
      sessionCleanupRequired := sessionCleanupRequired + {id};
      SetHandles(id, Get(handles, id, map[]) - {t});
    }

    method SettleReleasing(id: string, t: Token, ok: bool)
      requires Valid() && t in View(id).handles
      modifies this
      ensures connected == old(connected)
      ensures Only(id) && View(id) == SessionLeases.SettleReleasing(old(View(id)), t, ok)
    {
      var handle := handles[id][t];
      if ok {
        SetAttached(id, false);
        ReleaseSessionLease(id, t);
        SetHandles(id, handles[id] - {t});
      } else if handle.generation == Get(sessionLeaseGenerations, id, 0) {
        if handle.phase.Releasing? && handle.phase.relinquishOnFailure {
          Relinquish(id, t);
        } else {
          SetHandles(id, handles[id][t := handle.(phase := Active)]);
        }
      }
    }

    method DetachAnswered(id: string, ok: bool)
      requires Valid() && Enabled(View(id), DetachSettled(ok))
      modifies this
      ensures connected == old(connected)
      ensures Only(id) && View(id) == Step(old(View(id)), DetachSettled(ok))
      ensures ok && Inv(old(View(id))) ==> Effects.GivenUp(View(id))
    {
      hide SessionLeases.SettleReleasing, Wake, Inv, Effects.GivenUp, Effects.OnlyHandles, Effects.Wakes;
      if ok && Inv(View(id)) { Effects.ConfirmedDetachGivesUp(View(id)); }
      SettleReleasing(id, sessionDetachments[id], ok);
      sessionDetachments := sessionDetachments - {id};
      WakeAll(id, ForDetach, Detached);
    }

    method ReconciliationAnswered(id: string, ok: bool)
      requires Valid() && Enabled(View(id), ReconcileSettled(ok))
      modifies this
      ensures connected == old(connected)
      ensures Only(id) && View(id) == Step(old(View(id)), ReconcileSettled(ok))
    {
      if ok {
        SetAttached(id, false);
        sessionCleanupRequired := sessionCleanupRequired - {id};
      }
      sessionReconciliations := sessionReconciliations - {id};
      WakeAll(id, ForReconcile, if ok then Reconciled else Failed);
    }

    method AttachAnswered(id: string, ok: bool, attached: bool)
      requires Valid() && Enabled(View(id), AttachSettled(ok, attached))
      modifies this
      ensures connected == old(connected)
      ensures Only(id) && View(id) == Step(old(View(id)), AttachSettled(ok, attached))
    {
      if ok { SetAttached(id, attached); }
      sessionAttachments := sessionAttachments - {id};
      WakeAll(id, ForAttach, if ok then AttachedOk else Failed);
    }

    // ---- Events ---------------------------------------------------------------------------------------------

    method SessionRemoved(id: string)
      requires Valid()
      modifies this
      ensures connected == old(connected)
      ensures Only(id) && View(id) == Step(old(View(id)), Removed)
    {
      InvalidateSessionLeases(id);
      SetAttached(id, false);
    }

    lemma CountedIff(id: string)
      requires Valid()
      ensures View(id).count > 0 <==> id in sessionLeaseCounts
    {
    }

    /** The counters are deleted on the way. */
    method InvalidateCountedSessions()
      requires Valid()
      modifies this`sessionLeaseCounts, this`exclusiveSessionLeases, this`sessionCleanupRequired, this`sessionLeaseGenerations
      ensures Valid()
      ensures forall id :: View(id) == if old(View(id)).count > 0 then SessionLeases.InvalidateSessionLeases(old(View(id)))
                                       else old(View(id))
    {
      hide View, Valid, SessionLeases.InvalidateSessionLeases;
      ghost var before := sessionLeaseCounts.Keys;
      forall id ensures View(id).count > 0 <==> id in before { CountedIff(id); }
      var counted := sessionLeaseCounts.Keys;
      while counted != {}
        invariant Valid() && counted <= before
        invariant forall id :: View(id) == if id in before && id !in counted
                                           then SessionLeases.InvalidateSessionLeases(old(View(id))) else old(View(id))
        decreases |counted|
      {
        var id :| id in counted;
        counted := counted - {id};
        InvalidateSessionLeases(id);
      }
    }

    method InvalidateAllSessionLeases()
      requires Valid()
      modifies this`sessionLeaseCounts, this`exclusiveSessionLeases, this`sessionCleanupRequired, this`sessionLeaseGenerations
      ensures Valid()
      ensures forall id :: View(id) == InvalidateIfCounted(old(View(id)))
    {
      InvalidateCountedSessions();
      label L:
      sessionCleanupRequired := {};
      assert forall id :: View(id) == old@L(View(id)).(cleanupRequired := false);
    }

    method RejectPendingRequests()
      requires Valid()
      modifies this`sessionAttachments, this`sessionDetachments, this`sessionReconciliations, this`reservations
      ensures Valid() && forall id :: View(id) == SessionLeases.RejectPendingRequests(old(View(id)))
    {
      sessionAttachments, sessionDetachments, sessionReconciliations := {}, map[], {};
      reservations := map id | id in reservations :: Granted(reservations[id]);
    }

    method HandleDisconnected()
      requires Valid()
      modifies this
      ensures Valid() && !connected && forall id :: View(id) == Step(old(View(id)), Disconnected)
    {
      hide InvalidateIfCounted, SessionLeases.RejectPendingRequests;
      attachedSessionIds := {};
      assert forall id :: View(id) == old(View(id)).(attached := false);
      InvalidateAllSessionLeases();
      RejectPendingRequests();
      connected := false;
    }

    // ---- All sessions ------------------------------------------------------------------------------------------

    ghost predicate Sound()
      reads this
    {
      forall id :: Inv(View(id))
    }

    /** A step of one session keeps the whole client sound exactly if it is harmless. */
    twostate lemma StepKeepsSoundIff(id: string, a: Action)
      requires old(Sound()) && Enabled(old(View(id)), a)
      requires Only(id) && View(id) == Step(old(View(id)), a)
      ensures Sound() <==> Harmless(old(View(id)), a)
    {
      hide Inv, Step, Harmless;
      StepKeepsIff(old(View(id)), a);
    }
  }
}
