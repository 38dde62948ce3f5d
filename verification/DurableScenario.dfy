/** One concrete run: the owner passes its expiry check, the reservation expires, and a
    poller sees `stale` while the completion is still under way. */
module DurableScenario {
  import opened HashChain
  import opened PostgresAudit
  import opened DurableProtocol
  import opened DurableSteps
  import opened DurableAgreement
  import opened DurableStaleness

  const KEY: Key := 1
  const DIGEST: Digest := 2
  const RESPONSE: Response := Response(HumanReview, "demo")

  /** The owner and the poller, on two workers. */
  function Owner(phase: Phase, main: Tx): Caller { Caller(0, KEY, DIGEST, phase, main, NoTx) }

  function Poller(phase: Phase, main: Tx): Caller { Caller(1, KEY, DIGEST, phase, main, NoTx) }

  function Fresh(cfg: Config): Row { Row(DIGEST, cfg.ttl, Reserved) }

  /** Before the row is committed. */
  function Early(callers: map<CallerId, Caller>): State
  {
    InitialState(0).(callers := callers)
  }

  /** After it is; the operation has started `n` times. */
  function Late(cfg: Config, now: nat, callers: map<CallerId, Caller>, n: nat): State
  {
    State(Database(map[KEY := Fresh(cfg)], map[PRIMARY := ChainHead(0, GENESIS)], []), now, callers,
          map[KEY := 0], multiset{}[KEY := n])
  }

  lemma Extend(cfg: Config, s: State, step: Step, t: State)
    requires Reachable(cfg, s) && Enabled(cfg, s, step) && t == Next(cfg, s, step)
    ensures Reachable(cfg, t)
  {
    StepReaches(cfg, s, step);
    ReachableThen(cfg, s, t);
  }

  lemma OwnerReserves(cfg: Config)
    requires cfg.poolSize >= 1
    ensures Reachable(cfg, Late(cfg, 0, map[0 := Owner(Operating, NoTx)], 1))
  {
    var s0 := InitialState(0);
    assert Runs(cfg, s0, [], s0);
    assert CanReach(cfg, s0, s0);
    var s1 := Early(map[0 := Owner(ReserveCheckout, NoTx)]);
    Extend(cfg, s0, Start(0, 0, KEY, DIGEST), s1);
    assert ConnHolders(s1, 0) == {};
    var s2 := Early(map[0 := Owner(ReserveInsert, NoTx)]);
    Extend(cfg, s1, Checkout(0), s2);
    OwnerInserts(cfg);
  }

  lemma OwnerInserts(cfg: Config)
    requires Reachable(cfg, Early(map[0 := Owner(ReserveInsert, NoTx)]))
    ensures Reachable(cfg, Late(cfg, 0, map[0 := Owner(Operating, NoTx)], 1))
  {
    var s2 := Early(map[0 := Owner(ReserveInsert, NoTx)]);
    var s3 := Early(map[0 := Owner(ReserveCommit(OwnerSeen), Open(Insert(Fresh(cfg))))]);
    Extend(cfg, s2, InsertRow(0), s3);
    var s4 := Early(map[0 := Owner(ReserveCommit(OwnerSeen), Committing(Insert(Fresh(cfg))))]);
    Extend(cfg, s3, SendCommit(Main(0)), s4);
    InsertCommits(cfg);
  }

  lemma InsertCommits(cfg: Config)
    requires Reachable(cfg, Early(map[0 := Owner(ReserveCommit(OwnerSeen), Committing(Insert(Fresh(cfg))))]))
    ensures Reachable(cfg, Late(cfg, 0, map[0 := Owner(Operating, NoTx)], 1))
  {
    var s4 := Early(map[0 := Owner(ReserveCommit(OwnerSeen), Committing(Insert(Fresh(cfg))))]);
    var s5 := Late(cfg, 0, map[0 := Owner(ReserveCommit(OwnerSeen), Ended(Insert(Fresh(cfg)), true))], 0);
    Extend(cfg, s4, Commit(Main(0)), s5);
    Extend(cfg, s5, Ack(0), Late(cfg, 0, map[0 := Owner(Operating, NoTx)], 1));
  }

  lemma PollerArrives(cfg: Config)
    requires cfg.poolSize >= 1
    ensures Reachable(cfg, Late(cfg, 0, map[0 := Owner(Operating, NoTx), 1 := Poller(ReserveShare, NoTx)], 1))
  {
    var owner := Owner(Operating, NoTx);
    OwnerReserves(cfg);
    var s0 := Late(cfg, 0, map[0 := owner], 1);
    var s1 := Late(cfg, 0, map[0 := owner, 1 := Poller(ReserveCheckout, NoTx)], 1);
    Extend(cfg, s0, Start(1, 1, KEY, DIGEST), s1);
    assert ConnHolders(s1, 1) == {};
    var s2 := Late(cfg, 0, map[0 := owner, 1 := Poller(ReserveInsert, NoTx)], 1);
    Extend(cfg, s1, Checkout(1), s2);
    var s3 := Late(cfg, 0, map[0 := owner, 1 := Poller(ReserveShare, NoTx)], 1);
    Extend(cfg, s2, InsertConflict(1), s3);
  }

  lemma PollerSeesReserved(cfg: Config)
    requires cfg.poolSize >= 1 && cfg.ttl >= 1
    ensures Reachable(cfg, Late(cfg, 0, map[0 := Owner(Operating, NoTx), 1 := Poller(PollSleep, NoTx)], 1))
  {
    PollerArrives(cfg);
    var owner := Owner(Operating, NoTx);
    var s3 := Late(cfg, 0, map[0 := owner, 1 := Poller(ReserveShare, NoTx)], 1);
    var s4 := Late(cfg, 0, map[0 := owner, 1 := Poller(ReserveCommit(ReservedSeen), Open(Share))], 1);
    Extend(cfg, s3, ShareRow(1), s4);
    var s5 := Late(cfg, 0, map[0 := owner, 1 := Poller(ReserveCommit(ReservedSeen), Committing(Share))], 1);
    Extend(cfg, s4, SendCommit(Main(1)), s5);
    ShareCommits(cfg);
  }

  lemma ShareCommits(cfg: Config)
    requires Reachable(cfg, Late(cfg, 0, map[0 := Owner(Operating, NoTx), 1 := Poller(ReserveCommit(ReservedSeen), Committing(Share))], 1))
    ensures Reachable(cfg, Late(cfg, 0, map[0 := Owner(Operating, NoTx), 1 := Poller(PollSleep, NoTx)], 1))
  {
    var owner := Owner(Operating, NoTx);
    var s5 := Late(cfg, 0, map[0 := owner, 1 := Poller(ReserveCommit(ReservedSeen), Committing(Share))], 1);
    var s6 := Late(cfg, 0, map[0 := owner, 1 := Poller(ReserveCommit(ReservedSeen), Ended(Share, true))], 1);
    Extend(cfg, s5, Commit(Main(1)), s6);
    var s7 := Late(cfg, 0, map[0 := owner, 1 := Poller(PollSleep, NoTx)], 1);
    Extend(cfg, s6, Ack(1), s7);
  }

  lemma OwnerTakesTheGate(cfg: Config)
    requires cfg.poolSize >= 1 && cfg.ttl >= 1
    ensures Reachable(cfg, Late(cfg, 0, map[0 := Owner(CompleteCheckout(RESPONSE), NoTx), 1 := Poller(PollSleep, NoTx)], 1))
  {
    PollerSeesReserved(cfg);
    var poller := Poller(PollSleep, NoTx);
    var s0 := Late(cfg, 0, map[0 := Owner(Operating, NoTx), 1 := poller], 1);
    var s1 := Late(cfg, 0, map[0 := Owner(CompleteGate(RESPONSE), NoTx), 1 := poller], 1);
    Extend(cfg, s0, Operate(0, RESPONSE), s1);
    var s2 := Late(cfg, 0, map[0 := Owner(CompleteCheckout(RESPONSE), NoTx), 1 := poller], 1);
    Extend(cfg, s1, TakeGate(0), s2);
  }

  lemma OwnerLocksItsRow(cfg: Config)
    requires cfg.poolSize >= 1 && cfg.ttl >= 1
    ensures Reachable(cfg, Late(cfg, 0, map[0 := Owner(Completing(RESPONSE), Open(LockedRow)), 1 := Poller(PollSleep, NoTx)], 1))
  {
    OwnerTakesTheGate(cfg);
    var poller := Poller(PollSleep, NoTx);
    var s2 := Late(cfg, 0, map[0 := Owner(CompleteCheckout(RESPONSE), NoTx), 1 := poller], 1);
    assert ConnHolders(s2, 0) == {};
    var s3 := Late(cfg, 0, map[0 := Owner(Completing(RESPONSE), NoTx), 1 := poller], 1);
    Extend(cfg, s2, Checkout(0), s3);
    Extend(cfg, s3, LockRow(0),
           Late(cfg, 0, map[0 := Owner(Completing(RESPONSE), Open(LockedRow)), 1 := poller], 1));
  }

  /** The poller is about to read; the clock has passed the expiry. */
  function AtThePoll(cfg: Config): State
  {
    Late(cfg, cfg.ttl, map[0 := Owner(Completing(RESPONSE), Open(LockedRow)), 1 := Poller(PollRead, NoTx)], 1)
  }

  lemma AtThePollReachable(cfg: Config)
    requires cfg.poolSize >= 1 && cfg.ttl >= 1
    ensures Reachable(cfg, AtThePoll(cfg))
  {
    OwnerLocksItsRow(cfg);
    var owner := Owner(Completing(RESPONSE), Open(LockedRow));
    var s0 := Late(cfg, 0, map[0 := owner, 1 := Poller(PollSleep, NoTx)], 1);
    assert ConnHolders(s0, 1) == {};
    var s1 := Late(cfg, 0, map[0 := owner, 1 := Poller(PollRead, NoTx)], 1);
    Extend(cfg, s0, Checkout(1), s1);
    Extend(cfg, s1, Tick(cfg.ttl), AtThePoll(cfg));
  }

  /** No event is committed yet, so whatever event the owner builds repeats nothing. */
  lemma FirstEventIsAvailable(cfg: Config, s: State)
    requires s.db.events == [] && PRIMARY in s.db.heads && s.db.heads[PRIMARY].lastSequence == 0
    requires 0 in s.callers && s.callers[0].phase.Completing? && MayComplete(s.callers[0])
    ensures CanBuild(cfg, s, s.callers[0])
  {
    assert GivesEvent(cfg, s, s.callers[0], 0, 0);
  }

  lemma PollRaisesStale(cfg: Config)
    requires cfg.poolSize >= 1 && cfg.ttl >= 1
    ensures Enabled(cfg, AtThePoll(cfg), Poll(1))
    ensures AfterPoll(cfg, AtThePoll(cfg), AtThePoll(cfg).callers[1]).phase == Finished(Raised(Stale))
    ensures Next(cfg, AtThePoll(cfg), Poll(1)) ==
            Late(cfg, cfg.ttl, map[0 := Owner(Completing(RESPONSE), Open(LockedRow)), 1 := Poller(Finished(Raised(Stale)), NoTx)], 1)
  {
  }

  /** The unlocked poll raises `stale` and the very key completes afterwards: the answer of
      `_read` is not final, whatever the settings. */
  lemma PolledStaleIsNotFinal(cfg: Config) returns (s: State, t: State)
    requires cfg.poolSize >= 1 && cfg.ttl >= 1
    ensures Reachable(cfg, s) && Enabled(cfg, s, Poll(1))
    ensures AfterPoll(cfg, s, s.callers[1]).phase == Finished(Raised(Stale))
    ensures CanReach(cfg, Next(cfg, s, Poll(1)), t) && IsCompleted(t, s.callers[1].key)
  {
    s := AtThePoll(cfg);
    AtThePollReachable(cfg);
    PollRaisesStale(cfg);
    var u := Late(cfg, cfg.ttl, map[0 := Owner(Completing(RESPONSE), Open(LockedRow)), 1 := Poller(Finished(Raised(Stale)), NoTx)], 1);
    Extend(cfg, s, Poll(1), u);
    ReachableInv(cfg, u);
    FirstEventIsAvailable(cfg, u);
    t := CanFinish(cfg, u, 0);
  }

  /** A verifier that starts in that state and reads its events after the completion has
      committed reports a broken chain, although every state on the way verifies. */
  lemma VerifierCanFailSpuriously(cfg: Config) returns (s: State, t: State)
    requires cfg.poolSize >= 1 && cfg.ttl >= 1
    ensures Reachable(cfg, s) && CanReach(cfg, s, t)
    ensures Sound(cfg.hashing, s.db, s.db, s.db, s.db) && Sound(cfg.hashing, t.db, t.db, t.db, t.db)
    ensures !Sound(cfg.hashing, s.db, s.db, t.db, t.db)
  {
    s := AtThePoll(cfg);
    AtThePollReachable(cfg);
    ReachableInv(cfg, s);
    FirstEventIsAvailable(cfg, s);
    t := CanFinish(cfg, s, 0);
    ReachableThen(cfg, s, t);
    ReachableStateVerifies(cfg, s);
    ReachableStateVerifies(cfg, t);
    TablesKnown(cfg, t);
    assert HasEvent(t.db.events, KEY, t.db.rows[KEY].state.receipt);
    assert PrimaryEvents(t.db.events) == t.db.events;
  }
}
