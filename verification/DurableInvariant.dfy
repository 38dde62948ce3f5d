/** The inductive invariant of the durable protocol: every step of every caller,
    with failures and crashes anywhere, keeps it. */
module DurableInvariant {
  import opened Wrappers
  import opened HashChain
  import opened PostgresAudit
  import opened DurableProtocol
  import opened Sets

  // ----- Locks -----

  /** Two callers never hold the same lock, a caller's own two sessions do not either,
      and an exclusive row lock excludes shared ones. */
  ghost predicate LocksOk(s: State)
  {
    && (forall c, d :: c in s.callers && d in s.callers && c != d ==> Apart(s.callers[c], s.callers[d]))
    && (forall c :: c in s.callers ==> !(HoldsX(s.callers[c].main) && HoldsX(s.callers[c].recovery)))
  }

  predicate Apart(a: Caller, b: Caller)
  {
    && (a.key == b.key ==> !(LocksRow(a) && LocksRow(b)) && !(LocksRow(a) && HoldsS(b.main)) && !(HoldsS(a.main) && LocksRow(b)))
    && !(HoldsHead(a.main) && HoldsHead(b.main))
    && (a.worker == b.worker ==> !(HasGate(a.phase) && HasGate(b.phase)))
  }

  ghost predicate PoolsOk(cfg: Config, s: State)
  {
    forall w :: |ConnHolders(s, w)| <= cfg.poolSize
  }

  predicate Names(s: State, c: CallerId, k: Key) { c in s.callers && s.callers[c].key == k }

  // ----- Shapes -----

  /** Which transactions a caller can have in which phase. */
  predicate ShapeOk(a: Caller)
  {
    && (a.recovery.NoTx? || a.recovery.work.Fail?)
    && (a.main.NoTx? || !a.main.work.Fail?)
    && (!a.recovery.NoTx? ==> a.phase.Failing? || a.phase.Finished? || a.phase.Crashed?)
    && (a.main.Committing? ==> a.main.work.Insert? || a.main.work.Share? || a.main.work.StagedHead?)
    && (a.main.Ended? && a.main.committed ==> a.main.work.Insert? || a.main.work.Share? || a.main.work.StagedHead?)
    && match a.phase
       case ReserveCommit(seen) => !a.main.NoTx? && if seen.OwnerSeen? then a.main.work.Insert? else a.main.work.Share?
       case Completing(r) =>
         !a.main.NoTx? ==> CompletionWork(a.main.work) && (EventIn(a.main.work) ==> a.main.work.event.doc.response == r)
       case FailCheckout(_) => !a.main.NoTx? ==> CompletionWork(a.main.work)
       case Failing(_) => !a.main.NoTx? ==> CompletionWork(a.main.work)
       case Finished(_) => true
       case Crashed => true
       case _ => a.main.NoTx?
  }

  predicate EventIn(w: Work) { w.StagedEvent? || w.StagedRow? || w.StagedHead? }

  // ----- Data -----

  predicate OwnerPhase(p: Phase)
  {
    p.Operating? || p.CompleteGate? || p.CompleteCheckout? || p.Completing? || p.FailCheckout? || p.Failing?
  }

  /** The caller inserted the row of its key. */
  predicate Owns(s: State, c: CallerId)
    requires c in s.callers
  {
    var a := s.callers[c];
    && a.key in s.db.rows && a.key in s.owners && s.owners[a.key] == c
    && s.db.rows[a.key].requestDigest == a.digest
  }

  predicate OwnsReserved(s: State, c: CallerId)
    requires c in s.callers
  {
    Owns(s, c) && s.db.rows[s.callers[c].key].state.Reserved?
  }

  predicate RowSeen(s: State, a: Caller) { a.key in s.db.rows && s.db.rows[a.key].requestDigest == a.digest }

  predicate Holds(s: State, a: Caller, r: Response, receipt: Digest)
  {
    RowSeen(s, a) && s.db.rows[a.key].state.Completed?
    && s.db.rows[a.key].state.document == r && s.db.rows[a.key].state.receipt == receipt
  }

  /** The event was built on the head as it is now. */
  ghost predicate BuiltOnHead(cfg: Config, s: State, a: Caller, e: EventRow)
  {
    && PRIMARY in s.db.heads
    && EventOf(cfg, s.db.heads[PRIMARY], a, e.doc.eventId, e.doc.response, e.doc.occurredAt) == Ok(e)
    && UniqueAmong(s.db.events, e)
  }

  ghost predicate PhaseOk(s: State, c: CallerId)
    requires c in s.callers
  {
    var a := s.callers[c];
    && (OwnerPhase(a.phase) ==> Owns(s, c))
    && match a.phase
       case ReserveShare => a.key in s.db.rows
       case PollSleep => RowSeen(s, a)
       case PollRead => RowSeen(s, a)
       case Operating => OwnsReserved(s, c)
       case CompleteGate(_) => OwnsReserved(s, c)
       case CompleteCheckout(_) => OwnsReserved(s, c)
       case Completing(_) => a.main.NoTx? ==> OwnsReserved(s, c)
       case ReserveCommit(seen) =>
         (match seen
          case OwnerSeen => a.main.Ended? && a.main.committed ==> OwnsReserved(s, c) && s.runs[a.key] == 0
          case CompletedSeen(r, receipt) => Holds(s, a, r, receipt)
          case _ => RowSeen(s, a))
       case Finished(Success(r, receipt, replayed)) =>
         Holds(s, a, r, receipt) && (!replayed ==> Owns(s, c))
       case _ => true
  }

  ghost predicate TxOk(cfg: Config, s: State, c: CallerId)
    requires c in s.callers
  {
    var a := s.callers[c];
    && (Live(a.recovery) && a.recovery.work == Fail(true) ==> OwnsReserved(s, c))
    && (Live(a.main) ==>
          match a.main.work
          case Insert(row) => a.key !in s.db.rows && row.requestDigest == a.digest && row.state.Reserved?
          case Share => a.key in s.db.rows
          case LockedRow => OwnsReserved(s, c)
          case LockedHead(head) => OwnsReserved(s, c) && PRIMARY in s.db.heads && s.db.heads[PRIMARY] == head
          case StagedEvent(e) => OwnsReserved(s, c) && BuiltOnHead(cfg, s, a, e)
          case StagedRow(e) => OwnsReserved(s, c) && BuiltOnHead(cfg, s, a, e)
          case StagedHead(e) => OwnsReserved(s, c) && BuiltOnHead(cfg, s, a, e)
          case Fail(_) => true)
    && (a.main.Ended? && a.main.committed && a.main.work.StagedHead? ==>
          Owns(s, c) && Holds(s, a, a.main.work.event.doc.response, a.main.work.event.eventHash))
  }

  // ----- Tables -----

  /** The committed chain is sound: exactly one head, every event of the primary chain,
      linked and in sequence, agreeing with its completed row. */
  ghost predicate DbOk(h: Hashing, db: Database)
  {
    && db.heads == map[PRIMARY := ChainHead(|db.events|, Head(StoredHash, db.events))]
    && (forall i :: 0 <= i < |db.events| ==> db.events[i].doc.chain == PRIMARY)
    && ChainIntact(h, db.events)
    && RowsMatchEvents(db)
    && KeysUnique(db.events)
    && (forall k :: k in db.rows && db.rows[k].state.Completed? ==>
          db.rows[k].state.responseHash == h.response(db.rows[k].state.document))
  }

  /** At most one event per key. */
  ghost predicate KeysUnique(events: seq<EventRow>)
  {
    forall i, j :: 0 <= i < j < |events| ==> events[i].doc.key != events[j].doc.key
  }

  ghost predicate HistoryOk(s: State)
  {
    && s.owners.Keys == s.db.rows.Keys
    && (forall k :: k in s.owners ==> Names(s, s.owners[k], k))
    && (forall k :: s.runs[k] <= 1)
    && (forall k :: s.runs[k] > 0 ==> k in s.db.rows)
  }

  ghost predicate CallerOk(cfg: Config, s: State, c: CallerId)
    requires c in s.callers
  {
    ShapeOk(s.callers[c]) && PhaseOk(s, c) && TxOk(cfg, s, c)
  }

  ghost predicate CallersOk(cfg: Config, s: State)
  {
    forall c :: c in s.callers ==> CallerOk(cfg, s, c)
  }

  ghost predicate Inv(cfg: Config, s: State)
  {
    && DbOk(cfg.hashing, s.db)
    && HistoryOk(s)
    && LocksOk(s)
    && PoolsOk(cfg, s)
    && CallersOk(cfg, s)
  }

  lemma InitialInv(cfg: Config, clock: nat)
    ensures Inv(cfg, InitialState(clock))
  {
  }

  // ----- Framing: what a step of one caller leaves alone -----

  predicate OwnedBy(s: State, k: Key, c: CallerId) { k in s.owners && s.owners[k] == c }

  /** Rows are never removed, keep their digest and owner, and change state only from
      `reserved`, by a step of their owner; a new row needs the lock on its key. */
  ghost predicate RowsEvolve(s: State, t: State, c: CallerId)
  {
    && (forall k :: k in s.db.rows ==>
          && k in t.db.rows && t.db.rows[k].requestDigest == s.db.rows[k].requestDigest
          && (t.db.rows[k] == s.db.rows[k] || (s.db.rows[k].state.Reserved? && OwnedBy(s, k, c))))
    && (forall k :: k in t.db.rows && k !in s.db.rows ==> Names(s, c, k) && LocksRow(s.callers[c]))
    && (forall k :: k in s.owners ==> k in t.owners && t.owners[k] == s.owners[k])
  }

  /** The state after a step of `c`, as every other caller sees it. */
  ghost predicate Evolves(s: State, t: State, c: CallerId)
  {
    && s.callers.Keys + {c} == t.callers.Keys
    && (forall d :: d in s.callers && d != c ==> t.callers[d] == s.callers[d])
    && RowsEvolve(s, t, c)
    && ((s.db.heads == t.db.heads && s.db.events == t.db.events) || (c in s.callers && HoldsHead(s.callers[c].main)))
    && (forall k :: t.runs[k] == s.runs[k] || (c in s.callers && s.callers[c].key == k && Owns(s, c)))
  }

  /** What another caller knows of its row stays true. */
  lemma OtherFacts(s: State, t: State, c: CallerId, d: CallerId)
    requires Evolves(s, t, c) && d in s.callers && d != c
    ensures d in t.callers && t.callers[d] == s.callers[d]
    ensures Owns(s, d) ==> Owns(t, d)
    ensures OwnsReserved(s, d) ==> OwnsReserved(t, d)
    ensures Owns(s, d) ==> t.runs[s.callers[d].key] == s.runs[s.callers[d].key]
    ensures s.callers[d].key in s.db.rows ==> s.callers[d].key in t.db.rows
    ensures RowSeen(s, s.callers[d]) ==> RowSeen(t, s.callers[d])
    ensures forall r, receipt :: Holds(s, s.callers[d], r, receipt) ==> Holds(t, s.callers[d], r, receipt)
  {
  }

  lemma OtherPhase(s: State, t: State, c: CallerId, d: CallerId)
    requires d in s.callers && d != c && PhaseOk(s, d) && Evolves(s, t, c)
    ensures d in t.callers && PhaseOk(t, d)
  {
    OtherFacts(s, t, c, d);
  }

  lemma OtherTx(cfg: Config, s: State, t: State, c: CallerId, d: CallerId)
    requires d in s.callers && d != c && TxOk(cfg, s, d) && Evolves(s, t, c) && LocksOk(s)
    ensures d in t.callers && TxOk(cfg, t, d)
  {
    OtherFacts(s, t, c, d);
    if c in s.callers {
      assert Apart(s.callers[d], s.callers[c]);
    }
  }

  lemma OthersOk(cfg: Config, s: State, t: State, c: CallerId)
    requires CallersOk(cfg, s) && LocksOk(s) && Evolves(s, t, c) && CallerOk(cfg, t, c)
    ensures CallersOk(cfg, t)
  {
    forall d | d in t.callers ensures CallerOk(cfg, t, d) {
      if d != c {
        assert CallerOk(cfg, s, d);
        OtherPhase(s, t, c, d);
        OtherTx(cfg, s, t, c, d);
      }
    }
  }

  // ----- Steps that leave the tables alone -----

  /** A caller that takes no lock, gate or connection: what it holds only shrinks. */
  predicate HoldsNoMore(a: Caller, b: Caller)
  {
    && b.key == a.key && b.worker == a.worker && b.digest == a.digest
    && (HoldsX(b.main) ==> HoldsX(a.main)) && (HoldsX(b.recovery) ==> HoldsX(a.recovery))
    && (HoldsS(b.main) ==> HoldsS(a.main))
    && (HoldsHead(b.main) ==> HoldsHead(a.main))
    && (HasGate(b.phase) ==> HasGate(a.phase))
    && (HasConn(b.phase) ==> HasConn(a.phase))
  }

  lemma LocksShrink(s: State, t: State, c: CallerId)
    requires LocksOk(s) && c in s.callers && t.callers.Keys == s.callers.Keys
    requires forall d :: d in s.callers && d != c ==> t.callers[d] == s.callers[d]
    requires HoldsNoMore(s.callers[c], t.callers[c])
    ensures LocksOk(t)
  {
    forall x, y | x in t.callers && y in t.callers && x != y ensures Apart(t.callers[x], t.callers[y]) {
      assert Apart(s.callers[x], s.callers[y]);
    }
  }

  lemma PoolsShrink(cfg: Config, s: State, t: State, c: CallerId)
    requires PoolsOk(cfg, s) && c in s.callers && t.callers.Keys == s.callers.Keys
    requires forall d :: d in s.callers && d != c ==> t.callers[d] == s.callers[d]
    requires HoldsNoMore(s.callers[c], t.callers[c])
    ensures PoolsOk(cfg, t)
  {
    forall w ensures |ConnHolders(t, w)| <= cfg.poolSize {
      assert ConnHolders(t, w) <= ConnHolders(s, w);
      SubsetSize(ConnHolders(t, w), ConnHolders(s, w));
    }
  }

  lemma OwnRecordEvolves(s: State, c: CallerId, a: Caller)
    ensures Evolves(s, With(s, c, a), c)
  {
  }

  lemma HistoryKept(s: State, t: State)
    requires HistoryOk(s) && t.db == s.db && t.owners == s.owners && t.runs == s.runs
    requires forall d :: d in s.callers ==> d in t.callers && t.callers[d].key == s.callers[d].key
    ensures HistoryOk(t)
  {
    forall k | k in t.owners ensures Names(t, t.owners[k], k) {
      assert Names(s, s.owners[k], k);
    }
  }
}
