/** The local profile over several processes, one after the other on the same files.  Each
    ends at any moment; the next opens the files if they verify, and remembers nothing but
    what is in them. */
module LocalRestarts {
  import opened HashChain
  import opened LocalAudit
  import opened LocalEvidence
  import opened LocalRegistry
  import opened LocalRun
  import opened LocalWriter
  import opened Wrappers

  // ----- One append -----

  /** Without the premise on identifiers: a complete append by a process that finds old
      events leaves files that verify if and only if no old event has this request's
      identifier and one of its indexes.  A retry after a restart is such a request. */
  lemma CompletedAppendVerifiesIff(cd: Codec, f: Files, w: Anchor, log: seq<Event>, q: Request, now: nat, ids: nat -> nat,
                                   g: Files, v: Anchor, receipts: seq<Digest>)
    requires CodecOk(cd) && InSync(cd, f, w, log) && FreshIds(log, q, ids)
    requires Complete(cd, f, w, q, now, ids, g, v, receipts)
    ensures (exists all :: Verifies(cd, g, all)) <==>
            forall i :: 0 <= i < |log| ==> !(log[i].body.requestId == q.id && log[i].body.eventIndex < |q.decisions|)
  {
    CompleteIsAppended(cd, f, w, log, q, now, ids, g, v, receipts);
    AppendVerifiesIff(cd, f, log, q, now, ids);
  }

  /** A process that has just opened these files. */
  function Opened(files: Files, writer: Anchor, log: seq<Event>): State
  {
    State(Table(map[], []), files, writer, map[], log, multiset{}, false)
  }

  /** Such a process takes one request and publishes its result. */
  ghost predicate Serves(cd: Codec, files: Files, writer: Anchor, log: seq<Event>, q: Request, step: Step, t: State)
  {
    var s := Opened(files, writer, log);
    && Enabled(cd, s, Arrive(0, q.id, q.inputDigest))
    && step.Publish? && step.c == 0 && step.q == q
    && Enabled(cd, Arrival(s, 0, q.id, q.inputDigest), step)
    && t == Next(cd, Arrival(s, 0, q.id, q.inputDigest), step)
  }

  /** On files in sync it can. */
  lemma CanServe(cd: Codec, files: Files, writer: Anchor, log: seq<Event>, q: Request, now: nat, ids: nat -> nat)
    returns (step: Step, t: State)
    requires InSync(cd, files, writer, log) && Acceptable(q) && FreshIds(log, q, ids)
    ensures Serves(cd, files, writer, log, q, step, t)
    ensures t.files == AppendedFiles(cd, files, log, q, now, ids) && t.log == log + Added(cd, log, q, now, ids)
    ensures t.writer == Anchor(|log| + |q.decisions|, Head(SealOf, t.log))
  {
    var s := Arrival(Opened(files, writer, log), 0, q.id, q.inputDigest);
    var added := Added(cd, log, q, now, ids);
    step := Publish(0, q, now, ids, AppendedFiles(cd, files, log, q, now, ids),
                    Anchor(|log| + |q.decisions|, Head(SealOf, log + added)), Hashes(added));
    AppendedIsComplete(cd, files, writer, log, q, now, ids);
    t := Next(cd, s, step);
  }

  /** Identifiers counted from `n` on. */
  function From(n: nat): nat -> nat { i => n + i }

  lemma AddedFromZero(cd: Codec, q: Request, now: nat)
    requires Acceptable(q)
    ensures FreshFor([], q, From(0)) && FreshIds([], q, From(0))
    ensures FreshIds([] + Added(cd, [], q, now, From(0)), q, From(|q.decisions|))
    ensures Pair(([] + Added(cd, [], q, now, From(0)))[0]) == (q.id, 0)
  {
    var log := [] + Added(cd, [], q, now, From(0));
    NewEventsRecord(cd, q, now, From(0), GENESIS, |q.decisions|);
    forall i | 0 <= i < |log| ensures log[i].body.eventId == i { assert Records(cd, q, now, From(0), log[i], i); }
    assert Records(cd, q, now, From(0), log[0], 0);
  }

  /** The input that fails: a first process appends the events of a request, on no files,
      and ends; a second opens what it left, which verifies, and is asked for the same
      request again.  Its append completes, and the files verify no more. */
  lemma RetryAfterRestartBreaksLog(cd: Codec, q: Request, now: nat) returns (first: Step, t: State, second: Step, u: State)
    requires CodecOk(cd) && Acceptable(q)
    ensures Verifies(cd, Files(None, None), [])
    ensures Serves(cd, Files(None, None), Anchor(0, GENESIS), [], q, first, t) && InSync(cd, t.files, t.writer, t.log)
    ensures Serves(cd, t.files, t.writer, t.log, q, second, u) && forall all :: !Verifies(cd, u.files, all)
  {
    AddedFromZero(cd, q, now);
    first, t := FirstVerifies(cd, Files(None, None), Anchor(0, GENESIS), [], q, now, From(0));
    second, u := SecondBreaks(cd, t.files, t.writer, t.log, q, now, From(|q.decisions|));
  }

  lemma FirstVerifies(cd: Codec, files: Files, writer: Anchor, log: seq<Event>, q: Request, now: nat, ids: nat -> nat)
    returns (first: Step, t: State)
    requires CodecOk(cd) && Acceptable(q) && InSync(cd, files, writer, log) && FreshIds(log, q, ids) && FreshFor(log, q, ids)
    ensures Serves(cd, files, writer, log, q, first, t)
    ensures InSync(cd, t.files, t.writer, t.log) && t.log == log + Added(cd, log, q, now, ids)
  {
    first, t := CanServe(cd, files, writer, log, q, now, ids);
    AppendVerifiesIff(cd, files, log, q, now, ids);
  }

  lemma SecondBreaks(cd: Codec, files: Files, writer: Anchor, log: seq<Event>, q: Request, now: nat, ids: nat -> nat)
    returns (second: Step, u: State)
    requires CodecOk(cd) && Acceptable(q) && InSync(cd, files, writer, log) && FreshIds(log, q, ids)
    requires |log| > 0 && Pair(log[0]) == (q.id, 0)
    ensures Serves(cd, files, writer, log, q, second, u) && forall all :: !Verifies(cd, u.files, all)
  {
    second, u := CanServe(cd, files, writer, log, q, now, ids);
    AppendVerifiesIff(cd, files, log, q, now, ids);
    RepeatIsNotFresh(log, q, ids);
  }

  lemma RepeatIsNotFresh(log: seq<Event>, q: Request, ids: nat -> nat)
    requires |q.decisions| > 0 && |log| > 0 && Pair(log[0]) == (q.id, 0)
    ensures !FreshFor(log, q, ids)
  {
    assert log[0].body.requestId == q.id && log[0].body.eventIndex < |q.decisions|;
  }

  // ----- Whole lives of the files -----

  /** A step of the process at work, or its end and the start of another that finds these
      events. */
  datatype Turn = Works(step: Step) | Restart(events: seq<Event>)

  ghost predicate CanTurn(cd: Codec, s: State, turn: Turn)
  {
    match turn
    case Works(step) => Enabled(cd, s, step)
    case Restart(events) => Verifies(cd, s.files, events)
  }

  ghost function Turned(cd: Codec, s: State, turn: Turn): State
    requires CanTurn(cd, s, turn)
  {
    match turn
    case Works(step) => Next(cd, s, step)
    case Restart(events) => Opened(s.files, Anchor(|events|, Head(SealOf, events)), events)
  }

  ghost predicate Lives(cd: Codec, s: State, turns: seq<Turn>, t: State)
    decreases |turns|
  {
    if |turns| == 0 then s == t else CanTurn(cd, s, turns[0]) && Lives(cd, Turned(cd, s, turns[0]), turns[1..], t)
  }

  /** The log has an event of this request with one of its indexes. */
  predicate AlreadyLogged(log: seq<Event>, q: Request)
  {
    exists i :: 0 <= i < |log| && log[i].body.requestId == q.id && log[i].body.eventIndex < |q.decisions|
  }

  /** All of an append is on disk, though it failed: the anchor was replaced and the sync
      of the directory raised. */
  ghost predicate WholeOnDisk(cd: Codec, s: State, step: Step)
    requires step.AppendFails?
  {
    step.files == AppendedFiles(cd, s.files, s.log, step.q, step.now, step.ids)
  }

  /** What ruins the files: to append, or to be left with a whole append of, a request that
      is logged already, and to be left with a part of any append. */
  ghost predicate Ruins(cd: Codec, s: State, step: Step)
  {
    match step
    case Publish(_, q, _, _, _, _, _) => AlreadyLogged(s.log, q)
    case AppendFails(_, q, _, _, _, _) =>
      LeavesTrace(s, step) && (AlreadyLogged(s.log, q) || !WholeOnDisk(cd, s, step))
    case _ => false
  }

  ghost predicate SomethingRuins(cd: Codec, s: State, turns: seq<Turn>, t: State)
    requires Lives(cd, s, turns, t)
    decreases |turns|
  {
    |turns| > 0 && ((turns[0].Works? && Ruins(cd, s, turns[0].step)) || SomethingRuins(cd, Turned(cd, s, turns[0]), turns[1..], t))
  }

  ghost predicate Intact(cd: Codec, s: State) { exists events :: Verifies(cd, s.files, events) }

  /** The files verify; the process is in step with them, or can never append again. */
  ghost predicate Good(cd: Codec, s: State)
  {
    && Intact(cd, s)
    && (InSync(cd, s.files, s.writer, s.log) || forall all :: !InSync(cd, s.files, s.writer, all))
  }

  lemma FreshUnlessLogged(log: seq<Event>, q: Request, ids: nat -> nat)
    requires FreshIds(log, q, ids)
    ensures FreshFor(log, q, ids) <==> !AlreadyLogged(log, q)
  {
    if i :| 0 <= i < |log| && log[i].body.requestId == q.id && log[i].body.eventIndex < |q.decisions| {
      assert AlreadyLogged(log, q);
    }
  }

  lemma PublishDecides(cd: Codec, s: State, step: Step)
    requires CodecOk(cd) && Good(cd, s) && step.Publish? && Enabled(cd, s, step)
    ensures Ruins(cd, s, step) ==> !Intact(cd, Next(cd, s, step))
    ensures !Ruins(cd, s, step) ==> Good(cd, Next(cd, s, step))
  {
    CompleteIsAppended(cd, s.files, s.writer, s.log, step.q, step.now, step.ids, step.files, step.writer, step.receipts);
    AppendVerifiesIff(cd, s.files, s.log, step.q, step.now, step.ids);
    FreshUnlessLogged(s.log, step.q, step.ids);
    assert Next(cd, s, step).files == step.files && Next(cd, s, step).writer == step.writer;
  }

  /** What an interrupted append leaves verifies if and only if it wrote nothing, or all of
      a request that was not logged. */
  lemma InterruptionDecides(cd: Codec, s: State, step: Step)
    requires CodecOk(cd) && InSync(cd, s.files, s.writer, s.log) && step.AppendFails? && Enabled(cd, s, step) && step.files != s.files
    ensures LeavesTrace(s, step) ==>
              && ((exists all :: Verifies(cd, step.files, all)) <==> WholeOnDisk(cd, s, step) && !AlreadyLogged(s.log, step.q))
              && forall all :: !InSync(cd, step.files, s.writer, all)
    ensures !LeavesTrace(s, step) ==> InSync(cd, step.files, s.writer, s.log)
  {
    var q, files, p := step.q, step.files, step.p;
    var events :| InSync(cd, s.files, s.writer, events) && Acceptable(q)
      && PartlyWritten(s.files, Join(Lines(cd, Added(cd, events, q, step.now, step.ids))),
                       AnchorBytes(cd, events + Added(cd, events, q, step.now, step.ids)), files, p);
    VerifiesOnce(cd, s.files, events, s.log);
    var added := Added(cd, s.log, q, step.now, step.ids);
    NothingOrSomething(cd, s.files, added, AnchorBytes(cd, s.log + added), files, p);
    if p == "" {
      NothingWrittenIsOld(cd, s.files, s.log);
    } else {
      SomethingDecides(cd, s, q, step.now, step.ids, files, p);
      FreshUnlessLogged(s.log, q, step.ids);
    }
  }

  lemma SomethingDecides(cd: Codec, s: State, q: Request, now: nat, ids: nat -> nat, files: Files, p: Bytes)
    requires CodecOk(cd) && InSync(cd, s.files, s.writer, s.log) && Acceptable(q) && p != ""
    requires PartlyWritten(s.files, Join(Lines(cd, Added(cd, s.log, q, now, ids))),
                           AnchorBytes(cd, s.log + Added(cd, s.log, q, now, ids)), files, p)
    ensures (exists all :: Verifies(cd, files, all)) <==> files == AppendedFiles(cd, s.files, s.log, q, now, ids) && FreshFor(s.log, q, ids)
    ensures forall all :: !InSync(cd, files, s.writer, all)
  {
    var added := Added(cd, s.log, q, now, ids);
    AppendVerifiesIff(cd, s.files, s.log, q, now, ids);
    forall all ensures !InSync(cd, files, s.writer, all) {
      HalfAppliedWriterIsStuck(cd, s.files, s.log, added, p, files.anchor, all);
    }
    if all :| Verifies(cd, files, all) {
      CrashLeavesOldNewOrError(cd, s.files, s.log, added, p, files.anchor, all);
    }
  }

  lemma AppendFailsDecides(cd: Codec, s: State, step: Step)
    requires CodecOk(cd) && Good(cd, s) && step.AppendFails? && Enabled(cd, s, step)
    ensures Ruins(cd, s, step) ==> !Intact(cd, Next(cd, s, step))
    ensures !Ruins(cd, s, step) ==> Good(cd, Next(cd, s, step))
  {
    var t := Next(cd, s, step);
    assert t.files == step.files && t.writer == s.writer && t.log == s.log;
    if step.files != s.files {
      InterruptionDecides(cd, s, step);
      assert !LeavesTrace(s, step) ==> Verifies(cd, t.files, s.log);
    }
  }

  lemma StepDecides(cd: Codec, s: State, step: Step)
    requires CodecOk(cd) && Good(cd, s) && Enabled(cd, s, step)
    ensures Ruins(cd, s, step) ==> !Intact(cd, Next(cd, s, step))
    ensures !Ruins(cd, s, step) ==> Good(cd, Next(cd, s, step))
  {
    if step.Publish? {
      PublishDecides(cd, s, step);
    } else if step.AppendFails? {
      AppendFailsDecides(cd, s, step);
    } else {
      FilesUntouched(cd, s, step);
    }
  }

  lemma FilesUntouched(cd: Codec, s: State, step: Step)
    requires Enabled(cd, s, step) && !step.Publish? && !step.AppendFails?
    ensures Next(cd, s, step).files == s.files && Next(cd, s, step).writer == s.writer && Next(cd, s, step).log == s.log
  {
  }

  /** Ruined files are never opened and never written again. */
  lemma RuinStays(cd: Codec, s: State, turn: Turn)
    requires !Intact(cd, s) && CanTurn(cd, s, turn)
    ensures !Intact(cd, Turned(cd, s, turn))
  {
    if turn.Works? && !turn.step.Publish? && !turn.step.AppendFails? {
      FilesUntouched(cd, s, turn.step);
    }
  }

  lemma {:induction false} RuinLasts(cd: Codec, s: State, turns: seq<Turn>, t: State)
    requires !Intact(cd, s) && Lives(cd, s, turns, t)
    ensures !Intact(cd, t)
    decreases |turns|
  {
    if |turns| > 0 {
      RuinStays(cd, s, turns[0]);
      RuinLasts(cd, Turned(cd, s, turns[0]), turns[1..], t);
    }
  }

  lemma RestartIsGood(cd: Codec, s: State, events: seq<Event>)
    requires Verifies(cd, s.files, events)
    ensures Good(cd, Turned(cd, s, Restart(events)))
  {
    assert InSync(cd, s.files, Anchor(|events|, Head(SealOf, events)), events);
  }

  /** Over any number of processes and restarts, crashes in the middle of appends included,
      the files verify at the end if and only if nothing on the way ruined them: no request
      was appended that was logged already, and no append was left in part. */
  lemma {:induction false} FilesVerifyIff(cd: Codec, s: State, turns: seq<Turn>, t: State)
    requires CodecOk(cd) && Good(cd, s) && Lives(cd, s, turns, t)
    ensures Intact(cd, t) <==> !SomethingRuins(cd, s, turns, t)
    decreases |turns|
  {
    if |turns| > 0 {
      var n := Turned(cd, s, turns[0]);
      if turns[0].Restart? {
        RestartIsGood(cd, s, turns[0].events);
        FilesVerifyIff(cd, n, turns[1..], t);
      } else {
        StepDecides(cd, s, turns[0].step);
        if Ruins(cd, s, turns[0].step) {
          RuinLasts(cd, n, turns[1..], t);
        } else {
          FilesVerifyIff(cd, n, turns[1..], t);
        }
      }
    }
  }

  /** Such a life starts with no files at all. */
  lemma NothingIsGood(cd: Codec)
    ensures Good(cd, Opened(Files(None, None), Anchor(0, GENESIS), []))
  {
    assert Verifies(cd, Files(None, None), []);
  }
}
