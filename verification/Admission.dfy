/** Admission control of scoring work (api/main.py): a counter of slots, and workers that
    keep theirs until they have finished, whatever becomes of the waiting client. */
module Admission {
  import opened Sets
  import opened Wrappers

  // ----- The gate -----

  datatype Gate = Gate(limit: int, inFlight: int)

  function Acquired(g: Gate): (Gate, bool)
  {
    if g.inFlight >= g.limit then (g, false) else (g.(inFlight := g.inFlight + 1), true)
  }

  function Freed(g: Gate): Gate
  {
    g.(inFlight := if g.inFlight - 1 > 0 then g.inFlight - 1 else 0)
  }

  datatype GateError = LimitTooSmall

  class ConcurrencyGate {
    const limit: int
    var inFlight: int

    constructor (limit: int)
      ensures Value() == Gate(limit, 0)
    {
      this.limit, inFlight := limit, 0;
    }

    function Value(): Gate
      reads this
    {
      Gate(limit, inFlight)
    }

    static method Create(limit: int) returns (r: Result<ConcurrencyGate, GateError>)
      ensures r.Ok? <==> limit >= 1
      ensures r.Ok? ==> fresh(r.value) && r.value.Value() == Gate(limit, 0)
    {
      if limit < 1 {
        return Err(LimitTooSmall);
      }
      var gate := new ConcurrencyGate(limit);
      r := Ok(gate);
    }

    method TryAcquire() returns (ok: bool)
      modifies this`inFlight
      ensures (Value(), ok) == Acquired(old(Value()))
      ensures old(inFlight) <= limit ==> inFlight <= limit
    {
      if inFlight >= limit {
        return false;
      }
      inFlight := inFlight + 1;
      return true;
    }

    method Release()
      modifies this`inFlight
      ensures Value() == Freed(old(Value()))
      ensures 0 <= inFlight && (old(inFlight) >= 0 ==> inFlight <= old(inFlight))
    {
      inFlight := inFlight - 1;
      if inFlight < 0 { inFlight := 0; }
    }
  }

  // ----- Admitted work -----

  type AttemptId = nat

  /** The request's own coroutine. */
  datatype Client =
    | Refused          // capacity exceeded
    | Admitted         // slot taken, no worker yet
    | NoTask           // the task could not be created
    | Awaiting
    | Left             // timed out or cancelled; the worker is shielded
    | Answered

  datatype Worker = NoWorker | Running | Finished | CallbackRan

  datatype Attempt = Attempt(client: Client, worker: Worker)

  /** `acquires` and `releases` (how often each attempt took and gave back a slot) are
      history. */
  datatype State = State(gate: Gate, attempts: map<AttemptId, Attempt>, acquires: multiset<AttemptId>, releases: multiset<AttemptId>)

  datatype Step =
    | Enter(a: AttemptId)
    | CreateTask(a: AttemptId)
    | CreateTaskFails(a: AttemptId)
    | WorkerFinishes(a: AttemptId)
    | DoneCallback(a: AttemptId)
    | ClientLeaves(a: AttemptId)
    | ClientIsAnswered(a: AttemptId)

  predicate Enabled(s: State, step: Step)
  {
    match step
    case Enter(a) => a !in s.attempts
    case CreateTask(a) => a in s.attempts && s.attempts[a].client.Admitted?
    case CreateTaskFails(a) => a in s.attempts && s.attempts[a].client.Admitted?
    case WorkerFinishes(a) => a in s.attempts && s.attempts[a].worker.Running?
    case DoneCallback(a) => a in s.attempts && s.attempts[a].worker.Finished?
    case ClientLeaves(a) => a in s.attempts && s.attempts[a].client.Awaiting?
    case ClientIsAnswered(a) =>
      a in s.attempts && s.attempts[a].client.Awaiting? && (s.attempts[a].worker.Finished? || s.attempts[a].worker.CallbackRan?)
  }

  function Set(s: State, a: AttemptId, x: Attempt): State { s.(attempts := s.attempts[a := x]) }

  function Next(s: State, step: Step): State
    requires Enabled(s, step)
  {
    var a := step.a;
    match step
    case Enter(_) =>
      var (gate, ok) := Acquired(s.gate);
      if ok then Set(s, a, Attempt(Admitted, NoWorker)).(gate := gate, acquires := s.acquires + multiset{a})
      else Set(s, a, Attempt(Refused, NoWorker))
    case CreateTask(_) => Set(s, a, Attempt(Awaiting, Running))
    case CreateTaskFails(_) =>
      Set(s, a, Attempt(NoTask, NoWorker)).(gate := Freed(s.gate), releases := s.releases + multiset{a})
    case WorkerFinishes(_) => Set(s, a, s.attempts[a].(worker := Finished))
    case DoneCallback(_) =>
      Set(s, a, s.attempts[a].(worker := CallbackRan)).(gate := Freed(s.gate), releases := s.releases + multiset{a})
    case ClientLeaves(_) => Set(s, a, s.attempts[a].(client := Left))
    case ClientIsAnswered(_) => Set(s, a, s.attempts[a].(client := Answered))
  }

  predicate Runs(s: State, steps: seq<Step>, t: State)
    decreases |steps|
  {
    if |steps| == 0 then s == t else Enabled(s, steps[0]) && Runs(Next(s, steps[0]), steps[1..], t)
  }

  // ----- Conservation -----

  /** The attempt has a slot: admitted, and its worker (if any) has not been released. */
  predicate Holds(x: Attempt) { x.client.Admitted? || x.worker.Running? || x.worker.Finished? }

  function Holders(s: State): set<AttemptId>
  {
    set a | a in s.attempts && Holds(s.attempts[a])
  }

  /** A worker exists from the creation of the task on, and no answer comes before it has
      finished. */
  predicate ShapeOk(x: Attempt)
  {
    && (x.worker.NoWorker? <==> x.client.Refused? || x.client.Admitted? || x.client.NoTask?)
    && (x.client.Answered? ==> x.worker.Finished? || x.worker.CallbackRan?)
  }

  predicate SlotsOk(s: State, a: AttemptId)
  {
    if a !in s.attempts then s.acquires[a] == 0 && s.releases[a] == 0
    else
      var x := s.attempts[a];
      && ShapeOk(x)
      && s.acquires[a] == (if x.client.Refused? then 0 else 1)
      && s.releases[a] == (if x.client.NoTask? || x.worker.CallbackRan? then 1 else 0)
  }

  ghost predicate Inv(s: State)
  {
    && s.gate.inFlight == |Holders(s)| <= s.gate.limit
    && forall a :: SlotsOk(s, a)
  }

  /** One attempt changed: the holders change by at most that attempt. */
  lemma HoldersChange(s: State, t: State, a: AttemptId, x: Attempt)
    requires t.attempts == s.attempts[a := x]
    ensures Holders(t) == if Holds(x) then Holders(s) + {a} else Holders(s) - {a}
  {
  }

  /** No step releases a slot nobody holds, so the clamp at zero never acts. */
  lemma ClampNeverActs(s: State, step: Step)
    requires Inv(s) && Enabled(s, step) && (step.CreateTaskFails? || step.DoneCallback?)
    ensures s.gate.inFlight >= 1 && Freed(s.gate).inFlight == s.gate.inFlight - 1
  {
    assert step.a in Holders(s);
  }

  lemma StepKeepsInv(s: State, step: Step)
    requires Inv(s) && Enabled(s, step)
    ensures Inv(Next(s, step)) && Next(s, step).gate.limit == s.gate.limit
  {
    var t := Next(s, step);
    HoldersChange(s, t, step.a, t.attempts[step.a]);
    assert SlotsOk(s, step.a);
    if step.CreateTaskFails? || step.DoneCallback? {
      ClampNeverActs(s, step);
    }
    forall a ensures SlotsOk(t, a) { assert SlotsOk(s, a); }
  }

  lemma {:induction false} RunKeepsInv(s: State, steps: seq<Step>, t: State)
    requires Inv(s) && Runs(s, steps, t)
    ensures Inv(t) && t.gate.limit == s.gate.limit
    decreases |steps|
  {
    if |steps| > 0 {
      StepKeepsInv(s, steps[0]);
      RunKeepsInv(Next(s, steps[0]), steps[1..], t);
    }
  }

  function Initial(limit: int): State { State(Gate(limit, 0), map[], multiset{}, multiset{}) }

  lemma InitialInv(limit: int)
    requires limit >= 1
    ensures Inv(Initial(limit))
  {
    assert Holders(Initial(limit)) == {};
  }

  /** At every moment of every run the counter is the number of attempts with a slot, and
      within the limit; so at most that many workers run at once. */
  lemma InFlightCountsHolders(limit: int, steps: seq<Step>, t: State, running: set<AttemptId>)
    requires limit >= 1 && Runs(Initial(limit), steps, t)
    requires running == set a | a in t.attempts && t.attempts[a].worker.Running?
    ensures t.gate.inFlight == |Holders(t)| <= limit
    ensures |running| <= limit
  {
    InitialInv(limit);
    RunKeepsInv(Initial(limit), steps, t);
    SubsetSize(running, Holders(t));
  }

  /** Every slot taken is given back at most once, only by an attempt that took one, and
      never while its worker is still at work; once neither a task is about to be created
      nor a worker or callback is outstanding it has been given back. */
  lemma SlotReleasedExactlyOnce(limit: int, steps: seq<Step>, t: State, a: AttemptId)
    requires limit >= 1 && Runs(Initial(limit), steps, t)
    ensures t.releases[a] <= t.acquires[a] <= 1
    ensures a in t.attempts && t.attempts[a].worker.Running? ==> t.releases[a] == 0 && t.acquires[a] == 1
    ensures t.releases[a] == t.acquires[a] <==> a !in t.attempts || !Holds(t.attempts[a])
  {
    InitialInv(limit);
    RunKeepsInv(Initial(limit), steps, t);
    assert SlotsOk(t, a);
  }

  /** A request is refused if and only if as many attempts as the limit hold slots. */
  lemma RefusedIffFull(limit: int, steps: seq<Step>, t: State, a: AttemptId)
    requires limit >= 1 && Runs(Initial(limit), steps, t) && a !in t.attempts
    ensures Next(t, Enter(a)).attempts[a].client.Refused? <==> |Holders(t)| == limit
  {
    InitialInv(limit);
    RunKeepsInv(Initial(limit), steps, t);
  }

  /** When every worker has finished and every callback has run the gate is empty again. */
  lemma QuietGateIsEmpty(limit: int, steps: seq<Step>, t: State)
    requires limit >= 1 && Runs(Initial(limit), steps, t)
    requires forall a :: a in t.attempts ==> !t.attempts[a].client.Admitted? && (t.attempts[a].worker.NoWorker? || t.attempts[a].worker.CallbackRan?)
    ensures t.gate.inFlight == 0
  {
    InitialInv(limit);
    RunKeepsInv(Initial(limit), steps, t);
    assert Holders(t) == {};
  }

  // ----- Nothing is stuck -----

  lemma RunOne(s: State, step: Step, steps: seq<Step>, t: State)
    requires Enabled(s, step) && Runs(Next(s, step), steps, t)
    ensures Runs(s, [step] + steps, t)
  {
    assert ([step] + steps)[1..] == steps;
  }

  /** The next step with which an attempt comes to give its slot back. */
  function GivesBack(s: State, a: AttemptId): Step
    requires a in Holders(s)
  {
    if s.attempts[a].client.Admitted? then CreateTaskFails(a)
    else if s.attempts[a].worker.Running? then WorkerFinishes(a)
    else DoneCallback(a)
  }

  /** How many such steps the attempts need: two for each running worker, one for each
      other holder. */
  function Outstanding(s: State): nat { |Holders(s)| + |RunningIn(s)| }

  function RunningIn(s: State): set<AttemptId> { set a | a in s.attempts && s.attempts[a].worker.Running? }

  lemma GivingBackCounts(s: State, a: AttemptId)
    requires Inv(s) && a in Holders(s)
    ensures Enabled(s, GivesBack(s, a)) && Outstanding(Next(s, GivesBack(s, a))) == Outstanding(s) - 1
  {
    assert SlotsOk(s, a);
    var t := Next(s, GivesBack(s, a));
    HoldersChange(s, t, a, t.attempts[a]);
    assert RunningIn(t) == RunningIn(s) - {a};
    assert a in RunningIn(s) <==> s.attempts[a].worker.Running?;
  }

  predicate NobodyEnters(steps: seq<Step>) { forall i :: 0 <= i < |steps| ==> !steps[i].Enter? }

  lemma {:induction false} CanDrain(s: State) returns (steps: seq<Step>, t: State)
    requires Inv(s)
    ensures Runs(s, steps, t) && NobodyEnters(steps) && t.gate.inFlight == 0 && t.attempts.Keys == s.attempts.Keys
    ensures Inv(t) && t.gate.limit == s.gate.limit
    decreases Outstanding(s)
  {
    if Holders(s) == {} {
      steps, t := [], s;
    } else {
      var a :| a in Holders(s);
      var step := GivesBack(s, a);
      GivingBackCounts(s, a);
      StepKeepsInv(s, step);
      var more;
      more, t := CanDrain(Next(s, step));
      RunOne(s, step, more, t);
      steps := [step] + more;
    }
  }

  /** With a free slot a request is admitted, and when its worker has finished it is
      answered; its slot is given back by the callback. */
  lemma FreeSlotAnswers(s: State, a: AttemptId) returns (t: State)
    requires a !in s.attempts && 0 <= s.gate.inFlight < s.gate.limit
    ensures Runs(s, [Enter(a), CreateTask(a), WorkerFinishes(a), ClientIsAnswered(a), DoneCallback(a)], t)
    ensures t.attempts == s.attempts[a := Attempt(Answered, CallbackRan)] && t.gate == s.gate
  {
    var s1 := Next(s, Enter(a));
    var s2 := Next(s1, CreateTask(a));
    var s3 := Next(s2, WorkerFinishes(a));
    var s4 := Next(s3, ClientIsAnswered(a));
    t := Next(s4, DoneCallback(a));
    assert Runs(t, [], t);
    RunOne(s4, DoneCallback(a), [], t);
    RunOne(s3, ClientIsAnswered(a), [DoneCallback(a)], t);
    RunOne(s2, WorkerFinishes(a), [ClientIsAnswered(a), DoneCallback(a)], t);
    RunOne(s1, CreateTask(a), [WorkerFinishes(a), ClientIsAnswered(a), DoneCallback(a)], t);
    RunOne(s, Enter(a), [CreateTask(a), WorkerFinishes(a), ClientIsAnswered(a), DoneCallback(a)], t);
  }

  /** No slot leaks: from every moment of every run the attempts there are can give all
      slots back, whatever has become of their clients, and then a new request is answered. */
  lemma AlwaysAnswersAgain(limit: int, steps: seq<Step>, s: State, a: AttemptId) returns (drain: seq<Step>, t: State, u: State)
    requires limit >= 1 && Runs(Initial(limit), steps, s) && a !in s.attempts
    ensures Runs(s, drain, t) && NobodyEnters(drain) && t.gate == Gate(limit, 0)
    ensures Runs(t, [Enter(a), CreateTask(a), WorkerFinishes(a), ClientIsAnswered(a), DoneCallback(a)], u)
    ensures a in u.attempts && u.attempts[a].client.Answered? && u.gate == Gate(limit, 0)
  {
    InitialInv(limit);
    RunKeepsInv(Initial(limit), steps, s);
    drain, t := CanDrain(s);
    u := FreeSlotAnswers(t, a);
  }
}
