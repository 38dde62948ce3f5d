/** The processes below an API process (scripts/run_p1_scale_benchmark.py): a set grown by
    passes over a process listing until a pass adds nothing. */
module Descendants {
  import opened Wrappers

  type Pid = int

  datatype Process = Process(ppid: Pid, command: string)

  /** A chain of parents through listed processes, from `chain[0]` up to the root. */
  predicate Chain(rows: map<Pid, Process>, root: Pid, chain: seq<Pid>)
  {
    && |chain| > 0 && chain[|chain| - 1] == root
    && forall i :: 0 <= i < |chain| - 1 ==> chain[i] in rows && rows[chain[i]].ppid == chain[i + 1]
  }

  ghost predicate Descends(rows: map<Pid, Process>, root: Pid, p: Pid)
  {
    exists chain: seq<Pid> :: Chain(rows, root, chain) && chain[0] == p
  }

  /** Contains the root, and every listed child of a member. */
  ghost predicate Closed(rows: map<Pid, Process>, root: Pid, members: set<Pid>)
  {
    root in members && forall p :: p in rows && rows[p].ppid in members ==> p in members
  }

  lemma ChildDescends(rows: map<Pid, Process>, root: Pid, p: Pid)
    requires p in rows && Descends(rows, root, rows[p].ppid)
    ensures Descends(rows, root, p)
  {
    var chain: seq<Pid> :| Chain(rows, root, chain) && chain[0] == rows[p].ppid;
    assert Chain(rows, root, [p] + chain) && ([p] + chain)[0] == p;
  }

  /** A closed set contains the start of every chain. */
  lemma {:induction false} ClosedContainsChain(rows: map<Pid, Process>, root: Pid, members: set<Pid>, chain: seq<Pid>)
    requires Closed(rows, root, members) && Chain(rows, root, chain)
    ensures chain[0] in members
    decreases |chain|
  {
    if |chain| > 1 {
      assert Chain(rows, root, chain[1..]);
      ClosedContainsChain(rows, root, members, chain[1..]);
      var p := chain[0];
      assert p in rows && rows[p].ppid == chain[1] == chain[1..][0];
    }
  }

  lemma ClosedContainsDescendants(rows: map<Pid, Process>, root: Pid, members: set<Pid>)
    requires Closed(rows, root, members)
    ensures forall p :: Descends(rows, root, p) ==> p in members
  {
    forall p | Descends(rows, root, p) ensures p in members {
      var chain: seq<Pid> :| Chain(rows, root, chain) && chain[0] == p;
      ClosedContainsChain(rows, root, members, chain);
    }
  }

  /** The descendants are the least closed set. */
  lemma DescendantsAreLeast(rows: map<Pid, Process>, root: Pid, descendants: set<Pid>, members: set<Pid>)
    requires forall p :: p in descendants <==> Descends(rows, root, p)
    requires Closed(rows, root, members)
    ensures Closed(rows, root, descendants) && descendants <= members
  {
    assert Chain(rows, root, [root]) && [root][0] == root;
    forall p | p in rows && rows[p].ppid in descendants ensures p in descendants { ChildDescends(rows, root, p); }
    ClosedContainsDescendants(rows, root, members);
    forall p | p in descendants ensures p in members { assert Descends(rows, root, p); }
  }

  lemma MissingShrinks(keys: set<Pid>, members: set<Pid>, p: Pid)
    requires p in keys && p !in members
    ensures |keys - (members + {p})| < |keys - members|
  {
    assert keys - (members + {p}) == (keys - members) - {p};
  }

  ghost predicate AllDescend(rows: map<Pid, Process>, root: Pid, members: set<Pid>)
  {
    forall p :: p in members ==> Descends(rows, root, p)
  }

  lemma RootDescends(rows: map<Pid, Process>, root: Pid)
    ensures AllDescend(rows, root, {root})
  {
    assert Chain(rows, root, [root]) && [root][0] == root;
  }

  lemma ChildJoins(rows: map<Pid, Process>, root: Pid, selected: set<Pid>, p: Pid)
    requires AllDescend(rows, root, selected)
    requires p in rows && rows[p].ppid in selected && p !in selected
    ensures AllDescend(rows, root, selected + {p})
    ensures |rows.Keys - (selected + {p})| < |rows.Keys - selected|
  {
    ChildDescends(rows, root, p);
    MissingShrinks(rows.Keys, selected, p);
  }

  /** The first `n` processes of the listing gave nothing new. */
  ghost predicate NothingNew(rows: map<Pid, Process>, order: seq<Pid>, n: nat, selected: set<Pid>)
    requires n <= |order|
  {
    forall k :: 0 <= k < n ==> order[k] in rows && (rows[order[k]].ppid in selected ==> order[k] in selected)
  }

  lemma NothingNewIsClosed(rows: map<Pid, Process>, root: Pid, order: seq<Pid>, selected: set<Pid>)
    requires (forall p :: p in order <==> p in rows) && root in selected && NothingNew(rows, order, |order|, selected)
    ensures Closed(rows, root, selected)
  {
    forall p | p in rows && rows[p].ppid in selected ensures p in selected {
      assert p in order;
      var k :| 0 <= k < |order| && order[k] == p;
    }
  }

  /** The `changed` loop.  `order` is the iteration order of the dictionary; the result
      does not depend on it. */
  method Closure(root: Pid, rows: map<Pid, Process>, order: seq<Pid>) returns (selected: set<Pid>)
    requires forall p :: p in order <==> p in rows
    ensures forall p :: p in selected <==> Descends(rows, root, p)
  {
    selected := {root};
    RootDescends(rows, root);
    var changed := true;
    while changed
      invariant root in selected
      invariant AllDescend(rows, root, selected)
      invariant !changed ==> Closed(rows, root, selected)
      decreases |rows.Keys - selected|, if changed then 1 else 0
    {
      changed := false;
      ghost var before := |rows.Keys - selected|;
      for i := 0 to |order|
        invariant root in selected
        invariant AllDescend(rows, root, selected)
        invariant |rows.Keys - selected| <= before
        invariant if changed then |rows.Keys - selected| < before else NothingNew(rows, order, i, selected)
      {
        var pid := order[i];
        assert pid in rows;
        if rows[pid].ppid in selected && pid !in selected {
          ChildJoins(rows, root, selected, pid);
          selected := selected + {pid};
          changed := true;
        }
      }
      if !changed { NothingNewIsClosed(rows, root, order, selected); }
    }
    ClosedContainsDescendants(rows, root, selected);
  }

  // ----- Counting workers -----

  predicate Contains(text: string, part: string)
  {
    exists i :: 0 <= i <= |text| - |part| && part <= text[i..]
  }

  predicate IsWorker(command: string)
  {
    Contains(command, "multiprocessing.spawn") && !Contains(command, "resource_tracker")
  }

  datatype BenchmarkError = NotRunning | WrongWorkerCount

  /** `_verify_worker_count`: with several workers, exactly that many worker processes
      must descend from the API process. */
  method VerifyWorkerCount(root: Pid, running: bool, workers: int, rows: map<Pid, Process>, order: seq<Pid>)
    returns (r: Result<(), BenchmarkError>, ghost children: set<Pid>)
    requires forall p :: p in order <==> p in rows
    ensures workers == 1 ==> (r.Ok? <==> running)
    ensures workers != 1 ==> (r.Ok? <==> |children| == workers)
    ensures workers != 1 ==> forall p :: p in children <==> p in rows && Descends(rows, root, p) && IsWorker(rows[p].command)
  {
    if workers == 1 {
      return if running then Ok(()) else Err(NotRunning), {};
    }
    var descendants := Closure(root, rows, order);
    var found := set p | p in descendants && p in rows && IsWorker(rows[p].command);
    children := found;
    r := if |found| != workers then Err(WrongWorkerCount) else Ok(());
  }
}
