/** The four chronological roles of the development data
    (scripts/run_development_training.py). */
module TimeRoles {
  import opened Wrappers
  import opened SortedReals

  datatype Row = Row(time: real, target: int)

  datatype RoleError = TooFewTimes | RoleWithoutBothClasses(role: nat) | Overlap

  const BLOCKS: nat := 20

  /** The blocks where the roles begin and end: training, calibration, operating point,
      backtest. */
  const CUTS: seq<nat> := [0, 10, 13, 16, 20]

  // ----- Unique times -----

  function Times(frame: seq<Row>): (r: seq<real>)
    ensures |r| == |frame|
  {
    seq(|frame|, i requires 0 <= i < |frame| => frame[i].time)
  }

  /** Repetitions dropped from an ordered list. */
  function Distinct(xs: seq<real>): seq<real>
  {
    if |xs| < 2 then xs
    else if xs[0] == xs[1] then Distinct(xs[1..])
    else [xs[0]] + Distinct(xs[1..])
  }

  /** np.unique */
  function UniqueTimes(frame: seq<Row>): seq<real> { Distinct(Sorted(Times(frame))) }

  predicate Increasing(xs: seq<real>) { forall i, j :: 0 <= i < j < |xs| ==> xs[i] < xs[j] }

  lemma {:induction false} DistinctIncreases(xs: seq<real>)
    requires Ordered(xs)
    ensures Increasing(Distinct(xs)) && (forall x :: x in Distinct(xs) <==> x in xs)
    ensures |xs| > 0 ==> |Distinct(xs)| > 0 && Distinct(xs)[0] == xs[0]
    decreases |xs|
  {
    if |xs| >= 2 {
      DistinctIncreases(xs[1..]);
      assert xs == [xs[0]] + xs[1..];
    }
  }

  lemma UniqueTimesSpec(frame: seq<Row>)
    ensures Increasing(UniqueTimes(frame))
    ensures forall x :: x in UniqueTimes(frame) <==> exists i :: 0 <= i < |frame| && frame[i].time == x
  {
    var times := Times(frame);
    SortedSorts(times);
    DistinctIncreases(Sorted(times));
    forall x ensures x in UniqueTimes(frame) <==> exists i :: 0 <= i < |frame| && frame[i].time == x {
      assert x in Sorted(times) <==> x in multiset(times);
      if i :| 0 <= i < |frame| && frame[i].time == x { assert times[i] == x; }
    }
  }

  // ----- Blocks -----

  /** np.array_split: the first n % 20 blocks are one longer than the others. */
  function BlockSize(n: nat, b: nat): nat { n / BLOCKS + (if b < n % BLOCKS then 1 else 0) }

  /** The sum of the blocks before block `b`. */
  function BlockStart(n: nat, b: nat): nat
  {
    if b == 0 then 0 else BlockStart(n, b - 1) + BlockSize(n, b - 1)
  }

  lemma {:induction false} BlockStartIs(n: nat, b: nat)
    ensures BlockStart(n, b) == b * (n / BLOCKS) + Among(n % BLOCKS, 0, b)
    decreases b
  {
    if b > 0 {
      BlockStartIs(n, b - 1);
      OneMore(b, n / BLOCKS);
    }
  }

  lemma OneMore(b: nat, q: nat)
    requires b > 0
    ensures (b - 1) * q + q == b * q
  {
  }

  /** Of the first `m` blocks, those from block `a` to before block `b`. */
  function Among(m: nat, a: nat, b: nat): nat
    requires a <= b
  {
    if m <= a then 0 else if m >= b then b - a else m - a
  }

  /** The twenty blocks are all the times. */
  lemma BlocksCover(n: nat)
    ensures BlockStart(n, 0) == 0 && BlockStart(n, BLOCKS) == n
  {
    BlockStartIs(n, BLOCKS);
  }

  lemma {:induction false} BlocksGrow(n: nat, a: nat, b: nat)
    requires a <= b <= BLOCKS
    ensures BlockStart(n, a) <= BlockStart(n, b)
    ensures n >= BLOCKS && a < b ==> BlockStart(n, a) < BlockStart(n, b)
    decreases b
  {
    if a < b {
      BlocksGrow(n, a, b - 1);
    }
  }

  lemma BlocksFit(n: nat, b: nat)
    requires b <= BLOCKS
    ensures BlockStart(n, b) <= n
  {
    BlocksGrow(n, b, BLOCKS);
    BlocksCover(n);
  }

  lemma RoleRange(n: nat, role: nat)
    requires role < 4
    ensures BlockStart(n, CUTS[role]) <= BlockStart(n, CUTS[role + 1]) <= n
  {
    BlocksGrow(n, CUTS[role], CUTS[role + 1]);
    BlocksFit(n, CUTS[role + 1]);
  }

  /** A role's blocks, concatenated. */
  function RoleTimes(u: seq<real>, role: nat): seq<real>
    requires role < 4
  {
    RoleRange(|u|, role);
    u[BlockStart(|u|, CUTS[role])..BlockStart(|u|, CUTS[role + 1])]
  }

  /** How many times the roles hold: those of the first ten of twenty blocks, of the next
      three, the next three and the last four, the first n % 20 blocks being one longer. */
  lemma RoleSizes(u: seq<real>)
    ensures var q, m := |u| / 20, |u| % 20;
            && |RoleTimes(u, 0)| == 10 * q + Among(m, 0, 10) && |RoleTimes(u, 1)| == 3 * q + Among(m, 10, 13)
            && |RoleTimes(u, 2)| == 3 * q + Among(m, 13, 16) && |RoleTimes(u, 3)| == 4 * q + Among(m, 16, 20)
  {
    BlockStartIs(|u|, 10);
    BlockStartIs(|u|, 13);
    BlockStartIs(|u|, 16);
    BlockStartIs(|u|, 20);
  }

  /** In order the roles are all the times. */
  lemma RolesAreTheTimes(u: seq<real>)
    ensures RoleTimes(u, 0) + RoleTimes(u, 1) + RoleTimes(u, 2) + RoleTimes(u, 3) == u
  {
    BlocksCover(|u|);
    BlocksGrow(|u|, 10, 13);
    BlocksGrow(|u|, 13, 16);
    BlocksGrow(|u|, 16, 20);
    var a, b, c := BlockStart(|u|, 10), BlockStart(|u|, 13), BlockStart(|u|, 16);
    assert RoleTimes(u, 0) == u[..a] && RoleTimes(u, 1) == u[a..b] && RoleTimes(u, 2) == u[b..c] && RoleTimes(u, 3) == u[c..];
  }

  // ----- Roles -----

  /** np.flatnonzero(frame.Time.isin(times)) over the first n rows. */
  function RowsWith(frame: seq<Row>, times: seq<real>, n: nat): (r: seq<nat>)
    requires n <= |frame|
    ensures forall k :: 0 <= k < |r| ==> r[k] < n && frame[r[k]].time in times
    ensures forall i, j :: 0 <= i < j < |r| ==> r[i] < r[j]
    ensures forall i :: 0 <= i < n && frame[i].time in times ==> i in r
  {
    if n == 0 then []
    else RowsWith(frame, times, n - 1) + (if frame[n - 1].time in times then [n - 1] else [])
  }

  function RoleRows(frame: seq<Row>, role: nat): seq<nat>
    requires role < 4
  {
    RowsWith(frame, RoleTimes(UniqueTimes(frame), role), |frame|)
  }

  function Roles(frame: seq<Row>): (r: seq<seq<nat>>)
    ensures |r| == 4
  {
    seq(4, role requires 0 <= role < 4 => RoleRows(frame, role))
  }

  predicate RowsOf(frame: seq<Row>, rows: seq<nat>) { forall k :: 0 <= k < |rows| ==> rows[k] < |frame| }

  predicate BothClasses(frame: seq<Row>, rows: seq<nat>)
    requires RowsOf(frame, rows)
  {
    && (exists k :: 0 <= k < |rows| && frame[rows[k]].target == 0)
    && (exists k :: 0 <= k < |rows| && frame[rows[k]].target == 1)
    && forall k :: 0 <= k < |rows| ==> frame[rows[k]].target == 0 || frame[rows[k]].target == 1
  }

  lemma InRole(u: seq<real>, role: nat, p: nat)
    requires role < 4 && p < |u| && BlockStart(|u|, CUTS[role]) <= p < BlockStart(|u|, CUTS[role + 1])
    ensures u[p] in RoleTimes(u, role)
  {
    RoleRange(|u|, role);
    assert RoleTimes(u, role)[p - BlockStart(|u|, CUTS[role])] == u[p];
  }

  /** The blocks of the roles leave no gap. */
  lemma RoleOfPosition(n: nat, p: nat) returns (role: nat)
    requires p < n
    ensures role < 4 && BlockStart(n, CUTS[role]) <= p < BlockStart(n, CUTS[role + 1])
  {
    BlocksCover(n);
    role := if p < BlockStart(n, 10) then 0 else if p < BlockStart(n, 13) then 1 else if p < BlockStart(n, 16) then 2 else 3;
  }

  /** The role of the block a time is in. */
  lemma EveryTimeHasARole(u: seq<real>, x: real) returns (role: nat)
    requires x in u
    ensures role < 4 && x in RoleTimes(u, role)
  {
    var p :| 0 <= p < |u| && u[p] == x;
    role := RoleOfPosition(|u|, p);
    InRole(u, role, p);
  }

  lemma PositionOf(u: seq<real>, role: nat, x: real) returns (p: nat)
    requires role < 4 && x in RoleTimes(u, role)
    ensures BlockStart(|u|, CUTS[role]) <= p < BlockStart(|u|, CUTS[role + 1]) && p < |u| && u[p] == x
  {
    RoleRange(|u|, role);
    var i :| 0 <= i < |RoleTimes(u, role)| && RoleTimes(u, role)[i] == x;
    p := BlockStart(|u|, CUTS[role]) + i;
  }

  /** Every time of an earlier role is before every time of a later one. */
  lemma RolesAreChronological(u: seq<real>, a: nat, b: nat, x: real, y: real)
    requires Increasing(u) && a < b < 4 && x in RoleTimes(u, a) && y in RoleTimes(u, b)
    ensures x < y
  {
    BlocksGrow(|u|, CUTS[a + 1], CUTS[b]);
    var i := PositionOf(u, a, x);
    var j := PositionOf(u, b, y);
  }

  /** Every row is in exactly one role, rows of one time in the same. */
  lemma RolesPartitionRows(frame: seq<Row>, i: nat) returns (role: nat)
    requires i < |frame|
    ensures role < 4
    ensures forall other :: 0 <= other < 4 ==> (i in RoleRows(frame, other) <==> other == role)
    ensures forall j :: 0 <= j < |frame| && frame[j].time == frame[i].time ==> j in RoleRows(frame, role)
  {
    var u := UniqueTimes(frame);
    UniqueTimesSpec(frame);
    role := EveryTimeHasARole(u, frame[i].time);
    forall other | 0 <= other < 4 && i in RoleRows(frame, other) ensures other == role {
      var x := frame[i].time;
      assert x in RoleTimes(u, other);
      if other < role { RolesAreChronological(u, other, role, x, x); }
      if role < other { RolesAreChronological(u, role, other, x, x); }
    }
  }

  /** Rows of an earlier role are before rows of a later one. */
  lemma RowsAreChronological(frame: seq<Row>, a: nat, b: nat, i: nat, j: nat)
    requires a < b < 4 && i in RoleRows(frame, a) && j in RoleRows(frame, b)
    ensures i < |frame| && j < |frame| && frame[i].time < frame[j].time
  {
    UniqueTimesSpec(frame);
    RolesAreChronological(UniqueTimes(frame), a, b, frame[i].time, frame[j].time);
  }

  // ----- The split -----

  ghost predicate IsLeast(frame: seq<Row>, rows: seq<nat>, t: real)
    requires RowsOf(frame, rows)
  {
    (exists k :: 0 <= k < |rows| && frame[rows[k]].time == t) && forall k :: 0 <= k < |rows| ==> t <= frame[rows[k]].time
  }

  ghost predicate IsGreatest(frame: seq<Row>, rows: seq<nat>, t: real)
    requires RowsOf(frame, rows)
  {
    (exists k :: 0 <= k < |rows| && frame[rows[k]].time == t) && forall k :: 0 <= k < |rows| ==> frame[rows[k]].time <= t
  }

  function LeastTime(frame: seq<Row>, rows: seq<nat>): (t: real)
    requires |rows| > 0 && RowsOf(frame, rows)
    ensures IsLeast(frame, rows, t)
  {
    var last := frame[rows[|rows| - 1]].time;
    if |rows| == 1 then last
    else
      var rest := LeastTime(frame, rows[..|rows| - 1]);
      if rest < last then rest else last
  }

  function GreatestTime(frame: seq<Row>, rows: seq<nat>): (t: real)
    requires |rows| > 0 && RowsOf(frame, rows)
    ensures IsGreatest(frame, rows, t)
  {
    var last := frame[rows[|rows| - 1]].time;
    if |rows| == 1 then last
    else
      var rest := GreatestTime(frame, rows[..|rows| - 1]);
      if rest > last then rest else last
  }

  ghost predicate HasTime(frame: seq<Row>, rows: seq<nat>, t: real)
  {
    exists i :: i in rows && i < |frame| && frame[i].time == t
  }

  /** Rows of the frame, those of an earlier role before those of a later one. */
  ghost predicate Chronological(frame: seq<Row>, roles: seq<seq<nat>>)
  {
    && (forall role :: 0 <= role < |roles| ==> RowsOf(frame, roles[role]))
    && (forall a, b, i, j :: 0 <= a < b < |roles| && i in roles[a] && j in roles[b] && i < |frame| && j < |frame| ==>
          frame[i].time < frame[j].time)
  }

  lemma RolesChronological(frame: seq<Row>)
    ensures Chronological(frame, Roles(frame))
  {
    forall a, b, i, j | 0 <= a < b < 4 && i in Roles(frame)[a] && j in Roles(frame)[b] && i < |frame| && j < |frame|
      ensures frame[i].time < frame[j].time
    {
      RowsAreChronological(frame, a, b, i, j);
    }
  }

  lemma TimesOf(frame: seq<Row>, rows: seq<nat>)
    requires |rows| > 0 && RowsOf(frame, rows)
    ensures HasTime(frame, rows, LeastTime(frame, rows)) && HasTime(frame, rows, GreatestTime(frame, rows))
  {
  }

  lemma BoundariesApart(frame: seq<Row>, roles: seq<seq<nat>>, role: nat, x: real, y: real)
    requires Chronological(frame, roles) && 0 < role < |roles|
    requires HasTime(frame, roles[role - 1], x) && HasTime(frame, roles[role], y)
    ensures x < y
  {
  }

  /** The loop over the roles, in their order. */
  method CheckRoles(frame: seq<Row>, roles: seq<seq<nat>>) returns (r: Result<(), RoleError>)
    requires Chronological(frame, roles)
    ensures r.Ok? <==> forall k :: 0 <= k < |roles| ==> BothClasses(frame, roles[k])
    ensures r.Err? ==> r.error.RoleWithoutBothClasses? && r.error.role < |roles| && !BothClasses(frame, roles[r.error.role])
                       && forall k :: 0 <= k < r.error.role ==> BothClasses(frame, roles[k])
  {
    var previousMax: Option<real> := None;
    for role := 0 to |roles|
      invariant forall k :: 0 <= k < role ==> BothClasses(frame, roles[k])
      invariant previousMax.Some? <==> role > 0
      invariant role > 0 ==> HasTime(frame, roles[role - 1], previousMax.value)
    {
      var indices := roles[role];
      if !BothClasses(frame, indices) {
        return Err(RoleWithoutBothClasses(role));
      }
      var currentMin := LeastTime(frame, indices);
      var currentMax := GreatestTime(frame, indices);
      TimesOf(frame, indices);
      if role > 0 { BoundariesApart(frame, roles, role, previousMax.value, currentMin); }
      if previousMax.Some? && currentMin <= previousMax.value {
        return Err(Overlap);
      }
      previousMax := Some(currentMax);
    }
    r := Ok(());
  }

  /** `_time_roles`.  The error for overlapping boundaries is never returned. */
  method TimeRoles(frame: seq<Row>) returns (r: Result<seq<seq<nat>>, RoleError>)
    ensures r.Ok? <==> |UniqueTimes(frame)| >= BLOCKS && forall k :: 0 <= k < 4 ==> BothClasses(frame, Roles(frame)[k])
    ensures r.Ok? ==> r.value == Roles(frame)
    ensures r == Err(TooFewTimes) <==> |UniqueTimes(frame)| < BLOCKS
    ensures r.Err? && r.error.RoleWithoutBothClasses? ==>
              r.error.role < 4 && !BothClasses(frame, Roles(frame)[r.error.role])
              && forall k :: 0 <= k < r.error.role ==> BothClasses(frame, Roles(frame)[k])
    ensures r.Err? ==> !r.error.Overlap?
  {
    if |UniqueTimes(frame)| < BLOCKS {
      return Err(TooFewTimes);
    }
    var roles := Roles(frame);
    RolesChronological(frame);
    var checked := CheckRoles(frame, roles);
    r := match checked case Ok(_) => Ok(roles) case Err(e) => Err(e);
  }
}
