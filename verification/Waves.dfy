/** Grouping tasks into waves: each wave holds what depends only on earlier waves. */
module Waves {
  import opened Sequences
  import opened Wrappers

  datatype Task = Task(id: nat, dependsOn: seq<nat>)

  predicate IsReady(t: Task, completed: set<nat>) {
    forall d | d in t.dependsOn :: d in completed
  }

  function Ready(ts: seq<Task>, completed: set<nat>): seq<Task> {
    if ts == [] then []
    else Ready(ts[..|ts| - 1], completed) + (if IsReady(ts[|ts| - 1], completed) then [ts[|ts| - 1]] else [])
  }

  function Waiting(ts: seq<Task>, completed: set<nat>): seq<Task> {
    if ts == [] then []
    else (if IsReady(ts[0], completed) then [] else [ts[0]]) + Waiting(ts[1..], completed)
  }

  function Splice(ts: seq<Task>, i: nat): seq<Task>
    requires i < |ts|
  {
    ts[..i] + ts[i + 1..]
  }

  function Ids(ts: seq<Task>): set<nat> {
    set t | t in ts :: t.id
  }

  function Flat(waves: seq<seq<Task>>): seq<Task> {
    if waves == [] then [] else Flat(waves[..|waves| - 1]) + waves[|waves| - 1]
  }

  // ----- What a grouping must satisfy ---------------------------------------------------------------

  /** Every task waits for the waves before its own, and could not have gone one wave earlier. */
  predicate Earliest(waves: seq<seq<Task>>) {
    forall w | 0 <= w < |waves| :: forall t | t in waves[w] :: InPlace(t, waves, w)
  }

  predicate InPlace(t: Task, waves: seq<seq<Task>>, w: nat)
    requires w <= |waves|
  {
    IsReady(t, Ids(Flat(waves[..w]))) && (w > 0 ==> !IsReady(t, Ids(Flat(waves[..w - 1]))))
  }

  predicate NonEmpty(waves: seq<seq<Task>>) {
    forall w | 0 <= w < |waves| :: waves[w] != []
  }

  /** Each task of the set waits for an id that is unknown or belongs to tasks of the set only. */
  predicate Stuck(s: set<Task>, tasks: seq<Task>) {
    s != {} && (forall t | t in s :: t in tasks)
    && forall t | t in s :: exists d | d in t.dependsOn :: OnlyIn(d, s, tasks)
  }

  predicate OnlyIn(id: nat, s: set<Task>, tasks: seq<Task>) {
    forall u | u in tasks :: u.id == id ==> u in s
  }

  // ----- Filters --------------------------------------------------------------------------------------

  lemma {:induction false} ReadyOnly(ts: seq<Task>, completed: set<nat>)
    ensures forall t :: t in Ready(ts, completed) <==> t in ts && IsReady(t, completed)
  {
    if ts != [] {
      ReadyOnly(ts[..|ts| - 1], completed);
      assert ts == ts[..|ts| - 1] + [ts[|ts| - 1]];
    }
  }

  lemma {:induction false} WaitingOnly(ts: seq<Task>, completed: set<nat>)
    ensures forall t :: t in Waiting(ts, completed) <==> t in ts && !IsReady(t, completed)
    ensures |Waiting(ts, completed)| <= |ts|
  {
    if ts != [] {
      WaitingOnly(ts[1..], completed);
      assert ts == [ts[0]] + ts[1..];
    }
  }

  lemma {:induction false} ReadyHead(t: Task, ts: seq<Task>, completed: set<nat>)
    ensures Ready([t] + ts, completed) == (if IsReady(t, completed) then [t] else []) + Ready(ts, completed)
  {
    var all := [t] + ts;
    if ts == [] {
      assert all == [t] && all[..0] == [];
    } else {
      ReadyHead(t, ts[..|ts| - 1], completed);
      assert all[..|all| - 1] == [t] + ts[..|ts| - 1];
    }
  }

  /** Ready and waiting tasks together are the tasks. */
  predicate SharedOut(ts: seq<Task>, completed: set<nat>) {
    multiset(Ready(ts, completed)) + multiset(Waiting(ts, completed)) == multiset(ts)
  }

  lemma {:induction false} FiltersSplit(ts: seq<Task>, completed: set<nat>)
    ensures SharedOut(ts, completed)
  {
    if ts != [] {
      FiltersSplit(ts[1..], completed);
      SplitHead(ts[0], ts[1..], completed);
      assert [ts[0]] + ts[1..] == ts;
    }
  }

  lemma SplitHead(t: Task, ts: seq<Task>, completed: set<nat>)
    requires SharedOut(ts, completed)
    ensures SharedOut([t] + ts, completed)
  {
    ReadyHead(t, ts, completed);
    assert ([t] + ts)[1..] == ts;
  }

  lemma {:induction false} WaitingKeeps(ts: seq<Task>, completed: set<nat>)
    requires forall t | t in ts :: !IsReady(t, completed)
    ensures Waiting(ts, completed) == ts
  {
    if ts != [] {
      WaitingKeeps(ts[1..], completed);
    }
  }

  lemma {:induction false} WaitingSplit(a: seq<Task>, b: seq<Task>, completed: set<nat>)
    ensures Waiting(a + b, completed) == Waiting(a, completed) + Waiting(b, completed)
  {
    if a == [] {
      assert a + b == b;
    } else {
      WaitingSplit(a[1..], b, completed);
      var head := if IsReady(a[0], completed) then [] else [a[0]];
      assert (a + b)[1..] == a[1..] + b && (a + b)[0] == a[0];
      assert Waiting(a + b, completed) == head + Waiting(a[1..] + b, completed);
      assert Waiting(a, completed) == head + Waiting(a[1..], completed);
      Regroup(head, Waiting(a[1..], completed), Waiting(b, completed));
    }
  }

  // ----- Waves ------------------------------------------------------------------------------------------

  lemma FlatSnoc(waves: seq<seq<Task>>, wave: seq<Task>)
    ensures Flat(waves + [wave]) == Flat(waves) + wave
  {
    assert (waves + [wave])[..|waves|] == waves;
  }

  lemma {:induction false} FlatHas(waves: seq<seq<Task>>, t: Task)
    ensures t in Flat(waves) <==> exists w | 0 <= w < |waves| :: t in waves[w]
  {
    if waves != [] {
      var n := |waves| - 1;
      FlatHas(waves[..n], t);
      assert waves == waves[..n] + [waves[n]];
    }
  }

  lemma EarliestSnoc(waves: seq<seq<Task>>, wave: seq<Task>)
    requires Earliest(waves) && forall t | t in wave :: InPlace(t, waves, |waves|)
    ensures Earliest(waves + [wave])
  {
    var more := waves + [wave];
    forall w, t | 0 <= w < |more| && t in more[w] ensures InPlace(t, more, w) {
      assert more[..w] == waves[..w];
      if w > 0 {
        assert more[..w - 1] == waves[..w - 1];
      }
      if w < |waves| {
        assert InPlace(t, waves, w);
      }
    }
  }

  /** No task of a stuck set is ready while the whole set is still waiting. */
  lemma StuckWaits(s: set<Task>, tasks: seq<Task>, done: seq<Task>, t: Task)
    requires Stuck(s, tasks) && t in s
    requires forall u | u in done :: u in tasks && u !in s
    ensures !IsReady(t, Ids(done))
  {
    var d :| d in t.dependsOn && OnlyIn(d, s, tasks);
    assert d !in Ids(done);
  }

  // ----- The algorithm ------------------------------------------------------------------------------------

  predicate Ascending(indices: seq<nat>) {
    forall i, j | 0 <= i < j < |indices| :: indices[i] < indices[j]
  }

  predicate AllReady(indices: seq<nat>, ts: seq<Task>, n: nat, completed: set<nat>)
    requires n <= |ts|
  {
    forall i | 0 <= i < |indices| :: indices[i] < n && IsReady(ts[indices[i]], completed)
  }

  predicate AllListed(indices: seq<nat>, ts: seq<Task>, n: nat, completed: set<nat>)
    requires n <= |ts|
  {
    forall k | 0 <= k < n :: IsReady(ts[k], completed) ==> k in indices
  }

  /** The indices are ascending and are those of the ready tasks. */
  predicate Chosen(indices: seq<nat>, ts: seq<Task>, n: nat, completed: set<nat>)
    requires n <= |ts|
  {
    AllReady(indices, ts, n, completed) && Ascending(indices) && AllListed(indices, ts, n, completed)
  }

  /** Splicing at descending indices removes exactly the chosen tasks. */
  method SpliceAll(remaining: seq<Task>, indices: seq<nat>, completed: set<nat>) returns (rest: seq<Task>)
    requires Chosen(indices, remaining, |remaining|, completed)
    ensures rest == Waiting(remaining, completed)
  {
    rest := remaining;
    var j := |indices|;
    ghost var b := |remaining|;
    assert remaining[b..] == [];
    while j > 0
      invariant 0 <= j <= |indices|
      invariant b == (if j == |indices| then |remaining| else indices[j]) && b <= |remaining|
      invariant rest == remaining[..b] + Waiting(remaining[b..], completed)
    {
      j := j - 1;
      var i := indices[j];
      GapWaits(remaining, indices, completed, j, i, b);
      rest := Splice(rest, i);
      SpliceStep(remaining, completed, i, b);
      b := i;
    }
    HeadWaits(remaining, indices, completed, b);
    WaitingSplit(remaining[..b], remaining[b..], completed);
    assert remaining == remaining[..b] + remaining[b..];
  }

  lemma GapWaits(ts: seq<Task>, indices: seq<nat>, completed: set<nat>, j: nat, i: nat, b: nat)
    requires Chosen(indices, ts, |ts|, completed) && j < |indices| && i == indices[j]
    requires b == (if j + 1 == |indices| then |ts| else indices[j + 1])
    ensures i < b <= |ts| && forall k | i < k < b :: !IsReady(ts[k], completed)
  {
    assert forall m | 0 <= m < |indices| :: m <= j || indices[m] >= b;
    assert forall m | 0 <= m <= j :: indices[m] <= i;
    assert forall k | i < k < b :: k !in indices;
  }

  lemma HeadWaits(ts: seq<Task>, indices: seq<nat>, completed: set<nat>, b: nat)
    requires Chosen(indices, ts, |ts|, completed)
    requires b == (if indices == [] then |ts| else indices[0])
    ensures Waiting(ts[..b], completed) == ts[..b]
  {
    assert forall m | 0 <= m < |indices| :: indices[m] >= b;
    assert forall k | 0 <= k < b :: k !in indices;
    WaitingKeeps(ts[..b], completed);
  }

  lemma SpliceStep(ts: seq<Task>, completed: set<nat>, i: nat, b: nat)
    requires i < b <= |ts| && IsReady(ts[i], completed) && forall k | i < k < b :: !IsReady(ts[k], completed)
    ensures Splice(ts[..b] + Waiting(ts[b..], completed), i) == ts[..i] + Waiting(ts[i..], completed)
  {
    var gap, late := ts[i + 1..b], Waiting(ts[b..], completed);
    WaitingFrom(ts, completed, i, b);
    SpliceOut(ts[..i], ts[i], gap + late, i);
    assert ts[..b] == ts[..i] + [ts[i]] + gap;
    Regroup(ts[..i] + [ts[i]], gap, late);
  }

  lemma SpliceOut(a: seq<Task>, x: Task, b: seq<Task>, i: nat)
    requires i == |a|
    ensures Splice(a + [x] + b, i) == a + b
  {
  }

  lemma WaitingFrom(ts: seq<Task>, completed: set<nat>, i: nat, b: nat)
    requires i < b <= |ts| && IsReady(ts[i], completed) && forall k | i < k < b :: !IsReady(ts[k], completed)
    ensures Waiting(ts[i..], completed) == ts[i + 1..b] + Waiting(ts[b..], completed)
  {
    var gap := ts[i + 1..b];
    assert ts[i..][1..] == gap + ts[b..];
    WaitingSplit(gap, ts[b..], completed);
    WaitingKeeps(gap, completed);
  }

  /** What a scan of the first `n` tasks has found. */
  predicate Scanned(wave: seq<Task>, indices: seq<nat>, ts: seq<Task>, n: nat, completed: set<nat>)
    requires n <= |ts|
  {
    wave == Ready(ts[..n], completed) && Chosen(indices, ts, n, completed)
  }

  lemma ListedSnoc(indices: seq<nat>, ts: seq<Task>, n: nat, completed: set<nat>)
    requires n < |ts| && AllListed(indices, ts, n, completed)
    ensures IsReady(ts[n], completed) ==> AllListed(indices + [n], ts, n + 1, completed)
    ensures !IsReady(ts[n], completed) ==> AllListed(indices, ts, n + 1, completed)
  {
  }

  lemma ScannedSnoc(wave: seq<Task>, indices: seq<nat>, ts: seq<Task>, n: nat, completed: set<nat>)
    requires n < |ts| && Scanned(wave, indices, ts, n, completed)
    ensures if IsReady(ts[n], completed) then Scanned(wave + [ts[n]], indices + [n], ts, n + 1, completed)
            else Scanned(wave, indices, ts, n + 1, completed)
  {
    assert ts[..n + 1][..n] == ts[..n];
    ListedSnoc(indices, ts, n, completed);
  }

  lemma ScannedAll(wave: seq<Task>, indices: seq<nat>, ts: seq<Task>, completed: set<nat>)
    requires Scanned(wave, indices, ts, |ts|, completed)
    ensures wave == Ready(ts, completed) && Chosen(indices, ts, |ts|, completed)
  {
    assert ts[..|ts|] == ts;
  }

  method Choose(remaining: seq<Task>, completed: set<nat>) returns (wave: seq<Task>, indices: seq<nat>)
    ensures wave == Ready(remaining, completed)
    ensures Chosen(indices, remaining, |remaining|, completed)
  {
    wave, indices := [], [];
    for idx := 0 to |remaining|
      invariant Scanned(wave, indices, remaining, idx, completed)
    {
      ScannedSnoc(wave, indices, remaining, idx, completed);
      if IsReady(remaining[idx], completed) {
        wave := wave + [remaining[idx]];
        indices := indices + [idx];
      }
    }
    ScannedAll(wave, indices, remaining, completed);
  }

  /** What holds between two rounds. */
  ghost predicate Round(tasks: seq<Task>, remaining: seq<Task>, waves: seq<seq<Task>>, completed: set<nat>) {
    multiset(Flat(waves)) + multiset(remaining) == multiset(tasks)
    && completed == Ids(Flat(waves))
    && NonEmpty(waves) && Earliest(waves)
    && (|waves| > 0 ==> forall t | t in remaining :: !IsReady(t, Ids(Flat(waves[..|waves| - 1]))))
    && forall s: set<Task> | Stuck(s, tasks) :: forall t | t in s :: t in remaining && t !in Flat(waves)
  }

  lemma RoundStart(tasks: seq<Task>)
    ensures Round(tasks, tasks, [], {})
  {
  }

  lemma RoundStep(tasks: seq<Task>, remaining: seq<Task>, waves: seq<seq<Task>>, completed: set<nat>)
    requires Round(tasks, remaining, waves, completed) && Ready(remaining, completed) != []
    ensures
      var wave := Ready(remaining, completed);
      Round(tasks, Waiting(remaining, completed), waves + [wave], completed + Ids(wave))
  {
    var wave := Ready(remaining, completed);
    FlatSnoc(waves, wave);
    FiltersSplit(remaining, completed);
    RoundPlaces(tasks, remaining, waves, completed);
    StuckStays(tasks, remaining, waves, completed);
    assert multiset(Flat(waves) + wave) == multiset(Flat(waves)) + multiset(wave);
    assert Ids(Flat(waves) + wave) == Ids(Flat(waves)) + Ids(wave);
  }

  lemma RoundPlaces(tasks: seq<Task>, remaining: seq<Task>, waves: seq<seq<Task>>, completed: set<nat>)
    requires Round(tasks, remaining, waves, completed) && Ready(remaining, completed) != []
    ensures
      var more := waves + [Ready(remaining, completed)];
      NonEmpty(more) && Earliest(more)
      && forall t | t in Waiting(remaining, completed) :: !IsReady(t, Ids(Flat(more[..|more| - 1])))
  {
    var wave := Ready(remaining, completed);
    ReadyOnly(remaining, completed);
    WaitingOnly(remaining, completed);
    assert (waves + [wave])[..|waves|] == waves && waves[..|waves|] == waves;
    forall t | t in wave ensures InPlace(t, waves, |waves|) {
    }
    EarliestSnoc(waves, wave);
  }

  lemma RoundShrinks(remaining: seq<Task>, completed: set<nat>)
    requires Ready(remaining, completed) != []
    ensures |Waiting(remaining, completed)| < |remaining|
  {
    var wave, rest := Ready(remaining, completed), Waiting(remaining, completed);
    FiltersSplit(remaining, completed);
    assert |multiset(wave) + multiset(rest)| == |multiset(wave)| + |multiset(rest)|;
  }

  lemma StuckStays(tasks: seq<Task>, remaining: seq<Task>, waves: seq<seq<Task>>, completed: set<nat>)
    requires Round(tasks, remaining, waves, completed)
    ensures forall s: set<Task> | Stuck(s, tasks) :: forall t | t in s ::
      t in Waiting(remaining, completed) && t !in Flat(waves) + Ready(remaining, completed)
  {
    ReadyOnly(remaining, completed);
    WaitingOnly(remaining, completed);
    forall s: set<Task>, t | Stuck(s, tasks) && t in s ensures !IsReady(t, completed) {
      forall u | u in Flat(waves) ensures u in tasks && u !in s {
        assert u in multiset(Flat(waves)) + multiset(remaining);
        assert u in multiset(tasks);
      }
      StuckWaits(s, tasks, Flat(waves), t);
    }
  }

  /** When nothing is ready, what remains is stuck. */
  lemma NothingReady(tasks: seq<Task>, remaining: seq<Task>, waves: seq<seq<Task>>, completed: set<nat>)
    requires Round(tasks, remaining, waves, completed) && remaining != [] && Ready(remaining, completed) == []
    ensures Stuck((set t | t in remaining), tasks)
  {
    var s := set t | t in remaining;
    ReadyOnly(remaining, completed);
    assert remaining[0] in s;
    forall t | t in s ensures t in tasks && exists d | d in t.dependsOn :: OnlyIn(d, s, tasks) {
      assert t in multiset(Flat(waves)) + multiset(remaining);
      assert t in multiset(tasks);
      assert t !in Ready(remaining, completed);
      var d :| d in t.dependsOn && d !in completed;
      forall u | u in tasks && u.id == d ensures u in s {
        assert u in multiset(tasks);
        assert u in multiset(Flat(waves)) + multiset(remaining);
      }
      assert OnlyIn(d, s, tasks);
    }
  }

  /**
   * The waves hold every task once, each as early as its dependencies allow. There is no grouping
   * exactly when some tasks wait only for unknown ids and for each other.
   */
  method GroupIntoWaves(tasks: seq<Task>) returns (r: Option<seq<seq<Task>>>)
    ensures r.Some? ==> multiset(Flat(r.value)) == multiset(tasks) && NonEmpty(r.value) && Earliest(r.value)
    ensures r.None? <==> exists s: set<Task> :: Stuck(s, tasks)
  {
    var waves: seq<seq<Task>> := [];
    var completed: set<nat> := {};
    var remaining := tasks;
    RoundStart(tasks);
    while |remaining| > 0
      invariant Round(tasks, remaining, waves, completed)
      decreases |remaining|
    {
      var wave, toRemove := Choose(remaining, completed);
      if |wave| == 0 {
        NothingReady(tasks, remaining, waves, completed);
        return None;
      }
      RoundStep(tasks, remaining, waves, completed);
      RoundShrinks(remaining, completed);
      remaining := SpliceAll(remaining, toRemove, completed);
      completed := completed + Ids(wave);
      waves := waves + [wave];
    }
    assert forall s: set<Task> | Stuck(s, tasks) :: exists t :: t in s;
    r := Some(waves);
  }

  // ----- Earliest means earliest ---------------------------------------------------------------------------

  /** A schedule puts some task of each dependency strictly before the task that waits for it. */
  predicate Schedules(at: Task -> nat, tasks: seq<Task>) {
    forall t | t in tasks :: forall d | d in t.dependsOn :: exists u | u in tasks :: u.id == d && at(u) < at(t)
  }

  lemma {:induction false} FlatPrefix(waves: seq<seq<Task>>, w: nat, t: Task)
    requires w <= |waves| && t in Flat(waves) && t !in Flat(waves[..w])
    ensures exists v | w <= v < |waves| :: t in waves[v]
  {
    FlatHas(waves, t);
    FlatHas(waves[..w], t);
    assert forall v | 0 <= v < w :: waves[..w][v] == waves[v];
    assert forall v | 0 <= v < w :: t !in waves[v];
  }

  /** No schedule that respects the dependencies runs a task earlier than its wave. */
  lemma {:induction false} NoneEarlier(tasks: seq<Task>, waves: seq<seq<Task>>, at: Task -> nat, w: nat, t: Task)
    requires multiset(Flat(waves)) == multiset(tasks) && Earliest(waves) && Schedules(at, tasks)
    requires w < |waves| && t in waves[w]
    ensures at(t) >= w
    decreases at(t)
  {
    if w > 0 {
      var u, v := WaitsFor(tasks, waves, at, w, t);
      NoneEarlier(tasks, waves, at, v, u);
    }
  }

  lemma SameTasks(tasks: seq<Task>, waves: seq<seq<Task>>, t: Task)
    requires multiset(Flat(waves)) == multiset(tasks)
    ensures t in Flat(waves) <==> t in tasks
  {
    assert t in multiset(Flat(waves)) <==> t in multiset(tasks);
  }

  /** A task that the schedule runs before `t`, in the wave just before it or later. */
  lemma WaitsFor(tasks: seq<Task>, waves: seq<seq<Task>>, at: Task -> nat, w: nat, t: Task) returns (u: Task, v: nat)
    requires multiset(Flat(waves)) == multiset(tasks) && Earliest(waves) && Schedules(at, tasks)
    requires 0 < w < |waves| && t in waves[w]
    ensures at(u) < at(t) && w - 1 <= v < |waves| && u in waves[v]
  {
    assert InPlace(t, waves, w);
    FlatHas(waves, t);
    SameTasks(tasks, waves, t);
    var d :| d in t.dependsOn && d !in Ids(Flat(waves[..w - 1]));
    u :| u in tasks && u.id == d && at(u) < at(t);
    SameTasks(tasks, waves, u);
    FlatPrefix(waves, w - 1, u);
    v :| w - 1 <= v < |waves| && u in waves[v];
  }
}
