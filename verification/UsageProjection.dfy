/** The usage projection: rollups cached per thread, turn, agent, window and start instant, each always the fold it stands for. */
module UsageProjection {
  import opened Prelude
  import opened UsageModel
  import opened UsageRollup

  const I64_MIN: int := -0x8000_0000_0000_0000

  datatype UsageError = DuplicateAttempt | DuplicateCostEvaluation | UnknownAttempt | InvalidCursor | StaleCursor | CursorQueryMismatch

  type Rollups = map<int, Rollup>

  predicate Named(a: Attempt, turn: U64, number: U32) {
    a.turn == turn && a.attempt == number
  }

  predicate DistinctWindows(a: Attempt) {
    forall i, j :: 0 <= i < j < |a.windows| ==> a.windows[i] != a.windows[j]
  }

  // ---------- one cached axis ----------

  /** An axis holds a rollup for exactly the keys some attempt has, each the fold over the attempts that have it. */
  ghost predicate Tracks(rollups: Rollups, attempts: seq<Attempt>, axis: Axis) {
    && (forall k :: k in rollups <==> exists i :: 0 <= i < |attempts| && In(attempts[i], On(axis, k)))
    && (forall k <- rollups :: rollups[k] == Cap(Sum(attempts, On(axis, k))))
  }

  function RollupIn(rollups: Rollups, key: int): Rollup {
    if key in rollups then rollups[key] else EMPTY
  }

  function ObserveAt(rollups: Rollups, key: int, a: Attempt): Rollups {
    rollups[key := Observe(RollupIn(rollups, key), a)]
  }

  function ObserveEach(rollups: Rollups, keys: seq<int>, a: Attempt): Rollups
    decreases |keys|
  {
    if |keys| == 0 then rollups else ObserveAt(ObserveEach(rollups, keys[..|keys| - 1], a), keys[|keys| - 1], a)
  }

  /** Prices an attempt in the rollups of these keys; the first missing key stops it. */
  function EvaluateEach(rollups: Rollups, keys: seq<int>, outcome: Cost): Option<Rollups>
    decreases |keys|
  {
    if |keys| == 0 then Some(rollups)
    else
      match EvaluateEach(rollups, keys[..|keys| - 1], outcome)
      case None => None
      case Some(before) =>
        var key := keys[|keys| - 1];
        if key in before then Some(before[key := ObserveCostEvaluation(before[key], outcome)]) else None
  }

  predicate Distinct(keys: seq<int>) {
    forall i, j :: 0 <= i < j < |keys| ==> keys[i] != keys[j]
  }

  lemma {:induction false} ObserveEachMeans(rollups: Rollups, keys: seq<int>, a: Attempt)
    requires Distinct(keys)
    ensures var after := ObserveEach(rollups, keys, a);
            && (forall k :: k in after <==> k in rollups || k in keys)
            && (forall k <- after :: after[k] == if k in keys then Observe(RollupIn(rollups, k), a) else rollups[k])
    decreases |keys|
  {
    hide Observe;
    if |keys| > 0 {
      var init, last := keys[..|keys| - 1], keys[|keys| - 1];
      ObserveEachMeans(rollups, init, a);
      assert last !in init;
      assert forall k :: k in keys <==> k in init || k == last;
    }
  }

  lemma {:induction false} EvaluateEachMeans(rollups: Rollups, keys: seq<int>, outcome: Cost)
    requires Distinct(keys) && forall k <- keys :: k in rollups
    ensures var after := EvaluateEach(rollups, keys, outcome);
            && after.Some? && after.value.Keys == rollups.Keys
            && forall k <- rollups :: after.value[k] == if k in keys then ObserveCostEvaluation(rollups[k], outcome) else rollups[k]
    decreases |keys|
  {
    hide ObserveCostEvaluation;
    if |keys| > 0 {
      var init, last := keys[..|keys| - 1], keys[|keys| - 1];
      EvaluateEachMeans(rollups, init, outcome);
      assert last !in init;
      assert forall k :: k in keys <==> k in init || k == last;
    }
  }

  lemma MissingIsEmpty(rollups: Rollups, attempts: seq<Attempt>, axis: Axis, key: int)
    requires Tracks(rollups, attempts, axis)
    ensures RollupIn(rollups, key) == Cap(Sum(attempts, On(axis, key)))
  {
    hide In, Cap, Sum;
    if key !in rollups {
      SumOfNone(attempts, On(axis, key));
      CapNothing();
    }
  }

  /** Observing an attempt in the rollups of its keys keeps the axis exact. */
  lemma ObserveTracks(rollups: Rollups, attempts: seq<Attempt>, axis: Axis, a: Attempt)
    requires Tracks(rollups, attempts, axis) && a.cost.None? && Distinct(KeysOf(a, axis))
    ensures Tracks(ObserveEach(rollups, KeysOf(a, axis), a), attempts + [a], axis)
  {
    hide Observe, Cap, Sum, ObserveEach, KeysOf, Add, Of;
    var keys, more := KeysOf(a, axis), attempts + [a];
    ObserveEachMeans(rollups, keys, a);
    var after := ObserveEach(rollups, keys, a);
    forall k
      ensures k in after <==> exists i :: 0 <= i < |more| && In(more[i], On(axis, k))
    {
      assert more[|attempts|] == a;
      assert k in keys <==> In(more[|attempts|], On(axis, k));
      if k in rollups {
        var i :| 0 <= i < |attempts| && In(attempts[i], On(axis, k));
        assert In(more[i], On(axis, k));
      }
    }
    forall k <- after
      ensures after[k] == Cap(Sum(more, On(axis, k)))
    {
      MissingIsEmpty(rollups, attempts, axis, k);
      SumMore(attempts, a, On(axis, k));
      ObserveAdds(Sum(attempts, On(axis, k)), a);
    }
  }

  lemma EvaluatedSum(attempts: seq<Attempt>, i: nat, outcome: Cost, scope: Scope)
    requires i < |attempts| <= U64_MAX && attempts[i].cost.None?
    ensures Cap(Sum(attempts[i := attempts[i].(cost := Some(outcome))], scope))
            == if In(attempts[i], scope) then ObserveCostEvaluation(Cap(Sum(attempts, scope)), outcome) else Cap(Sum(attempts, scope))
  {
    hide In, Cap, Sum, ObserveCostEvaluation, Evaluated;
    SumEvaluated(attempts, i, outcome, scope);
    UnknownBounded(attempts, scope);
    EvaluateAdds(Sum(attempts, scope), outcome);
  }

  lemma EvaluateTracks(rollups: Rollups, attempts: seq<Attempt>, axis: Axis, i: nat, outcome: Cost)
    requires Tracks(rollups, attempts, axis) && i < |attempts| <= U64_MAX && attempts[i].cost.None? && Distinct(KeysOf(attempts[i], axis))
    ensures var after := EvaluateEach(rollups, KeysOf(attempts[i], axis), outcome);
            after.Some? && Tracks(after.value, attempts[i := attempts[i].(cost := Some(outcome))], axis)
  {
    hide Cap, Sum, ObserveCostEvaluation, EvaluateEach, KeysOf;
    var keys, changed := KeysOf(attempts[i], axis), attempts[i := attempts[i].(cost := Some(outcome))];
    forall k <- keys
      ensures k in rollups
    {
      assert In(attempts[i], On(axis, k));
    }
    EvaluateEachMeans(rollups, keys, outcome);
    var after := EvaluateEach(rollups, keys, outcome).value;
    forall k
      ensures k in after <==> exists j :: 0 <= j < |changed| && In(changed[j], On(axis, k))
    {
      PricedKeepsScope(attempts[i], outcome, On(axis, k));
      assert forall j :: 0 <= j < |changed| ==> In(changed[j], On(axis, k)) == In(attempts[j], On(axis, k));
    }
    forall k <- after
      ensures after[k] == Cap(Sum(changed, On(axis, k)))
    {
      EvaluatedSum(attempts, i, outcome, On(axis, k));
    }
  }

  // ---------- the projection ----------

  /** The six caches at once. */
  datatype Caches = Caches(total: Rollup, threads: Rollups, turns: Rollups, agents: Rollups, windows: Rollups, instants: Rollups)

  /** Every cached rollup is the direct fold over the recorded attempts it covers. */
  ghost predicate Exact(attempts: seq<Attempt>, c: Caches) {
    && c.total == Cap(Sum(attempts, Everything))
    && Tracks(c.threads, attempts, Threads) && Tracks(c.turns, attempts, Turns) && Tracks(c.agents, attempts, Agents)
    && Tracks(c.windows, attempts, Windows) && Tracks(c.instants, attempts, Instants)
  }

  /** Attempts have different names, and each names its windows once. */
  ghost predicate WellNamed(attempts: seq<Attempt>) {
    && (forall i :: 0 <= i < |attempts| ==> DistinctWindows(attempts[i]))
    && (forall i, j :: 0 <= i < j < |attempts| ==> !Named(attempts[j], attempts[i].turn, attempts[i].attempt))
  }

  function ObserveOptional(rollups: Rollups, key: Option<int>, a: Attempt): Rollups {
    if key.Some? then ObserveAt(rollups, key.value, a) else rollups
  }

  lemma RecordExact(attempts: seq<Attempt>, c: Caches, a: Attempt)
    requires Exact(attempts, c) && a.cost.None? && DistinctWindows(a)
    ensures Exact(attempts + [a],
                  Caches(Observe(c.total, a), ObserveAt(c.threads, a.thread, a), ObserveAt(c.turns, a.turn, a),
                         ObserveOptional(c.agents, a.agent, a), ObserveEach(c.windows, a.windows, a), ObserveOptional(c.instants, a.startedAt, a)))
  {
    hide Observe, ObserveAt, ObserveEach, Cap, Sum, Tracks, KeysOf;
    SingleKeys(a);
    SingleObserves(a, c.threads, c.turns, c.agents, c.instants);
    TotalObserves(attempts, a);
    ObserveTracks(c.threads, attempts, Threads, a);
    ObserveTracks(c.turns, attempts, Turns, a);
    ObserveTracks(c.agents, attempts, Agents, a);
    ObserveTracks(c.windows, attempts, Windows, a);
    ObserveTracks(c.instants, attempts, Instants, a);
  }

  lemma RecordWellNamed(attempts: seq<Attempt>, a: Attempt)
    requires WellNamed(attempts) && DistinctWindows(a) && forall i :: 0 <= i < |attempts| ==> !Named(attempts[i], a.turn, a.attempt)
    ensures WellNamed(attempts + [a])
  {
    hide DistinctWindows;
  }

  function EvaluateAt(rollups: Rollups, key: int, outcome: Cost): Rollups
    requires key in rollups
  {
    rollups[key := ObserveCostEvaluation(rollups[key], outcome)]
  }

  lemma EvaluationExact(attempts: seq<Attempt>, c: Caches, i: nat, outcome: Cost)
    requires Exact(attempts, c) && i < |attempts| <= U64_MAX && attempts[i].cost.None? && DistinctWindows(attempts[i])
    ensures var a := attempts[i];
            && a.thread in c.threads && a.turn in c.turns && (a.agent.Some? ==> a.agent.value in c.agents)
            && (a.startedAt.Some? ==> a.startedAt.value in c.instants) && EvaluateEach(c.windows, a.windows, outcome).Some?
            && Exact(attempts[i := a.(cost := Some(outcome))],
                     Caches(ObserveCostEvaluation(c.total, outcome), EvaluateAt(c.threads, a.thread, outcome), EvaluateAt(c.turns, a.turn, outcome),
                            if a.agent.Some? then EvaluateAt(c.agents, a.agent.value, outcome) else c.agents,
                            EvaluateEach(c.windows, a.windows, outcome).value,
                            if a.startedAt.Some? then EvaluateAt(c.instants, a.startedAt.value, outcome) else c.instants))
  {
    hide ObserveCostEvaluation, EvaluateEach, Cap, Sum, Tracks, KeysOf;
    var a := attempts[i];
    SingleKeys(a);
    EvaluatedSum(attempts, i, outcome, Everything);
    EvaluateTracks(c.threads, attempts, Threads, i, outcome);
    EvaluateTracks(c.turns, attempts, Turns, i, outcome);
    EvaluateTracks(c.agents, attempts, Agents, i, outcome);
    EvaluateTracks(c.windows, attempts, Windows, i, outcome);
    EvaluateTracks(c.instants, attempts, Instants, i, outcome);
    SingleEvaluates(a, outcome, c.threads, c.turns, c.agents, c.instants);
  }

  lemma EvaluationWellNamed(attempts: seq<Attempt>, i: nat, outcome: Cost)
    requires WellNamed(attempts) && i < |attempts|
    ensures WellNamed(attempts[i := attempts[i].(cost := Some(outcome))])
  {
    var changed := attempts[i := attempts[i].(cost := Some(outcome))];
    forall k | 0 <= k < |attempts|
      ensures DistinctWindows(changed[k]) && changed[k].turn == attempts[k].turn && changed[k].attempt == attempts[k].attempt
    {
      assert DistinctWindows(attempts[k]);
    }
  }

  lemma WindowsDistinct(attempts: seq<Attempt>, i: nat)
    requires WellNamed(attempts) && i < |attempts|
    ensures DistinctWindows(attempts[i])
  {
  }

  lemma NamedApart(attempts: seq<Attempt>, i: nat, j: nat)
    requires WellNamed(attempts) && i < j < |attempts|
    ensures !Named(attempts[j], attempts[i].turn, attempts[i].attempt)
  {
  }

  lemma NamedOnce(attempts: seq<Attempt>, i: nat, j: nat)
    requires WellNamed(attempts) && i < |attempts| && j < |attempts| && Named(attempts[j], attempts[i].turn, attempts[i].attempt)
    ensures i == j
  {
    if i < j {
      NamedApart(attempts, i, j);
    } else if j < i {
      NamedApart(attempts, j, i);
    }
  }

  class Projection {
    var attempts: seq<Attempt>
    var total: Rollup
    var threads: Rollups
    var turns: Rollups
    var agents: Rollups
    var windows: Rollups
    var instants: Rollups

    ghost predicate Valid()
      reads this
    {
      Exact(attempts, Caches(total, threads, turns, agents, windows, instants)) && WellNamed(attempts)
    }

    constructor ()
      ensures Valid() && attempts == []
    {
      attempts, total := [], EMPTY;
      threads, turns, agents, windows, instants := map[], map[], map[], map[], map[];
      new;
      CapNothing();
    }

    /** The position of the attempt of this name, if it was recorded. */
    method Find(turn: U64, number: U32) returns (found: Option<nat>)
      ensures found.Some? ==> found.value < |attempts| && Named(attempts[found.value], turn, number)
      ensures found.None? ==> forall i :: 0 <= i < |attempts| ==> !Named(attempts[i], turn, number)
    {
      for i := 0 to |attempts|
        invariant forall k :: 0 <= k < i ==> !Named(attempts[k], turn, number)
      {
        if Named(attempts[i], turn, number) {
          return Some(i);
        }
      }
      return None;
    }

    /** Records a new attempt; a second one of the same name is refused and changes nothing. */
    method Record(a: Attempt) returns (r: Result<(), UsageError>)
      requires Valid() && a.cost.None? && DistinctWindows(a)
      modifies this
      ensures Valid()
      ensures if exists i :: 0 <= i < |old(attempts)| && Named(old(attempts)[i], a.turn, a.attempt)
              then r == Err(DuplicateAttempt) && unchanged(this)
              else r == Ok(()) && attempts == old(attempts) + [a]
    {
      hide Observe, ObserveAt, Exact, WellNamed, Named, DistinctWindows;
      var existing := Find(a.turn, a.attempt);
      if existing.Some? {
        return Err(DuplicateAttempt);
      }
      RecordExact(attempts, Caches(total, threads, turns, agents, windows, instants), a);
      RecordWellNamed(attempts, a);
      total := Observe(total, a);
      threads := ObserveAt(threads, a.thread, a);
      turns := ObserveAt(turns, a.turn, a);
      if a.agent.Some? {
        agents := ObserveAt(agents, a.agent.value, a);
      }
      for i := 0 to |a.windows|
        modifies `windows
        invariant windows == ObserveEach(old(windows), a.windows[..i], a)
      {
        assert a.windows[..i + 1][..i] == a.windows[..i];
        windows := ObserveAt(windows, a.windows[i], a);
      }
      assert a.windows[..|a.windows|] == a.windows;
      if a.startedAt.Some? {
        instants := ObserveAt(instants, a.startedAt.value, a);
      }
      attempts := attempts + [a];
      r := Ok(());
    }

    /** Prices a recorded attempt once. */
    method RecordCostEvaluation(turn: U64, number: U32, outcome: Cost) returns (r: Result<(), UsageError>)
      requires Valid() && |attempts| <= U64_MAX
      modifies this
      ensures Valid()
      ensures (forall i :: 0 <= i < |old(attempts)| ==> !Named(old(attempts)[i], turn, number)) ==> r == Err(UnknownAttempt) && unchanged(this)
      ensures forall i :: 0 <= i < |old(attempts)| && Named(old(attempts)[i], turn, number) ==>
                if old(attempts)[i].cost.Some? then r == Err(DuplicateCostEvaluation) && unchanged(this)
                else r == Ok(()) && attempts == old(attempts)[i := old(attempts)[i].(cost := Some(outcome))]
    {
      hide ObserveCostEvaluation, Exact, WellNamed, DistinctWindows;
      var found := Find(turn, number);
      if found.None? {
        return Err(UnknownAttempt);
      }
      var i := found.value;
      var a := attempts[i];
      forall j | 0 <= j < |attempts| && Named(attempts[j], turn, number)
        ensures j == i
      {
        NamedOnce(attempts, i, j);
      }
      if a.cost.Some? {
        return Err(DuplicateCostEvaluation);
      }
      WindowsDistinct(attempts, i);
      EvaluationExact(attempts, Caches(total, threads, turns, agents, windows, instants), i, outcome);
      EvaluationWellNamed(attempts, i, outcome);
      attempts := attempts[i := a.(cost := Some(outcome))];
      total := ObserveCostEvaluation(total, outcome);
      threads := EvaluateAt(threads, a.thread, outcome);
      turns := EvaluateAt(turns, a.turn, outcome);
      if a.agent.Some? {
        agents := EvaluateAt(agents, a.agent.value, outcome);
      }
      for k := 0 to |a.windows|
        modifies `windows
        invariant EvaluateEach(old(windows), a.windows[..k], outcome) == Some(windows)
      {
        EvaluatePrefix(old(windows), a.windows, k, outcome);
        assert a.windows[..k + 1][..k] == a.windows[..k];
        windows := EvaluateAt(windows, a.windows[k], outcome);
      }
      assert a.windows[..|a.windows|] == a.windows;
      if a.startedAt.Some? {
        instants := EvaluateAt(instants, a.startedAt.value, outcome);
      }
      r := Ok(());
    }

    /** Merges the instants of `[asOf - duration, asOf)`: the direct fold over the attempts started in that range. */
    method Rolling(asOf: int, duration: nat) returns (r: Rollup)
      requires Valid() && I64_MIN <= asOf
      ensures r == Cap(Sum(attempts, Between(if asOf - duration < I64_MIN then I64_MIN else asOf - duration, asOf)))
    {
      hide Merge, Cap, Sum, Exact, WellNamed, Tracks;
      ExactInstants(attempts, Caches(total, threads, turns, agents, windows, instants));
      var start := if asOf - duration < I64_MIN then I64_MIN else asOf - duration;
      r := EMPTY;
      NoRange(attempts, start);
      var rest := set k | k in instants && start <= k < asOf;
      ghost var upto := start;
      while rest != {}
        invariant start <= upto <= asOf
        invariant forall k :: k in rest <==> k in instants && upto <= k < asOf
        invariant r == Cap(Sum(attempts, Between(start, upto)))
        decreases |rest|
      {
        var key := SmallestKey(rest);
        assert forall k :: upto <= k < key && k in instants ==> k in rest;
        RollingStep(instants, attempts, start, upto, key);
        r := Merge(r, instants[key]);
        rest := rest - {key};
        upto := key + 1;
      }
      assert forall k :: k in instants && upto <= k < asOf ==> k in rest;
      RollingEnd(instants, attempts, start, upto, asOf);
    }
  }

  lemma ExactInstants(attempts: seq<Attempt>, c: Caches)
    requires Exact(attempts, c)
    ensures Tracks(c.instants, attempts, Instants)
  {
  }

  lemma TotalObserves(attempts: seq<Attempt>, a: Attempt)
    requires a.cost.None?
    ensures Observe(Cap(Sum(attempts, Everything)), a) == Cap(Sum(attempts + [a], Everything))
  {
    hide Observe, Cap, Sum, Add, Of;
    SumMore(attempts, a, Everything);
    ObserveAdds(Sum(attempts, Everything), a);
  }

  lemma SingleKeys(a: Attempt)
    ensures KeysOf(a, Windows) == a.windows
    ensures Distinct(KeysOf(a, Threads)) && Distinct(KeysOf(a, Turns)) && Distinct(KeysOf(a, Agents)) && Distinct(KeysOf(a, Instants))
    ensures DistinctWindows(a) ==> Distinct(KeysOf(a, Windows))
  {
  }

  lemma ObserveOne(rollups: Rollups, key: int, a: Attempt)
    ensures ObserveEach(rollups, [key], a) == ObserveAt(rollups, key, a) && ObserveEach(rollups, [], a) == rollups
  {
    hide Observe;
    assert [key][..0] == [];
    assert ObserveEach(rollups, [key][..0], a) == rollups;
  }

  lemma SingleObserves(a: Attempt, threads: Rollups, turns: Rollups, agents: Rollups, instants: Rollups)
    ensures ObserveEach(threads, KeysOf(a, Threads), a) == ObserveAt(threads, a.thread, a)
    ensures ObserveEach(turns, KeysOf(a, Turns), a) == ObserveAt(turns, a.turn, a)
    ensures ObserveEach(agents, KeysOf(a, Agents), a) == if a.agent.Some? then ObserveAt(agents, a.agent.value, a) else agents
    ensures ObserveEach(instants, KeysOf(a, Instants), a) == if a.startedAt.Some? then ObserveAt(instants, a.startedAt.value, a) else instants
    ensures KeysOf(a, Windows) == a.windows
  {
    hide Observe, ObserveEach, ObserveAt;
    ObserveOne(threads, a.thread, a);
    ObserveOne(turns, a.turn, a);
    ObserveOne(agents, if a.agent.Some? then a.agent.value else 0, a);
    ObserveOne(instants, if a.startedAt.Some? then a.startedAt.value else 0, a);
  }

  lemma EvaluateOne(rollups: Rollups, key: int, outcome: Cost)
    ensures EvaluateEach(rollups, [], outcome) == Some(rollups)
    ensures EvaluateEach(rollups, [key], outcome)
            == if key in rollups then Some(rollups[key := ObserveCostEvaluation(rollups[key], outcome)]) else None
  {
    hide ObserveCostEvaluation;
    assert [key][..0] == [];
    assert EvaluateEach(rollups, [key][..0], outcome) == Some(rollups);
  }

  lemma SingleEvaluates(a: Attempt, outcome: Cost, threads: Rollups, turns: Rollups, agents: Rollups, instants: Rollups)
    requires EvaluateEach(threads, KeysOf(a, Threads), outcome).Some? && EvaluateEach(turns, KeysOf(a, Turns), outcome).Some?
    requires EvaluateEach(agents, KeysOf(a, Agents), outcome).Some? && EvaluateEach(instants, KeysOf(a, Instants), outcome).Some?
    ensures a.thread in threads && EvaluateEach(threads, KeysOf(a, Threads), outcome)
                                   == Some(threads[a.thread := ObserveCostEvaluation(threads[a.thread], outcome)])
    ensures a.turn in turns && EvaluateEach(turns, KeysOf(a, Turns), outcome)
                               == Some(turns[a.turn := ObserveCostEvaluation(turns[a.turn], outcome)])
    ensures if a.agent.Some?
            then a.agent.value in agents && EvaluateEach(agents, KeysOf(a, Agents), outcome)
                                            == Some(agents[a.agent.value := ObserveCostEvaluation(agents[a.agent.value], outcome)])
            else EvaluateEach(agents, KeysOf(a, Agents), outcome) == Some(agents)
    ensures if a.startedAt.Some?
            then a.startedAt.value in instants && EvaluateEach(instants, KeysOf(a, Instants), outcome)
                                                  == Some(instants[a.startedAt.value := ObserveCostEvaluation(instants[a.startedAt.value], outcome)])
            else EvaluateEach(instants, KeysOf(a, Instants), outcome) == Some(instants)
  {
    hide ObserveCostEvaluation, EvaluateEach;
    EvaluateOne(threads, a.thread, outcome);
    EvaluateOne(turns, a.turn, outcome);
    EvaluateOne(agents, if a.agent.Some? then a.agent.value else 0, outcome);
    EvaluateOne(instants, if a.startedAt.Some? then a.startedAt.value else 0, outcome);
  }

  /** If pricing all keys succeeds, the next key after any prefix is there. */
  lemma {:induction false} EvaluatePrefix(rollups: Rollups, keys: seq<int>, k: nat, outcome: Cost)
    requires k < |keys| && EvaluateEach(rollups, keys, outcome).Some? && EvaluateEach(rollups, keys[..k], outcome).Some?
    ensures keys[k] in EvaluateEach(rollups, keys[..k], outcome).value
    decreases |keys|
  {
    hide ObserveCostEvaluation;
    if k == |keys| - 1 {
    } else {
      assert keys[..|keys| - 1][..k] == keys[..k];
      EvaluatePrefix(rollups, keys[..|keys| - 1], k, outcome);
    }
  }

  lemma NoRange(attempts: seq<Attempt>, at: int)
    ensures EMPTY == Cap(Sum(attempts, Between(at, at)))
  {
    hide Cap, Sum;
    SumOfNone(attempts, Between(at, at));
    CapNothing();
  }

  lemma StartTracked(instants: Rollups, attempts: seq<Attempt>, a: Attempt)
    requires Tracks(instants, attempts, Instants) && a in attempts
    ensures a.startedAt.Some? ==> a.startedAt.value in instants
  {
    hide Cap, Sum;
    var i :| 0 <= i < |attempts| && attempts[i] == a;
    assert a.startedAt.Some? ==> In(attempts[i], On(Instants, a.startedAt.value));
  }

  /** No start instant between `from` and `to` means nothing to add there. */
  lemma Gap(instants: Rollups, attempts: seq<Attempt>, start: int, from: int, to: int)
    requires Tracks(instants, attempts, Instants) && start <= from <= to
    requires forall k :: from <= k < to ==> k !in instants
    ensures Sum(attempts, Between(start, to)) == Sum(attempts, Between(start, from))
  {
    hide Cap, Sum, Add;
    forall a <- attempts
      ensures !In(a, Between(from, to))
    {
      StartTracked(instants, attempts, a);
    }
    SumOfNone(attempts, Between(from, to));
    RangesJoin(attempts, start, from, to);
    AddNothing(Sum(attempts, Between(start, from)));
  }

  lemma RollingStep(instants: Rollups, attempts: seq<Attempt>, start: int, upto: int, key: int)
    requires Tracks(instants, attempts, Instants) && start <= upto <= key && key in instants
    requires forall k :: upto <= k < key ==> k !in instants
    ensures Merge(Cap(Sum(attempts, Between(start, upto))), instants[key]) == Cap(Sum(attempts, Between(start, key + 1)))
  {
    hide Cap, Sum, Add, Merge;
    Gap(instants, attempts, start, upto, key);
    InstantIsRange(attempts, key);
    RangesJoin(attempts, start, key, key + 1);
    MergeAdds(Sum(attempts, Between(start, key)), Sum(attempts, Between(key, key + 1)));
  }

  lemma RollingEnd(instants: Rollups, attempts: seq<Attempt>, start: int, upto: int, asOf: int)
    requires Tracks(instants, attempts, Instants) && start <= upto <= asOf
    requires forall k :: upto <= k < asOf ==> k !in instants
    ensures Sum(attempts, Between(start, asOf)) == Sum(attempts, Between(start, upto))
  {
    hide Cap, Sum;
    Gap(instants, attempts, start, upto, asOf);
  }

  // ---------- paging ----------

  datatype Revision = Revision(transaction: U64, sequence: U64)

  datatype Cursor = Cursor(revision: Revision, asOf: int, nextIndex: nat)

  datatype Page = Page(attempts: seq<Attempt>, next: Option<Cursor>)

  /** One page; the cursor must come from the same revision and instant. */
  function PageOf(attempts: seq<Attempt>, revision: Revision, asOf: int, size: nat, cursor: Option<Cursor>): Result<Page, UsageError> {
    if cursor.Some? && cursor.value.revision != revision then Err(StaleCursor)
    else if cursor.Some? && cursor.value.asOf != asOf then Err(CursorQueryMismatch)
    else if cursor.Some? && cursor.value.nextIndex > |attempts| then Err(InvalidCursor)
    else
      var start := if cursor.Some? then cursor.value.nextIndex else 0;
      var end := if start + size < |attempts| then start + size else |attempts|;
      Ok(Page(attempts[start..end], if end < |attempts| then Some(Cursor(revision, asOf, end)) else None))
  }

  /** The pages reached by following cursors. */
  function Pages(attempts: seq<Attempt>, revision: Revision, asOf: int, size: nat, start: nat): seq<Attempt>
    requires size > 0 && start <= |attempts|
    decreases |attempts| - start
  {
    var page := PageOf(attempts, revision, asOf, size, Some(Cursor(revision, asOf, start))).value;
    if page.next.None? then page.attempts else page.attempts + Pages(attempts, revision, asOf, size, page.next.value.nextIndex)
  }

  /** Following cursors visits every attempt once, in order, whatever the page size. */
  lemma {:induction false} PagesCover(attempts: seq<Attempt>, revision: Revision, asOf: int, size: nat, start: nat)
    requires size > 0 && start <= |attempts|
    ensures Pages(attempts, revision, asOf, size, start) == attempts[start..]
    decreases |attempts| - start
  {
    var page := PageOf(attempts, revision, asOf, size, Some(Cursor(revision, asOf, start))).value;
    if page.next.Some? {
      PagesCover(attempts, revision, asOf, size, start + size);
      assert attempts[start..start + size] + attempts[start + size..] == attempts[start..];
    } else {
      assert attempts[start..|attempts|] == attempts[start..];
    }
  }
}
