/** Fairness of the landing queue: acting on a waiting head sends it to the back, so no landing
    of a repo waits behind the others for ever. */
module Fairness {
  import opened Prelude
  import opened Storage
  import opened LandingProgram
  import opened Coordinator

  /** The rows of the same repo that come before `k`. */
  function Ahead(t: Table, k: Key): set<Key>
    requires k in t
  {
    set o | o in RepoKeys(t, k.repo) && Before(t, o, k)
  }

  function Rank(t: Table, k: Key): nat
    requires k in t
  {
    |Ahead(t, k)|
  }

  /** Rank zero is being the head of the queue. */
  lemma RankZeroIsHead(t: Table, k: Key)
    requires k in t
    ensures Rank(t, k) == 0 <==> IsHead(t, k.repo, Some(Landing(k, t[k])))
  {
    if Rank(t, k) == 0 {
      assert Ahead(t, k) == {};
      forall o | o in RepoKeys(t, k.repo) && o != k
        ensures Before(t, k, o)
      {
        assert o !in Ahead(t, k);
        assert o.pr != k.pr;
      }
    }
    if IsHead(t, k.repo, Some(Landing(k, t[k]))) {
      assert Ahead(t, k) == {};
    }
  }

  lemma SizeWithout<T>(a: set<T>, b: set<T>)
    requires b <= a
    ensures |a - b| == |a| - |b|
  {
    assert a == (a - b) + b;
  }

  /** What a kick does to the rank of a row it neither removes nor acts on, exactly: the rank
      falls by the number of removed rows, and by one more if and only if the row acted on has
      moved behind it. */
  lemma RankAfterKick(t0: Table, t1: Table, repo: string, removed: set<Key>, touched: Option<Key>, k: Key)
    requires KickEffect(t0, t1, repo, removed, touched)
    requires k in t1 && k.repo == repo && touched != Some(k)
    ensures k in t0
    ensures Rank(t1, k) == Rank(t0, k) - |removed| - if touched.Some? && !Before(t1, touched.value, k) then 1 else 0
  {
    var gone := removed + if touched.Some? && !Before(t1, touched.value, k) then {touched.value} else {};
    forall r | r in gone
      ensures r in Ahead(t0, k)
    {
      assert k in RepoKeys(t0, repo) - removed;
    }
    assert Ahead(t1, k) == Ahead(t0, k) - gone by {
      forall o
        ensures o in Ahead(t1, k) <==> o in Ahead(t0, k) - gone
      {
        if touched == Some(o) {
          assert Before(t0, o, k);
        }
      }
    }
    SizeWithout(Ahead(t0, k), gone);
    if touched.Some? {
      assert touched.value !in removed;
    }
  }

  /** The step acts on `k` or takes it out of the queue. */
  predicate Serves(step: QueueStep, t1: Table, k: Key) {
    k !in t1 || (step.Kicked? && step.touched == Some(k))
  }

  /** Unless it serves `k`, a step in time never raises the rank of `k`, and a kick of its repo
      lowers it strictly. */
  lemma RankFalls(t0: Table, step: QueueStep, t1: Table, k: Key)
    requires k in t0 && Happens(t0, step, t1) && InTime(t0, step, t1) && !Serves(step, t1, k)
    ensures Rank(t1, k) + (if IsKickOf(step, k.repo) then 1 else 0) <= Rank(t0, k)
  {
    if IsKickOf(step, k.repo) {
      RankAfterKick(t0, t1, k.repo, step.removed, step.touched, k);
      assert k in RepoKeys(t1, k.repo);
    } else {
      assert Ahead(t1, k) <= Ahead(t0, k);
      SubsetSize(Ahead(t1, k), Ahead(t0, k));
    }
  }

  function Kicks(steps: seq<QueueStep>, repo: string): nat {
    if steps == [] then 0
    else Kicks(ButLast(steps), repo) + if IsKickOf(Last(steps), repo) then 1 else 0
  }

  ghost predicate Unserved(h: History, k: Key)
    requires |h.ts| == |h.steps| + 1
  {
    forall i :: 0 <= i < |h.steps| ==> !Serves(h.steps[i], h.ts[i + 1], k)
  }

  lemma {:induction false} RankFallsAlong(h: History, t0: Table, t1: Table, k: Key)
    requires Leads(h, t0, t1, true) && k in t0 && Unserved(h, k)
    ensures k in t1 && Rank(t1, k) + Kicks(h.steps, k.repo) <= Rank(t0, k)
    decreases |h.steps|
  {
    hide Happens, InTime, Rank;
    if h.steps != [] {
      var front, i := History(ButLast(h.ts), ButLast(h.steps)), |h.steps| - 1;
      assert StepAt(h, i, true) && !Serves(h.steps[i], h.ts[i + 1], k);
      assert Leads(front, t0, h.ts[i], true) by {
        forall j | 0 <= j < |front.steps|
          ensures StepAt(front, j, true)
        {
          assert StepAt(h, j, true);
        }
      }
      assert Unserved(front, k) by {
        assert forall j :: 0 <= j < |front.steps| ==> !Serves(h.steps[j], h.ts[j + 1], k);
      }
      RankFallsAlong(front, t0, h.ts[i], k);
      RankFalls(h.ts[i], h.steps[i], t1, k);
    }
  }

  /** No starvation. In every history of steps in time, a row that is in the queue at the start
      is served (acted on or removed) before its repo has been kicked more often than its rank
      says; if it is unserved after exactly that many kicks, it is the head. */
  lemma NoStarvation(h: History, t0: Table, t1: Table, k: Key)
    requires Leads(h, t0, t1, true) && k in t0
    ensures Kicks(h.steps, k.repo) > Rank(t0, k) ==> !Unserved(h, k)
    ensures Kicks(h.steps, k.repo) == Rank(t0, k) && Unserved(h, k) ==>
              k in t1 && IsHead(t1, k.repo, Some(Landing(k, t1[k])))
  {
    if Unserved(h, k) {
      RankFallsAlong(h, t0, t1, k);
      RankZeroIsHead(t1, k);
    }
  }

  // ---- Events handled one after the other ----------------------------------

  /** The event is sure to kick the repo of `k` while `k` is queued. */
  predicate Pokes(call: LandingProgram.Call, k: Key) {
    call == GreenCi(k) || (call.RedCi? && call.key.repo == k.repo)
  }

  function PokeCount(calls: seq<LandingProgram.Call>, k: Key): nat {
    if calls == [] then 0 else PokeCount(ButLast(calls), k) + if Pokes(Last(calls), k) then 1 else 0
  }

  /** A handled event that pokes a queued row kicks its repo. */
  lemma PokeKicks(cfg: Config, call: LandingProgram.Call, t: Table, steps: seq<QueueStep>, k: Key)
    requires cfg.enabled && k in t && StepsOf(cfg, call, t, steps) && Pokes(call, k)
    ensures Kicks(steps, k.repo) >= 1
  {
    assert IsKickOf(Last(steps), k.repo);
  }

  /** One history after another. */
  function Then(a: History, b: History): History
    requires b.ts != []
  {
    History(a.ts + b.ts[1..], a.steps + b.steps)
  }

  lemma ThenLeads(a: History, b: History, t0: Table, t1: Table, t2: Table, inTime: bool)
    requires Leads(a, t0, t1, inTime) && Leads(b, t1, t2, inTime)
    ensures Leads(Then(a, b), t0, t2, inTime)
  {
    hide Happens, InTime;
    var h := Then(a, b);
    forall i | 0 <= i < |h.steps|
      ensures StepAt(h, i, inTime)
    {
      if i < |a.steps| {
        assert StepAt(a, i, inTime);
      } else {
        var j := i - |a.steps|;
        assert StepAt(b, j, inTime);
        assert h.ts[i] == b.ts[j] && h.ts[i + 1] == b.ts[j + 1];
      }
    }
  }

  lemma ThenUnserved(a: History, b: History, t0: Table, t1: Table, t2: Table, inTime: bool, k: Key)
    requires Leads(a, t0, t1, inTime) && Leads(b, t1, t2, inTime) && Unserved(Then(a, b), k)
    ensures Unserved(a, k) && Unserved(b, k)
  {
    hide Serves;
    var h := Then(a, b);
    forall i | 0 <= i < |a.steps|
      ensures !Serves(a.steps[i], a.ts[i + 1], k)
    {
      assert h.steps[i] == a.steps[i] && h.ts[i + 1] == a.ts[i + 1];
    }
    forall j | 0 <= j < |b.steps|
      ensures !Serves(b.steps[j], b.ts[j + 1], k)
    {
      var i := |a.steps| + j;
      assert h.steps[i] == b.steps[j] && h.ts[i + 1] == b.ts[j + 1];
    }
  }

  lemma {:induction false} KicksSum(a: seq<QueueStep>, b: seq<QueueStep>, repo: string)
    ensures Kicks(a + b, repo) == Kicks(a, repo) + Kicks(b, repo)
    decreases |b|
  {
    if b == [] {
      assert a + b == a;
    } else {
      assert ButLast(a + b) == a + ButLast(b) && Last(a + b) == Last(b);
      KicksSum(a, ButLast(b), repo);
    }
  }

  /** What has been handled kicks often enough for every row still unserved. */
  ghost predicate KeepsUp(cfg: Config, h: History, before: Table, calls: seq<LandingProgram.Call>)
    requires |h.ts| == |h.steps| + 1
  {
    cfg.enabled ==> forall k | k in before && Unserved(h, k) :: PokeCount(calls, k) <= Kicks(h.steps, k.repo)
  }

  lemma KeepsUpNext(cfg: Config, h: History, b: History, before: Table, mid: Table, after: Table,
                    calls: seq<LandingProgram.Call>, call: LandingProgram.Call)
    requires Leads(h, before, mid, true) && Leads(b, mid, after, true)
    requires KeepsUp(cfg, h, before, calls) && StepsOf(cfg, call, mid, b.steps)
    ensures |Then(h, b).ts| == |Then(h, b).steps| + 1 && KeepsUp(cfg, Then(h, b), before, calls + [call])
  {
    hide Happens, InTime, Serves, Leads, Unserved, StepsOf;
    LeadsShape(h, before, mid);
    LeadsShape(b, mid, after);
    ThenLeads(h, b, before, mid, after, true);
    assert |Then(h, b).ts| == |Then(h, b).steps| + 1 by { LeadsShape(Then(h, b), before, after); }
    assert ButLast(calls + [call]) == calls;
    forall k | cfg.enabled && k in before && Unserved(Then(h, b), k)
      ensures PokeCount(calls + [call], k) <= Kicks(Then(h, b).steps, k.repo)
    {
      ThenUnserved(h, b, before, mid, after, true, k);
      RankFallsAlong(h, before, mid, k);
      KicksSum(h.steps, b.steps, k.repo);
      if Pokes(call, k) {
        PokeKicks(cfg, call, mid, b.steps, k);
      }
    }
  }

  lemma LeadsShape(h: History, t0: Table, t1: Table)
    requires Leads(h, t0, t1, true)
    ensures |h.ts| == |h.steps| + 1
  {
  }

  lemma NothingHandled(cfg: Config, t: Table)
    ensures Leads(History([t], []), t, t, true) && KeepsUp(cfg, History([t], []), t, [])
    ensures Handled(cfg, [], [], t, t) && NoneFailed([])
  {
  }

  /** Once a row was poked more often than its rank, it has been served. */
  lemma PokedIsServed(cfg: Config, h: History, before: Table, after: Table, calls: seq<LandingProgram.Call>, k: Key)
    requires Leads(h, before, after, true) && KeepsUp(cfg, h, before, calls)
    requires cfg.enabled && k in before && PokeCount(calls, k) > Rank(before, k)
    ensures !Unserved(h, k)
  {
    NoStarvation(h, before, after, k);
  }

  /** One handled event: a run of the program from its entry point to its end. */
  predicate RunsOf(cfg: Config, call: LandingProgram.Call, trace: seq<Event>) {
    trace != [] && trace[0] == Called(call) && Follow(cfg, trace) == Some(Done)
  }

  /** What the effects of several calls, one after the other, make of the queue. */
  function OnEach(t: Table, traces: seq<seq<Event>>): Table {
    if traces == [] then t else OnAll(OnEach(t, ButLast(traces)), Last(traces))
  }

  predicate NoneFailed(traces: seq<seq<Event>>) {
    forall i :: 0 <= i < |traces| ==> Failures(traces[i]) == 0
  }

  /** The logs of the calls handled so far. */
  predicate Handled(cfg: Config, calls: seq<LandingProgram.Call>, traces: seq<seq<Event>>, before: Table, now: Table) {
    && |traces| == |calls| && OnEach(before, traces) == now
    && forall i :: 0 <= i < |calls| ==> RunsOf(cfg, calls[i], traces[i])
  }

  lemma HandledNext(cfg: Config, calls: seq<LandingProgram.Call>, traces: seq<seq<Event>>, before: Table, mid: Table,
                    call: LandingProgram.Call, trace: seq<Event>)
    requires Handled(cfg, calls, traces, before, mid) && RunsOf(cfg, call, trace)
    ensures Handled(cfg, calls + [call], traces + [trace], before, OnAll(mid, trace))
    ensures NoneFailed(traces + [trace]) <==> NoneFailed(traces) && Failures(trace) == 0
  {
    hide Follow, OnAll, Failures, RunsOf;
    var next := traces + [trace];
    assert ButLast(next) == traces;
    if NoneFailed(next) {
      assert Failures(next[|traces|]) == 0;
      assert forall i :: 0 <= i < |traces| ==> traces[i] == next[i];
    }
  }

  /** Webhook events, handled one after the other. With a ticking clock and no effect failing,
      every queued row that was poked more often than its rank has been served: some kick acted
      on it, or it left the queue. */
  method HandleAll(cfg: Config, store: Store, calls: seq<LandingProgram.Call>, answering: bool)
    returns (ghost traces: seq<seq<Event>>, ghost h: History)
    requires store.Valid() && store.ticking && Boot !in calls
    modifies store
    ensures store.Valid() && Handled(cfg, calls, traces, old(store.rows), store.rows)
    ensures store.reliable && answering ==> NoneFailed(traces)
    ensures NoneFailed(traces) ==> Leads(h, old(store.rows), store.rows, true)
    ensures NoneFailed(traces) && cfg.enabled ==>
              forall k | k in old(store.rows) && PokeCount(calls, k) > Rank(old(store.rows), k) :: !Unserved(h, k)
  {
    hide Leads, KeepsUp, StepsOf, Unserved, PokeCount, Rank, Follow, OnAll, Failures, NoneFailed, Handled;
    ghost var before := store.rows;
    traces, h := [], History([before], []);
    NothingHandled(cfg, before);
    LeadsShape(h, before, before);
    var i := 0;
    while i < |calls|
      invariant 0 <= i <= |calls| && store.Valid()
      invariant Handled(cfg, calls[..i], traces, before, store.rows)
      invariant store.reliable && answering ==> NoneFailed(traces)
      invariant NoneFailed(traces) ==> Leads(h, before, store.rows, true) && |h.ts| == |h.steps| + 1
      invariant NoneFailed(traces) ==> KeepsUp(cfg, h, before, calls[..i])
    {
      ghost var mid, b := store.rows, h;
      var call := new Coordinator.Call(cfg, store, answering);
      var ok;
      match calls[i] {
        case Approval(key) => ok, b := call.EnqueueOnApproval(key);
        case GreenCi(key) => ok, b := call.OnCiGreen(key);
        case RedCi(key) => ok, b := call.OnCiRed(key);
        case Boot => assert false;
      }
      assert calls[..i + 1] == calls[..i] + [calls[i]];
      HandledNext(cfg, calls[..i], traces, before, mid, calls[i], call.trace);
      if NoneFailed(traces) && Failures(call.trace) == 0 {
        LeadsShape(b, mid, store.rows);
        ThenLeads(h, b, before, mid, store.rows, true);
        KeepsUpNext(cfg, h, b, before, mid, store.rows, calls[..i], calls[i]);
        h := Then(h, b);
      }
      traces := traces + [call.trace];
      i := i + 1;
    }
    assert calls[..|calls|] == calls;
    forall k | NoneFailed(traces) && cfg.enabled && k in before && PokeCount(calls, k) > Rank(before, k)
      ensures !Unserved(h, k)
    {
      PokedIsServed(cfg, h, before, store.rows, calls, k);
    }
  }

  /** The clock premise matters, and stamps are whole seconds: a head with the lower number
      that is touched within the second of the row behind it stays the head. */
  lemma SameSecondKeepsTheHead(t0: Table, a: Key, b: Key, now: int)
    requires t0.Keys == {a, b} && a.repo == b.repo && a.pr < b.pr
    requires t0[a].updatedAt <= t0[b].updatedAt == now
    ensures forall status, head, attempt ::
              var t1 := Advanced(t0, a, status, head, attempt, now); Rank(t1, b) == Rank(t0, b) == 1
  {
    forall t: Table | t.Keys == {a, b} && t[a].updatedAt <= t[b].updatedAt
      ensures Rank(t, b) == 1
    {
      assert Ahead(t, b) == {a};
    }
  }
}
