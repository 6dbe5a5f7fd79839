/** The daemon's retry queue: claims, backoff timers that are never cancelled, and their fires. */
module RetryQueue {
  import opened Prelude

  // ---- Backoff -------------------------------------------------------------

  function Pow2(k: nat): (p: nat)
    ensures p >= 1
  {
    if k == 0 then 1 else 2 * Pow2(k - 1)
  }

  function BackoffMs(attempt: nat, maxBackoff: nat): nat {
    var exp := Min(Max(attempt - 1, 0), 20);
    var base := Min(10000 * Pow2(exp), U64_MAX);
    Min(base, Max(maxBackoff, 1000))
  }

  lemma {:induction false} Pow2Grows(a: nat, b: nat)
    requires a <= b
    ensures Pow2(a) <= Pow2(b)
    decreases b
  {
    if a < b {
      Pow2Grows(a, b - 1);
    }
  }

  lemma Pow2Of20()
    ensures Pow2(20) == 0x10_0000
  {
    assert Pow2(5) == 32;
    assert Pow2(10) == 1024 by { assert Pow2(10) == 32 * Pow2(5); }
    assert Pow2(15) == 32 * Pow2(10);
    assert Pow2(20) == 32 * Pow2(15);
  }

  /** Every backoff lies between the first one and the cap, both bounded by the cap; it never
      saturates and fits a signed 64-bit number; up to attempt 21 it is the doubling the
      specification gives, but with a cap of at least one second. */
  lemma BackoffBounds(attempt: nat, maxBackoff: nat)
    ensures var cap := Max(maxBackoff, 1000);
      && Min(10000, cap) <= BackoffMs(attempt, maxBackoff) <= cap
      && (1 <= attempt <= 21 ==> BackoffMs(attempt, maxBackoff) == Min(10000 * Pow2(attempt - 1), cap))
      && (attempt > 21 ==> BackoffMs(attempt, maxBackoff) == BackoffMs(21, maxBackoff))
      && BackoffMs(attempt, maxBackoff) < 0x8000_0000_0000_0000
  {
    var exp := Min(Max(attempt - 1, 0), 20);
    Pow2Grows(exp, 20);
    Pow2Of20();
  }

  lemma BackoffGrows(a: nat, b: nat, maxBackoff: nat)
    requires a <= b
    ensures BackoffMs(a, maxBackoff) <= BackoffMs(b, maxBackoff)
  {
    Pow2Grows(Min(Max(a - 1, 0), 20), Min(Max(b - 1, 0), 20));
  }

  // ---- The machine ---------------------------------------------------------

  type Id = string

  datatype Entry = Entry(attempt: nat, due: int)

  /** A sleeping task that will fire for an issue. Nothing ever cancels one. */
  datatype Timer = Timer(id: Id, due: int)

  /** A fire that took an entry out of the map: it is asking the tracker, or was told that it
      could not dispatch and has to put the entry back. */
  datatype Stage = Asking | MustRequeue

  datatype Flight = Flight(id: Id, attempt: nat, stage: Stage)

  /** A worker task, with the attempt it was started for. It may outlive its run: a stalled or
      terminated run is only forgotten, its task goes on. */
  datatype Worker = Worker(id: Id, attempt: Option<nat>)

  datatype State = State(
    now: int,
    claimed: set<Id>,
    retries: map<Id, Entry>,
    running: map<Id, Option<nat>>,
    timers: multiset<Timer>,
    flights: multiset<Flight>,
    workers: multiset<Worker>)

  const START: State := State(0, {}, map[], map[], multiset{}, multiset{}, multiset{})

  function Scheduled(s: State, id: Id, attempt: nat, delay: int): State {
    var due := s.now + delay;
    s.(claimed := s.claimed + {id},
       retries := s.retries[id := Entry(attempt, due)],
       timers := s.timers + multiset{Timer(id, due)})
  }

  function NextAttempt(attempt: Option<nat>): nat {
    1 + if attempt.Some? then attempt.value else 0
  }

  datatype DispatchOutcome = Dispatched | NoSlot | Skipped

  /** What `dispatch_one` answers; `attempt` is present for a retry. */
  function Verdict(s: State, id: Id, attempt: Option<nat>, eligible: bool, slot: bool): DispatchOutcome {
    if !eligible || id in s.running then Skipped
    else if id in s.claimed && attempt.None? then Skipped
    else if !slot then NoSlot
    else Dispatched
  }

  function Dispatch(s: State, id: Id, attempt: Option<nat>): State {
    s.(claimed := s.claimed + {id},
       running := s.running[id := attempt],
       retries := s.retries - {id},
       workers := s.workers + multiset{Worker(id, attempt)})
  }

  datatype Step =
    | Pass(ms: nat)                                         // time passes
    | Poll(id: Id, eligible: bool, slot: bool)              // a poll tick looks at a candidate
    | Fire(t: Timer)                                        // a timer wakes up
    | FetchFailed(f: Flight)                                // ... and cannot ask the tracker
    | Gone(f: Flight)                                       // ... and the issue is not active
    | Redispatch(f: Flight, eligible: bool, slot: bool)     // ... and tries to dispatch it
    | Requeue(f: Flight)                                    // ... and puts it back
    | Exit(w: Worker, normal: bool)                         // a worker task ends
    | Stall(id: Id)                                         // a run is found stalled
    | Terminate(id: Id)                                     // a run's issue left the active states

  predicate Enabled(s: State, step: Step) {
    match step
    case Pass(_) => true
    case Poll(_, _, _) => true
    case Fire(t) => t in s.timers && t.due <= s.now
    case FetchFailed(f) => f in s.flights && f.stage == Asking
    case Gone(f) => f in s.flights && f.stage == Asking
    case Redispatch(f, _, _) => f in s.flights && f.stage == Asking
    case Requeue(f) => f in s.flights && f.stage == MustRequeue
    case Exit(w, _) => w in s.workers
    case Stall(id) => id in s.running
    case Terminate(id) => id in s.running
  }

  function Popped(s: State, id: Id): State {
    if id !in s.retries then s
    else s.(retries := s.retries - {id}, flights := s.flights + multiset{Flight(id, s.retries[id].attempt, Asking)})
  }

  function PutBack(s: State, f: Flight, maxBackoff: nat): State {
    Scheduled(s.(flights := s.flights - multiset{f}), f.id, f.attempt + 1, BackoffMs(f.attempt + 1, maxBackoff))
  }

  function Retried(s: State, f: Flight, eligible: bool, slot: bool): State {
    if Verdict(s, f.id, Some(f.attempt), eligible, slot).Dispatched?
    then Dispatch(s.(flights := s.flights - multiset{f}), f.id, Some(f.attempt))
    else s.(flights := s.flights - multiset{f} + multiset{f.(stage := MustRequeue)})
  }

  function Exited(s: State, w: Worker, normal: bool, maxBackoff: nat): State {
    var next := NextAttempt(w.attempt);
    Scheduled(s.(workers := s.workers - multiset{w}, running := s.running - {w.id}),
              w.id, next, if normal then 1000 else BackoffMs(next, maxBackoff))
  }

  function Next(s: State, step: Step, maxBackoff: nat): State
    requires Enabled(s, step)
  {
    match step
    case Pass(ms) => s.(now := s.now + ms)
    case Poll(id, eligible, slot) =>
      if Verdict(s, id, None, eligible, slot).Dispatched? then Dispatch(s, id, None) else s
    case Fire(t) => Popped(s.(timers := s.timers - multiset{t}), t.id)
    case FetchFailed(f) => PutBack(s, f, maxBackoff)
    case Gone(f) => s.(flights := s.flights - multiset{f}, claimed := s.claimed - {f.id})
    case Redispatch(f, eligible, slot) => Retried(s, f, eligible, slot)
    case Requeue(f) => PutBack(s, f, maxBackoff)
    case Exit(w, normal) => Exited(s, w, normal, maxBackoff)
    case Stall(id) =>
      var next := NextAttempt(s.running[id]);
      Scheduled(s.(running := s.running - {id}), id, next, BackoffMs(next, maxBackoff))
    case Terminate(id) =>
      s.(running := s.running - {id}, claimed := s.claimed - {id}, retries := s.retries - {id})
  }

  // ---- What always holds ---------------------------------------------------

  ghost predicate InFlight(s: State, id: Id) {
    exists f :: f in s.flights && f.id == id
  }

  /** Every entry has its own timer at its due time, and every claim is somebody's: a run's, an
      entry's or a fire's. */
  ghost predicate Sound(s: State) {
    && (forall id :: id in s.retries ==> Timer(id, s.retries[id].due) in s.timers)
    && (forall id :: id in s.claimed ==> id in s.running || id in s.retries || InFlight(s, id))
  }

  lemma ScheduledIsSound(s: State, id: Id, attempt: nat, delay: int)
    requires Sound(s.(claimed := s.claimed - {id}, retries := s.retries - {id}))
    ensures Sound(Scheduled(s, id, attempt, delay))
  {
    var s0, s' := s.(claimed := s.claimed - {id}, retries := s.retries - {id}), Scheduled(s, id, attempt, delay);
    forall i | i in s'.claimed
      ensures i in s'.running || i in s'.retries || InFlight(s', i)
    {
      if i != id {
        assert i in s0.claimed;
        if InFlight(s0, i) {
          var f :| f in s0.flights && f.id == i;
          assert f in s'.flights;
        }
      }
    }
    forall i | i in s'.retries
      ensures Timer(i, s'.retries[i].due) in s'.timers
    {
      if i != id {
        assert i in s0.retries;
      }
    }
  }

  lemma FlightIs(s: State, f: Flight)
    requires f in s.flights
    ensures InFlight(s, f.id)
  {
  }

  /** One fire less: only the claim of its issue can become nobody's. */
  lemma FlightsOfOthers(s: State, f: Flight, id: Id)
    requires id != f.id && InFlight(s, id)
    ensures InFlight(s.(flights := s.flights - multiset{f}), id)
  {
    var g :| g in s.flights && g.id == id;
    assert g in s.flights - multiset{f};
  }

  /** The part of soundness that does not concern one issue. */
  ghost predicate SoundBut(s: State, id: Id) {
    && (forall i :: i in s.retries && i != id ==> Timer(i, s.retries[i].due) in s.timers)
    && (forall i :: i in s.claimed && i != id ==> i in s.running || i in s.retries || InFlight(s, i))
  }

  lemma SoundButScheduled(s: State, id: Id, attempt: nat, delay: int)
    requires SoundBut(s, id)
    ensures Sound(Scheduled(s, id, attempt, delay))
  {
    ForgottenFlights(s, id);
    ScheduledIsSound(s, id, attempt, delay);
  }

  lemma ForgottenFlights(s: State, id: Id)
    requires SoundBut(s, id)
    ensures Sound(s.(claimed := s.claimed - {id}, retries := s.retries - {id}))
  {
    var s0 := s.(claimed := s.claimed - {id}, retries := s.retries - {id});
    forall i | i in s0.claimed
      ensures i in s0.running || i in s0.retries || InFlight(s0, i)
    {
      assert i in s.claimed && i != id;
      if InFlight(s, i) {
        var f :| f in s.flights && f.id == i;
        assert f in s0.flights;
      }
    }
  }

  /** Taking a fire, a run or a worker of one issue away leaves the others as they are. */
  lemma SoundWithout(s: State, id: Id, s': State)
    requires Sound(s)
    requires s'.retries == s.retries && s'.timers == s.timers && s'.claimed == s.claimed
    requires forall i :: i in s.running && i != id ==> i in s'.running
    requires forall f :: f in s.flights && f.id != id ==> f in s'.flights
    ensures SoundBut(s', id)
  {
    forall i | i in s'.claimed && i != id
      ensures i in s'.running || i in s'.retries || InFlight(s', i)
    {
      if InFlight(s, i) {
        var f :| f in s.flights && f.id == i;
        assert f in s'.flights;
      }
    }
  }

  lemma FireIsSound(s: State, t: Timer)
    requires Sound(s)
    ensures Sound(Popped(s.(timers := s.timers - multiset{t}), t.id))
  {
    var s' := Popped(s.(timers := s.timers - multiset{t}), t.id);
    forall i | i in s'.retries
      ensures Timer(i, s'.retries[i].due) in s'.timers
    {
      assert i in s.retries && i != t.id;
    }
    forall i | i in s'.claimed
      ensures i in s'.running || i in s'.retries || InFlight(s', i)
    {
      if InFlight(s, i) {
        var f :| f in s.flights && f.id == i;
        assert f in s'.flights;
      } else if i in s.retries && i == t.id {
        assert Flight(i, s.retries[i].attempt, Asking) in s'.flights;
      }
    }
  }

  lemma DispatchIsSound(s: State, id: Id, attempt: Option<nat>)
    requires SoundBut(s, id)
    ensures Sound(Dispatch(s, id, attempt))
  {
    var s' := Dispatch(s, id, attempt);
    forall i | i in s'.claimed
      ensures i in s'.running || i in s'.retries || InFlight(s', i)
    {
      if i != id && InFlight(s, i) {
        var f :| f in s.flights && f.id == i;
        assert f in s'.flights;
      }
    }
  }

  /** Every step of anybody keeps the queue sound: no entry waits for a timer that will not come,
      and no claim is left behind. */
  lemma StepIsSound(s: State, step: Step, maxBackoff: nat)
    requires Sound(s) && Enabled(s, step)
    ensures Sound(Next(s, step, maxBackoff))
  {
    hide Sound, BackoffMs, Scheduled, Dispatch, SoundBut, InFlight, Popped, Verdict;
    var s' := Next(s, step, maxBackoff);
    match step {
      case Pass(ms) =>
        SameExceptClock(s, s');
      case Poll(id, eligible, slot) =>
        if Verdict(s, id, None, eligible, slot).Dispatched? {
          SoundWithout(s, id, s);
          DispatchIsSound(s, id, None);
        }
      case Fire(t) => FireIsSound(s, t);
      case FetchFailed(f) => PutBackIsSound(s, f, maxBackoff);
      case Gone(f) => GoneIsSound(s, f);
      case Redispatch(f, eligible, slot) => RetriedIsSound(s, f, eligible, slot);
      case Requeue(f) => PutBackIsSound(s, f, maxBackoff);
      case Exit(w, normal) =>
        var mid := s.(workers := s.workers - multiset{w}, running := s.running - {w.id});
        var next := NextAttempt(w.attempt);
        SoundWithout(s, w.id, mid);
        SoundButScheduled(mid, w.id, next, if normal then 1000 else BackoffMs(next, maxBackoff));
      case Stall(id) =>
        var mid := s.(running := s.running - {id});
        var next := NextAttempt(s.running[id]);
        SoundWithout(s, id, mid);
        SoundButScheduled(mid, id, next, BackoffMs(next, maxBackoff));
      case Terminate(id) =>
        var mid := s.(running := s.running - {id});
        SoundWithout(s, id, mid);
        ForgottenFlights(mid, id);
    }
  }

  lemma SameExceptClock(s: State, s': State)
    requires Sound(s) && s' == s.(now := s'.now)
    ensures Sound(s')
  {
    forall i | InFlight(s, i)
      ensures InFlight(s', i)
    {
      var f :| f in s.flights && f.id == i;
      assert f in s'.flights;
    }
  }

  lemma PutBackIsSound(s: State, f: Flight, maxBackoff: nat)
    requires Sound(s)
    ensures Sound(PutBack(s, f, maxBackoff))
  {
    hide Sound, BackoffMs, Scheduled, SoundBut;
    var mid := s.(flights := s.flights - multiset{f});
    SoundWithout(s, f.id, mid);
    SoundButScheduled(mid, f.id, f.attempt + 1, BackoffMs(f.attempt + 1, maxBackoff));
  }

  lemma GoneIsSound(s: State, f: Flight)
    requires Sound(s)
    ensures Sound(s.(flights := s.flights - multiset{f}, claimed := s.claimed - {f.id}))
  {
    var mid := s.(flights := s.flights - multiset{f});
    var s' := mid.(claimed := s.claimed - {f.id});
    SoundWithout(s, f.id, mid);
    forall i | i in s'.claimed
      ensures i in s'.running || i in s'.retries || InFlight(s', i)
    {
      assert i in mid.claimed && i != f.id;
      if InFlight(mid, i) {
        var g :| g in mid.flights && g.id == i;
        assert g in s'.flights;
      }
    }
  }

  lemma RetriedIsSound(s: State, f: Flight, eligible: bool, slot: bool)
    requires Sound(s) && f in s.flights
    ensures Sound(Retried(s, f, eligible, slot))
  {
    hide Sound, Dispatch, SoundBut, Verdict;
    var mid := s.(flights := s.flights - multiset{f});
    SoundWithout(s, f.id, mid);
    if Verdict(s, f.id, Some(f.attempt), eligible, slot).Dispatched? {
      DispatchIsSound(mid, f.id, Some(f.attempt));
    } else {
      BackInFlight(s, f);
    }
  }

  lemma BackInFlight(s: State, f: Flight)
    requires Sound(s) && f in s.flights
    ensures Sound(s.(flights := s.flights - multiset{f} + multiset{f.(stage := MustRequeue)}))
  {
    var g := f.(stage := MustRequeue);
    var s' := s.(flights := s.flights - multiset{f} + multiset{g});
    forall i | i in s'.claimed
      ensures i in s'.running || i in s'.retries || InFlight(s', i)
    {
      if InFlight(s, i) {
        var h :| h in s.flights && h.id == i;
        assert g in s'.flights;
        if h != f {
          assert h in s'.flights;
        }
      }
    }
  }

  /** A claimed issue that neither runs nor is in flight waits for a timer; once its due time has
      come, that timer can fire, and it takes the entry out. */
  lemma NotStranded(s: State, id: Id, maxBackoff: nat)
    requires Sound(s) && id in s.claimed && id !in s.running && !InFlight(s, id)
    ensures id in s.retries
    ensures var t := Timer(id, s.retries[id].due);
      var later := Next(s, Pass(Max(t.due - s.now, 0)), maxBackoff);
      && Enabled(later, Fire(t))
      && Flight(id, s.retries[id].attempt, Asking) in Next(later, Fire(t), maxBackoff).flights
  {
  }

  // ---- What holds without leftover workers ---------------------------------

  /** An issue is in at most one place, all places are claimed, and timers are just those of the
      entries: none is left over. */
  ghost predicate Tidy(s: State) {
    && (forall id :: id in s.retries ==> id in s.claimed && id !in s.running && !InFlight(s, id))
    && (forall id :: id in s.running ==> id in s.claimed && !InFlight(s, id))
    && (forall f :: f in s.flights ==> f.id in s.claimed && s.flights[f] == 1)
    && (forall f, g :: f in s.flights && g in s.flights && f.id == g.id ==> f == g)
    && (forall t: Timer :: s.timers[t] == if t.id in s.retries && s.retries[t.id].due == t.due then 1 else 0)
  }

  /** The one way to untidiness: a worker ends although its issue already waits for a retry or is
      being retried. Such a worker outlived its run. */
  ghost predicate Disturbs(s: State, step: Step) {
    step.Exit? && (step.w.id in s.retries || InFlight(s, step.w.id))
  }

  /** In a tidy queue, scheduling an issue that is nowhere else keeps it tidy. */
  lemma ScheduledIsTidy(s: State, id: Id, attempt: nat, delay: int)
    requires Tidy(s.(claimed := s.claimed + {id})) && id !in s.retries && id !in s.running && !InFlight(s, id)
    ensures Tidy(Scheduled(s, id, attempt, delay))
  {
    var s0, s' := s.(claimed := s.claimed + {id}), Scheduled(s, id, attempt, delay);
    SameFlights(s, s0);
    SameFlights(s0, s');
    ScheduledTimers(s, id, attempt, delay);
  }

  lemma ScheduledTimers(s: State, id: Id, attempt: nat, delay: int)
    requires id !in s.retries
    requires forall t: Timer :: s.timers[t] == if t.id in s.retries && s.retries[t.id].due == t.due then 1 else 0
    ensures var s' := Scheduled(s, id, attempt, delay);
      forall t: Timer :: s'.timers[t] == if t.id in s'.retries && s'.retries[t.id].due == t.due then 1 else 0
  {
    var s' := Scheduled(s, id, attempt, delay);
    forall t: Timer
      ensures s'.timers[t] == if t.id in s'.retries && s'.retries[t.id].due == t.due then 1 else 0
    {
      assert s'.timers[t] == s.timers[t] + if t == Timer(id, s.now + delay) then 1 else 0;
    }
  }

  lemma SameFlights(s: State, s': State)
    requires s'.flights == s.flights
    ensures forall id :: InFlight(s', id) <==> InFlight(s, id)
  {
    forall id
      ensures InFlight(s', id) <==> InFlight(s, id)
    {
      if InFlight(s, id) {
        var f :| f in s.flights && f.id == id;
        assert f in s'.flights;
      }
      if InFlight(s', id) {
        var f :| f in s'.flights && f.id == id;
        assert f in s.flights;
      }
    }
  }

  /** A tidy queue with one of its fires taken away. */
  lemma WithoutFlight(s: State, f: Flight)
    requires Tidy(s) && f in s.flights
    ensures var s' := s.(flights := s.flights - multiset{f});
      && Tidy(s') && !InFlight(s', f.id) && f.id in s.claimed && f.id !in s.running && f.id !in s.retries
  {
    var s' := s.(flights := s.flights - multiset{f});
    assert InFlight(s, f.id);
    forall id
      ensures InFlight(s', id) <==> InFlight(s, id) && id != f.id
    {
      if InFlight(s', id) {
        var g :| g in s'.flights && g.id == id;
        assert g in s.flights && g != f;
      }
      if InFlight(s, id) && id != f.id {
        FlightsOfOthers(s, f, id);
      }
    }
    forall g | g in s'.flights
      ensures g.id in s'.claimed && s'.flights[g] == 1
    {
      assert g in s.flights && g != f;
    }
  }

  /** A tidy queue with a run taken away. */
  lemma WithoutRun(s: State, id: Id)
    requires Tidy(s)
    ensures Tidy(s.(running := s.running - {id}))
  {
    SameFlights(s, s.(running := s.running - {id}));
  }

  lemma PutBackIsTidy(s: State, f: Flight, maxBackoff: nat)
    requires Tidy(s) && f in s.flights
    ensures Tidy(PutBack(s, f, maxBackoff))
  {
    hide Tidy, BackoffMs, Scheduled, InFlight;
    var mid := s.(flights := s.flights - multiset{f});
    WithoutFlight(s, f);
    assert mid.(claimed := mid.claimed + {f.id}) == mid by {
      assert mid.claimed + {f.id} == mid.claimed;
    }
    ScheduledIsTidy(mid, f.id, f.attempt + 1, BackoffMs(f.attempt + 1, maxBackoff));
  }

  lemma DispatchIsTidy(s: State, id: Id, attempt: Option<nat>)
    requires Tidy(s) && id !in s.running && id !in s.retries && !InFlight(s, id)
    ensures Tidy(Dispatch(s, id, attempt))
  {
    var s' := Dispatch(s, id, attempt);
    SameFlights(s, s');
    assert s'.retries == s.retries;
  }

  lemma BackInFlightIsTidy(s: State, f: Flight)
    requires Tidy(s) && f in s.flights && f.stage == Asking
    ensures Tidy(s.(flights := s.flights - multiset{f} + multiset{f.(stage := MustRequeue)}))
  {
    var g := f.(stage := MustRequeue);
    var mid := s.(flights := s.flights - multiset{f});
    WithoutFlight(s, f);
    NewFlightIsTidy(mid, g);
    assert mid.(flights := mid.flights + multiset{g}) == s.(flights := s.flights - multiset{f} + multiset{g});
  }

  lemma NewFlightIsTidy(s: State, g: Flight)
    requires Tidy(s) && !InFlight(s, g.id) && g.id in s.claimed && g.id !in s.running && g.id !in s.retries
    ensures Tidy(s.(flights := s.flights + multiset{g}))
  {
    var s' := s.(flights := s.flights + multiset{g});
    forall id | InFlight(s', id)
      ensures id == g.id || InFlight(s, id)
    {
      var f :| f in s'.flights && f.id == id;
      if f != g {
        assert f in s.flights;
      }
    }
    assert g !in s.flights;
    forall f | f in s'.flights
      ensures f.id in s'.claimed && s'.flights[f] == 1
      ensures f.id == g.id ==> f == g
    {
      if f != g {
        assert f in s.flights;
      }
    }
  }

  lemma FireIsTidy(s: State, t: Timer)
    requires Tidy(s) && t in s.timers
    ensures t.id in s.retries && s.retries[t.id].due == t.due
    ensures Tidy(Popped(s.(timers := s.timers - multiset{t}), t.id))
  {
    var g := Flight(t.id, s.retries[t.id].attempt, Asking);
    var mid := s.(timers := s.timers - multiset{t}, retries := s.retries - {t.id});
    SameFlights(s, mid);
    forall u: Timer
      ensures mid.timers[u] == if u.id in mid.retries && mid.retries[u.id].due == u.due then 1 else 0
    {
      if u == t {
        assert s.timers[t] == 1 && mid.timers[t] == 0;
      } else {
        assert mid.timers[u] == s.timers[u];
      }
    }
    NewFlightIsTidy(mid, g);
  }

  lemma GoneIsTidy(s: State, f: Flight)
    requires Tidy(s) && f in s.flights
    ensures Tidy(s.(flights := s.flights - multiset{f}, claimed := s.claimed - {f.id}))
  {
    var mid := s.(flights := s.flights - multiset{f});
    WithoutFlight(s, f);
    var s' := mid.(claimed := mid.claimed - {f.id});
    SameFlights(mid, s');
    forall g | g in s'.flights
      ensures g.id in s'.claimed
    {
      FlightIs(mid, g);
    }
  }

  /** An issue nobody knows may be claimed. */
  lemma ClaimIsTidy(s: State, id: Id)
    requires Tidy(s)
    ensures Tidy(s.(claimed := s.claimed + {id}))
  {
    SameFlights(s, s.(claimed := s.claimed + {id}));
  }

  lemma ExitIsTidy(s: State, w: Worker, normal: bool, maxBackoff: nat)
    requires Tidy(s) && w.id !in s.retries && !InFlight(s, w.id)
    ensures Tidy(Exited(s, w, normal, maxBackoff))
  {
    hide Tidy, BackoffMs, Scheduled, InFlight;
    var next := NextAttempt(w.attempt);
    var noRun := s.(running := s.running - {w.id});
    WithoutRun(s, w.id);
    var mid := noRun.(workers := s.workers - multiset{w});
    OnlyWorkers(noRun, mid);
    SameFlights(s, mid);
    ClaimIsTidy(mid, w.id);
    ScheduledIsTidy(mid, w.id, next, if normal then 1000 else BackoffMs(next, maxBackoff));
  }

  lemma OnlyWorkers(s: State, s': State)
    requires s' == s.(workers := s'.workers, now := s'.now)
    ensures Tidy(s') <==> Tidy(s)
  {
    SameFlights(s, s');
  }

  lemma StallIsTidy(s: State, id: Id, maxBackoff: nat)
    requires Tidy(s) && id in s.running
    ensures Tidy(Next(s, Stall(id), maxBackoff))
  {
    hide BackoffMs, Scheduled, InFlight;
    var next := NextAttempt(s.running[id]);
    var mid := s.(running := s.running - {id});
    WithoutRun(s, id);
    SameFlights(s, mid);
    ClaimIsTidy(mid, id);
    ScheduledIsTidy(mid, id, next, BackoffMs(next, maxBackoff));
  }

  lemma TerminateIsTidy(s: State, id: Id, maxBackoff: nat)
    requires Tidy(s) && id in s.running
    ensures Tidy(Next(s, Terminate(id), maxBackoff))
  {
    var s' := Next(s, Terminate(id), maxBackoff);
    SameFlights(s, s');
    assert s'.retries == s.retries;
    forall f | f in s'.flights
      ensures f.id in s'.claimed
    {
      FlightIs(s, f);
    }
  }

  /** A worker that ends although its issue waits or is in flight leaves the queue untidy. */
  lemma DisturbedIsUntidy(s: State, w: Worker, normal: bool, maxBackoff: nat)
    requires Tidy(s) && (w.id in s.retries || InFlight(s, w.id))
    ensures !Tidy(Exited(s, w, normal, maxBackoff))
  {
    hide BackoffMs;
    var s' := Exited(s, w, normal, maxBackoff);
    if InFlight(s, w.id) {
      SameFlights(s, s');
      assert w.id in s'.retries;
    } else {
      var t := Timer(w.id, s.retries[w.id].due);
      assert s.timers[t] == 1;
      if s'.retries[w.id].due == t.due {
        assert s'.timers[t] == 2;
      } else {
        assert s'.timers[t] == 1;
      }
    }
  }

  /** Exactly which steps keep a tidy queue tidy. */
  lemma TidyIff(s: State, step: Step, maxBackoff: nat)
    requires Tidy(s) && Enabled(s, step)
    ensures Tidy(Next(s, step, maxBackoff)) <==> !Disturbs(s, step)
  {
    hide BackoffMs, Scheduled, Dispatch, Popped, PutBack, Exited, Tidy, InFlight;
    match step {
      case Pass(ms) => OnlyWorkers(s, Next(s, step, maxBackoff));
      case Poll(id, eligible, slot) =>
        if Verdict(s, id, None, eligible, slot).Dispatched? {
          UnclaimedIsNowhere(s, id);
          DispatchIsTidy(s, id, None);
        }
      case Fire(t) => FireIsTidy(s, t);
      case FetchFailed(f) => PutBackIsTidy(s, f, maxBackoff);
      case Gone(f) => GoneIsTidy(s, f);
      case Redispatch(f, eligible, slot) =>
        if Verdict(s, f.id, Some(f.attempt), eligible, slot).Dispatched? {
          WithoutFlight(s, f);
          DispatchIsTidy(s.(flights := s.flights - multiset{f}), f.id, Some(f.attempt));
        } else {
          BackInFlightIsTidy(s, f);
        }
      case Requeue(f) => PutBackIsTidy(s, f, maxBackoff);
      case Exit(w, normal) =>
        if w.id in s.retries || InFlight(s, w.id) {
          DisturbedIsUntidy(s, w, normal, maxBackoff);
        } else {
          ExitIsTidy(s, w, normal, maxBackoff);
        }
      case Stall(id) => StallIsTidy(s, id, maxBackoff);
      case Terminate(id) => TerminateIsTidy(s, id, maxBackoff);
    }
  }

  lemma UnclaimedIsNowhere(s: State, id: Id)
    requires Tidy(s) && id !in s.claimed
    ensures id !in s.running && id !in s.retries && !InFlight(s, id)
  {
  }

  /** In a tidy queue a timer only ever takes out the entry it was set for, not before its due
      time, and hands on its attempt. */
  lemma FiresInTime(s: State, t: Timer, maxBackoff: nat)
    requires Tidy(s) && Enabled(s, Fire(t))
    ensures t.id in s.retries && s.retries[t.id].due == t.due <= s.now
    ensures var s' := Next(s, Fire(t), maxBackoff);
      && t.id !in s'.retries
      && s'.flights == s.flights + multiset{Flight(t.id, s.retries[t.id].attempt, Asking)}
  {
    FireIsTidy(s, t);
  }

  /** The fire a step is about. */
  predicate IsAbout(step: Step, f: Flight) {
    match step
    case FetchFailed(g) => g == f
    case Gone(g) => g == f
    case Redispatch(g, _, _) => g == f
    case Requeue(g) => g == f
    case _ => false
  }

  /** Nobody else ends a fire. */
  lemma OthersKeepFire(s: State, f: Flight, step: Step, maxBackoff: nat)
    requires Enabled(s, step) && f in s.flights && !IsAbout(step, f)
    ensures f in Next(s, step, maxBackoff).flights
  {
    hide BackoffMs, Scheduled, Popped, PutBack, Retried, Exited, Dispatch;
    match step {
      case Fire(t) => PoppedFlights(s.(timers := s.timers - multiset{t}), t.id, f);
      case FetchFailed(g) => PutBackFlights(s, g, maxBackoff);
      case Requeue(g) => PutBackFlights(s, g, maxBackoff);
      case Redispatch(g, eligible, slot) => RetriedFlights(s, g, eligible, slot, f);
      case Exit(w, normal) => ExitedFlights(s, w, normal, maxBackoff);
      case Stall(id) => StalledFlights(s, id, maxBackoff);
      case Poll(id, _, _) => DispatchedFlights(s, id, None);
      case Pass(_) =>
      case Gone(_) =>
      case Terminate(_) =>
    }
  }

  lemma PoppedFlights(s: State, id: Id, f: Flight)
    requires f in s.flights
    ensures f in Popped(s, id).flights
  {
  }

  lemma PutBackFlights(s: State, g: Flight, maxBackoff: nat)
    ensures PutBack(s, g, maxBackoff).flights == s.flights - multiset{g}
  {
    hide BackoffMs;
  }

  lemma DispatchedFlights(s: State, id: Id, attempt: Option<nat>)
    ensures Dispatch(s, id, attempt).flights == s.flights
  {
  }

  lemma RetriedFlights(s: State, g: Flight, eligible: bool, slot: bool, f: Flight)
    requires f in s.flights && f != g
    ensures f in Retried(s, g, eligible, slot).flights
  {
    hide Verdict;
  }

  lemma ExitedFlights(s: State, w: Worker, normal: bool, maxBackoff: nat)
    ensures Exited(s, w, normal, maxBackoff).flights == s.flights
  {
    hide BackoffMs;
  }

  lemma StalledFlights(s: State, id: Id, maxBackoff: nat)
    requires id in s.running
    ensures Next(s, Stall(id), maxBackoff).flights == s.flights
  {
    hide BackoffMs;
  }

  /** A fire ends in one of three ways: its issue runs with the same attempt, is released, or
      waits again with one attempt more and the backoff of that attempt. In between it may have
      been told to put the entry back, which is all it then can do. */
  lemma FireEnds(s: State, f: Flight, step: Step, maxBackoff: nat)
    requires Tidy(s) && Enabled(s, step) && IsAbout(step, f)
    ensures var s' := Next(s, step, maxBackoff);
      if step.Redispatch? && !Verdict(s, f.id, Some(f.attempt), step.eligible, step.slot).Dispatched?
      then f.(stage := MustRequeue) in s'.flights && Tidy(s')
      else
        && !InFlight(s', f.id)
        && if step.Redispatch? then f.id in s'.running && s'.running[f.id] == Some(f.attempt)
           else if step.Gone? then f.id !in s'.claimed
           else f.id in s'.retries
                && s'.retries[f.id] == Entry(f.attempt + 1, s.now + BackoffMs(f.attempt + 1, maxBackoff))
  {
    hide BackoffMs, Tidy, InFlight, PutBack;
    TidyIff(s, step, maxBackoff);
    WithoutFlight(s, f);
    var mid, s' := s.(flights := s.flights - multiset{f}), Next(s, step, maxBackoff);
    if step.FetchFailed? || step.Requeue? {
      PutBackEnds(s, f, maxBackoff);
    } else if s'.flights == mid.flights {
      SameFlights(mid, s');
    }
  }

  lemma PutBackEnds(s: State, f: Flight, maxBackoff: nat)
    requires !InFlight(s.(flights := s.flights - multiset{f}), f.id)
    ensures var s' := PutBack(s, f, maxBackoff);
      && !InFlight(s', f.id) && f.id in s'.retries
      && s'.retries[f.id] == Entry(f.attempt + 1, s.now + BackoffMs(f.attempt + 1, maxBackoff))
  {
    hide BackoffMs, InFlight;
    SameFlights(s.(flights := s.flights - multiset{f}), PutBack(s, f, maxBackoff));
  }

  // ---- Runs ----------------------------------------------------------------

  ghost predicate IsRun(s: State, steps: seq<Step>, end: State, maxBackoff: nat)
    decreases |steps|
  {
    if steps == [] then end == s
    else Enabled(s, steps[0]) && IsRun(Next(s, steps[0], maxBackoff), steps[1..], end, maxBackoff)
  }

  lemma Prepend(s: State, step: Step, steps: seq<Step>, end: State, maxBackoff: nat)
    requires Enabled(s, step) && IsRun(Next(s, step, maxBackoff), steps, end, maxBackoff)
    ensures IsRun(s, [step] + steps, end, maxBackoff)
  {
    hide Next;
    assert ([step] + steps)[1..] == steps;
  }

  lemma OneStep(s: State, step: Step, end: State, maxBackoff: nat)
    requires Enabled(s, step) && end == Next(s, step, maxBackoff)
    ensures IsRun(s, [step], end, maxBackoff)
  {
    hide Next, Enabled;
    assert [step][1..] == [];
  }

  lemma {:induction false} RunsAreSound(s: State, steps: seq<Step>, end: State, maxBackoff: nat)
    requires Sound(s) && IsRun(s, steps, end, maxBackoff)
    ensures Sound(end)
    decreases |steps|
  {
    hide Sound, Next, Enabled;
    if steps != [] {
      StepIsSound(s, steps[0], maxBackoff);
      RunsAreSound(Next(s, steps[0], maxBackoff), steps[1..], end, maxBackoff);
    }
  }

  /** The workers of `id` are just that of its current run, if it has one. */
  ghost predicate OwnWorker(s: State, id: Id) {
    forall w: Worker :: w.id == id ==> s.workers[w] == if id in s.running && s.running[id] == w.attempt then 1 else 0
  }

  ghost predicate NoLeftovers(s: State) {
    forall id: Id :: OwnWorker(s, id)
  }

  predicate Forgets(step: Step, id: Id) {
    step == Stall(id) || step == Terminate(id)
  }

  /** Only forgetting the run of an issue leaves a worker of it over. */
  lemma LeftoverStep(s: State, step: Step, id: Id, maxBackoff: nat)
    requires OwnWorker(s, id) && Enabled(s, step) && !Forgets(step, id)
    ensures OwnWorker(Next(s, step, maxBackoff), id)
  {
    hide BackoffMs, OwnWorker, InFlight, Dispatch, Scheduled, Exited;
    var s' := Next(s, step, maxBackoff);
    if step.Exit? {
      ExitLeftovers(s, step.w, step.normal, id, maxBackoff);
    } else if step.Poll? {
      if Verdict(s, step.id, None, step.eligible, step.slot).Dispatched? {
        DispatchLeftovers(s, step.id, None, id);
      }
    } else if step.Redispatch? {
      var f := step.f;
      var mid := s.(flights := s.flights - multiset{f});
      SameWorkers(s, mid, id);
      if Verdict(s, f.id, Some(f.attempt), step.eligible, step.slot).Dispatched? {
        DispatchLeftovers(mid, f.id, Some(f.attempt), id);
      } else {
        SameWorkers(s, s', id);
      }
    } else if step.Stall? || step.Terminate? {
      ForgettingSteps(s, step.id, maxBackoff);
      SameWorkers(s, s', id);
    } else {
      QuietStep(s, step, maxBackoff);
      SameWorkers(s, s', id);
    }
  }

  lemma QuietStep(s: State, step: Step, maxBackoff: nat)
    requires Enabled(s, step) && !step.Exit? && !step.Poll? && !step.Redispatch? && !step.Stall? && !step.Terminate?
    ensures var s' := Next(s, step, maxBackoff); s'.workers == s.workers && s'.running == s.running
  {
    hide BackoffMs, Verdict, Retried, Exited, Dispatch;
    match step {
      case Fire(t) => assert Next(s, step, maxBackoff) == Popped(s.(timers := s.timers - multiset{t}), t.id);
      case FetchFailed(f) => assert Next(s, step, maxBackoff) == PutBack(s, f, maxBackoff);
      case Requeue(f) => assert Next(s, step, maxBackoff) == PutBack(s, f, maxBackoff);
      case _ =>
    }
  }

  lemma ForgettingSteps(s: State, id: Id, maxBackoff: nat)
    requires id in s.running
    ensures var a, b := Next(s, Stall(id), maxBackoff), Next(s, Terminate(id), maxBackoff);
      a.workers == b.workers == s.workers && a.running == b.running == s.running - {id}
  {
    hide BackoffMs;
  }

  lemma SameWorkers(s: State, s': State, id: Id)
    requires OwnWorker(s, id) && s'.workers == s.workers && (id in s'.running <==> id in s.running)
    requires id in s.running ==> s'.running[id] == s.running[id]
    ensures OwnWorker(s', id)
  {
  }

  lemma ExitLeftovers(s: State, w: Worker, normal: bool, id: Id, maxBackoff: nat)
    requires OwnWorker(s, id) && w in s.workers
    ensures OwnWorker(Exited(s, w, normal, maxBackoff), id)
  {
    hide BackoffMs;
    var s' := Exited(s, w, normal, maxBackoff);
    forall v: Worker | v.id == id
      ensures s'.workers[v] == if id in s'.running && s'.running[id] == v.attempt then 1 else 0
    {
      assert s'.workers[v] == s.workers[v] - if v == w then 1 else 0;
      assert w.id == id ==> s.workers[w] == 1;
      assert v.id == w.id && v != w ==> v.attempt != w.attempt;
    }
  }

  lemma DispatchLeftovers(s: State, id: Id, attempt: Option<nat>, other: Id)
    requires OwnWorker(s, other) && id !in s.running
    ensures OwnWorker(Dispatch(s, id, attempt), other)
  {
    var s' := Dispatch(s, id, attempt);
    forall v: Worker | v.id == other
      ensures s'.workers[v] == if other in s'.running && s'.running[other] == v.attempt then 1 else 0
    {
      assert s'.workers[v] == s.workers[v] + if v == Worker(id, attempt) then 1 else 0;
    }
  }

  /** While the run of an issue is not forgotten, its workers are just that of its run,
      whatever happens to others. */
  lemma {:induction false} LeftoversAreForgotten(s: State, steps: seq<Step>, end: State, id: Id, maxBackoff: nat)
    requires OwnWorker(s, id) && IsRun(s, steps, end, maxBackoff)
    requires forall i :: 0 <= i < |steps| ==> !Forgets(steps[i], id)
    ensures OwnWorker(end, id)
    decreases |steps|
  {
    hide OwnWorker, Next, Enabled, Forgets;
    if steps != [] {
      LeftoverStep(s, steps[0], id, maxBackoff);
      LeftoversAreForgotten(Next(s, steps[0], maxBackoff), steps[1..], end, id, maxBackoff);
    }
  }

  lemma OwnExitIsQuiet(s: State, step: Step)
    requires Tidy(s) && NoLeftovers(s) && Enabled(s, step)
    ensures !Disturbs(s, step)
  {
    if step.Exit? {
      assert OwnWorker(s, step.w.id);
    }
  }

  /** As long as no run is forgotten under its worker, the queue stays tidy: no issue is waiting
      and in flight at once, and no timer fires early. */
  lemma {:induction false} RunsAreTidy(s: State, steps: seq<Step>, end: State, maxBackoff: nat)
    requires Tidy(s) && NoLeftovers(s) && IsRun(s, steps, end, maxBackoff)
    requires forall i :: 0 <= i < |steps| ==> !steps[i].Stall? && !steps[i].Terminate?
    ensures Tidy(end) && NoLeftovers(end)
    decreases |steps|
  {
    hide Tidy, OwnWorker, Next, Enabled, Disturbs;
    if steps != [] {
      OwnExitIsQuiet(s, steps[0]);
      TidyIff(s, steps[0], maxBackoff);
      forall id: Id
        ensures OwnWorker(Next(s, steps[0], maxBackoff), id)
      {
        LeftoverStep(s, steps[0], id, maxBackoff);
      }
      RunsAreTidy(Next(s, steps[0], maxBackoff), steps[1..], end, maxBackoff);
    }
  }

  lemma StartIsFine()
    ensures Sound(START) && Tidy(START) && NoLeftovers(START) && Accounted(START, {})
    ensures forall id: Id :: Numbered(START, id, 0)
  {
  }

  /** A run found stalled after a minute, whose worker fails five seconds later: the timer of the
      stall then takes out the later entry five seconds before it is due. */
  lemma LeftoverWorkerFiresEarly(id: Id)
    ensures var w := Worker(id, None);
      var steps := [Poll(id, true, true), Pass(60000), Stall(id), Pass(5000), Exit(w, false), Pass(5000)];
      exists end :: IsRun(START, steps, end, 300000) && Enabled(end, Fire(Timer(id, 70000)))
        && id in end.retries && end.retries[id].due == 75000 && end.now == 70000
  {
    var w := Worker(id, None);
    var p := [Poll(id, true, true), Pass(60000), Stall(id), Pass(5000), Exit(w, false), Pass(5000)];
    var end := LateEntry(70000, id);
    hide IsRun, Next, Enabled, LateEntry;
    LateSteps(id);
    OneStep(LateEntry(65000, id), p[5], end, 300000);
    Prepend(Stalled(65000, id), p[4], p[5..], end, 300000);
    Prepend(Stalled(60000, id), p[3], p[4..], end, 300000);
    FirstSteps(id);
    Prepend(Started(60000, id), p[2], p[3..], end, 300000);
    Prepend(Started(0, id), p[1], p[2..], end, 300000);
    Prepend(START, p[0], p[1..], end, 300000);
    TooEarly(id);
  }

  function Started(now: int, id: Id): State {
    State(now, {id}, map[], map[id := None], multiset{}, multiset{}, multiset{Worker(id, None)})
  }

  function Stalled(now: int, id: Id): State {
    State(now, {id}, map[id := Entry(1, 70000)], map[], multiset{Timer(id, 70000)}, multiset{},
          multiset{Worker(id, None)})
  }

  function LateEntry(now: int, id: Id): State {
    State(now, {id}, map[id := Entry(1, 75000)], map[], multiset{Timer(id, 70000), Timer(id, 75000)}, multiset{},
          multiset{})
  }

  lemma FirstSteps(id: Id)
    ensures Next(START, Poll(id, true, true), 300000) == Started(0, id)
    ensures Next(Started(0, id), Pass(60000), 300000) == Started(60000, id)
    ensures Enabled(Started(60000, id), Stall(id))
    ensures Next(Started(60000, id), Stall(id), 300000) == Stalled(60000, id)
  {
    hide BackoffMs;
    FirstBackoff();
    assert START.retries - {id} == map[];
    assert Started(60000, id).running - {id} == map[];
    assert {id} + {id} == {id};
  }

  lemma FirstBackoff()
    ensures BackoffMs(1, 300000) == 10000
  {
    assert Pow2(0) == 1;
  }

  lemma LateSteps(id: Id)
    ensures var w := Worker(id, None);
      && Next(Stalled(60000, id), Pass(5000), 300000) == Stalled(65000, id)
      && Enabled(Stalled(65000, id), Exit(w, false))
      && Next(Stalled(65000, id), Exit(w, false), 300000) == LateEntry(65000, id)
      && Next(LateEntry(65000, id), Pass(5000), 300000) == LateEntry(70000, id)
  {
    hide BackoffMs;
    FirstBackoff();
    var s := Stalled(65000, id);
    assert s.running - {id} == map[];
    assert s.claimed + {id} == {id};
    assert s.workers - multiset{Worker(id, None)} == multiset{};
    assert s.retries[id := Entry(1, 75000)] == map[id := Entry(1, 75000)];
    assert s.timers + multiset{Timer(id, 75000)} == multiset{Timer(id, 70000), Timer(id, 75000)};
  }

  lemma TooEarly(id: Id)
    ensures var end := LateEntry(70000, id);
      Enabled(end, Fire(Timer(id, 70000))) && id in end.retries && end.retries[id].due == 75000 && end.now == 70000
  {
  }

  // ---- Every step of a run ------------------------------------------------

  /** No step of the run is a worker ending although its issue waits or is in flight. */
  ghost predicate Undisturbed(s: State, steps: seq<Step>, maxBackoff: nat)
    decreases |steps|
  {
    steps == [] || (Enabled(s, steps[0]) && !Disturbs(s, steps[0])
                    && Undisturbed(Next(s, steps[0], maxBackoff), steps[1..], maxBackoff))
  }

  ghost predicate TidyThroughout(s: State, steps: seq<Step>, maxBackoff: nat)
    decreases |steps|
  {
    Tidy(s) && (steps == [] || (Enabled(s, steps[0])
                                && TidyThroughout(Next(s, steps[0], maxBackoff), steps[1..], maxBackoff)))
  }

  /** A run that starts tidy is tidy at every point if and only if nothing disturbs it. */
  lemma {:induction false} TidyRunIff(s: State, steps: seq<Step>, end: State, maxBackoff: nat)
    requires Tidy(s) && IsRun(s, steps, end, maxBackoff)
    ensures TidyThroughout(s, steps, maxBackoff) <==> Undisturbed(s, steps, maxBackoff)
    decreases |steps|
  {
    hide Tidy, Next, Enabled, Disturbs;
    if steps != [] {
      TidyIff(s, steps[0], maxBackoff);
      var next := Next(s, steps[0], maxBackoff);
      if Tidy(next) {
        TidyRunIff(next, steps[1..], end, maxBackoff);
      } else {
        assert !TidyThroughout(next, steps[1..], maxBackoff);
      }
    }
  }

  // ---- Workers per issue ---------------------------------------------------

  ghost predicate HasWorker(s: State, id: Id) {
    exists w :: w in s.workers && w.id == id
  }

  /** No issue has two live workers. */
  ghost predicate Single(s: State) {
    forall v: Worker, w: Worker :: v in s.workers && w in s.workers && v.id == w.id ==> v == w && s.workers[v] == 1
  }

  /** The issue the step starts a worker for, if it starts one. */
  function Starts(s: State, step: Step): Option<Id> {
    match step
    case Poll(id, eligible, slot) => if Verdict(s, id, None, eligible, slot).Dispatched? then Some(id) else None
    case Redispatch(f, eligible, slot) =>
      if Verdict(s, f.id, Some(f.attempt), eligible, slot).Dispatched? then Some(f.id) else None
    case _ => None
  }

  /** The issues whose run was stalled or terminated and whose worker has not been heard of
      since. */
  function StillOut(out: set<Id>, step: Step): set<Id> {
    match step
    case Stall(id) => out + {id}
    case Terminate(id) => out + {id}
    case Exit(w, _) => out - {w.id}
    case _ => out
  }

  predicate Restarts(s: State, out: set<Id>, step: Step) {
    var started := Starts(s, step);
    started.Some? && started.value in out
  }

  /** Each issue has one live worker if it has a run or is still out, and else none. */
  ghost predicate Accounted(s: State, out: set<Id>) {
    && Single(s)
    && (forall id: Id :: HasWorker(s, id) <==> id in s.running || id in out)
    && (forall id :: id in out ==> id !in s.running)
  }

  /** A dispatch gives an issue its only worker, or its second one. */
  lemma DispatchAccounted(s: State, out: set<Id>, id: Id, attempt: Option<nat>)
    requires Accounted(s, out) && id !in s.running
    ensures if id in out then !Single(Dispatch(s, id, attempt)) else Accounted(Dispatch(s, id, attempt), out)
  {
    var new_, s' := Worker(id, attempt), Dispatch(s, id, attempt);
    assert new_ in s'.workers;
    assert forall w: Worker :: s'.workers[w] == s.workers[w] + if w == new_ then 1 else 0;
    if id in out {
      assert HasWorker(s, id);
      var w :| w in s.workers && w.id == id;
      assert w in s'.workers && (w == new_ ==> s'.workers[w] >= 2);
    } else {
      assert !HasWorker(s, id);
      assert Single(s') by {
        assert forall w: Worker :: w in s'.workers && w != new_ ==> w in s.workers && w.id != id;
      }
      forall i: Id
        ensures HasWorker(s', i) <==> i in s'.running || i in out
      {
        OthersWorkers(s, s', new_, i);
      }
    }
  }

  lemma OthersWorkers(s: State, s': State, w: Worker, id: Id)
    requires s'.workers == s.workers + multiset{w}
    ensures HasWorker(s', id) <==> HasWorker(s, id) || id == w.id
  {
    if HasWorker(s, id) {
      var v :| v in s.workers && v.id == id;
      assert v in s'.workers;
    }
    assert w in s'.workers;
  }

  lemma ExitWorkers(s: State, s': State, w: Worker, id: Id)
    requires Single(s) && w in s.workers && s'.workers == s.workers - multiset{w}
    ensures Single(s') && (HasWorker(s', id) <==> HasWorker(s, id) && id != w.id)
  {
    assert s.workers[w] == 1;
    assert forall v: Worker :: s'.workers[v] == if v == w then 0 else s.workers[v];
    if HasWorker(s, id) && id != w.id {
      var v :| v in s.workers && v.id == id;
      assert v in s'.workers;
    }
  }

  lemma ExitAccounted(s: State, out: set<Id>, w: Worker, normal: bool, maxBackoff: nat)
    requires Accounted(s, out) && w in s.workers
    ensures Accounted(Exited(s, w, normal, maxBackoff), out - {w.id})
  {
    hide BackoffMs, Single, HasWorker;
    var s' := Exited(s, w, normal, maxBackoff);
    ExitWorkers(s, s', w, w.id);
    forall i: Id
      ensures HasWorker(s', i) <==> i in s'.running || i in out - {w.id}
    {
      ExitWorkers(s, s', w, i);
    }
  }

  lemma SameAccounts(s: State, out: set<Id>, s': State, out': set<Id>)
    requires Accounted(s, out) && s'.workers == s.workers
    requires s'.running.Keys + out' == s.running.Keys + out && s'.running.Keys !! out'
    ensures Accounted(s', out')
  {
    forall id: Id
      ensures HasWorker(s', id) <==> id in s'.running || id in out'
    {
      assert HasWorker(s', id) <==> HasWorker(s, id);
      assert id in s.running.Keys + out <==> id in s'.running.Keys + out';
    }
  }

  /** One step keeps the account; only a restart of an issue that is still out gives it a second
      live worker. */
  lemma AccountStep(s: State, out: set<Id>, step: Step, maxBackoff: nat)
    requires Accounted(s, out) && Enabled(s, step)
    ensures var s' := Next(s, step, maxBackoff);
      if Restarts(s, out, step) then !Single(s') else Accounted(s', StillOut(out, step))
  {
    hide BackoffMs, Single, HasWorker, Dispatch, Exited;
    var s' := Next(s, step, maxBackoff);
    if step.Exit? {
      ExitAccounted(s, out, step.w, step.normal, maxBackoff);
    } else if step.Stall? || step.Terminate? {
      ForgettingSteps(s, step.id, maxBackoff);
      SameAccounts(s, out, s', StillOut(out, step));
    } else if step.Poll? {
      if Starts(s, step).Some? {
        DispatchAccounted(s, out, step.id, None);
      }
    } else if step.Redispatch? {
      var mid := s.(flights := s.flights - multiset{step.f});
      SameAccounts(s, out, mid, out);
      if Starts(s, step).Some? {
        DispatchAccounted(mid, out, step.f.id, Some(step.f.attempt));
      } else {
        SameAccounts(s, out, s', out);
      }
    } else {
      QuietStep(s, step, maxBackoff);
      SameAccounts(s, out, s', out);
    }
  }

  ghost predicate SingleThroughout(s: State, steps: seq<Step>, maxBackoff: nat)
    decreases |steps|
  {
    Single(s) && (steps == [] || (Enabled(s, steps[0])
                                  && SingleThroughout(Next(s, steps[0], maxBackoff), steps[1..], maxBackoff)))
  }

  /** No step of the run starts a worker for an issue between a stall or termination of its run
      and the exit of the worker which that run had started. */
  ghost predicate NeverRestarts(s: State, out: set<Id>, steps: seq<Step>, maxBackoff: nat)
    decreases |steps|
  {
    steps == [] || (Enabled(s, steps[0]) && !Restarts(s, out, steps[0])
                    && NeverRestarts(Next(s, steps[0], maxBackoff), StillOut(out, steps[0]), steps[1..], maxBackoff))
  }

  /** At every point of a run each issue has at most one live worker if and only if none was
      started while the issue was still out. */
  lemma {:induction false} SingleRunIff(s: State, out: set<Id>, steps: seq<Step>, end: State, maxBackoff: nat)
    requires Accounted(s, out) && IsRun(s, steps, end, maxBackoff)
    ensures SingleThroughout(s, steps, maxBackoff) <==> NeverRestarts(s, out, steps, maxBackoff)
    decreases |steps|
  {
    hide Single, HasWorker, Next, Enabled, Restarts, StillOut;
    if steps != [] {
      AccountStep(s, out, steps[0], maxBackoff);
      var next := Next(s, steps[0], maxBackoff);
      if Restarts(s, out, steps[0]) {
        assert !SingleThroughout(next, steps[1..], maxBackoff);
      } else {
        SingleRunIff(next, StillOut(out, steps[0]), steps[1..], end, maxBackoff);
      }
    }
  }

  // ---- Attempts ----------------------------------------------------------------

  /** How often an issue has been scheduled again since it was last dispatched afresh. */
  function Round(s: State, step: Step, id: Id, c: nat): nat {
    match step
    case Poll(_, _, _) => if Starts(s, step) == Some(id) then 0 else c
    case Exit(w, _) => if w.id == id then c + 1 else c
    case FetchFailed(f) => if f.id == id then c + 1 else c
    case Requeue(f) => if f.id == id then c + 1 else c
    case _ => c
  }

  function Rounds(s: State, steps: seq<Step>, id: Id, c: nat, maxBackoff: nat): nat
    decreases |steps|
  {
    if steps == [] || !Enabled(s, steps[0]) then c
    else Rounds(Next(s, steps[0], maxBackoff), steps[1..], id, Round(s, steps[0], id, c), maxBackoff)
  }

  /** Wherever the issue is, it carries the number `c`; a run that carries none is at zero. */
  ghost predicate Numbered(s: State, id: Id, c: nat) {
    && (id in s.retries ==> s.retries[id].attempt == c > 0)
    && (forall f :: f in s.flights && f.id == id ==> f.attempt == c > 0)
    && (id in s.running ==> s.running[id] == if c == 0 then None else Some(c))
  }

  lemma ExitNumbers(s: State, w: Worker, normal: bool, id: Id, c: nat, maxBackoff: nat)
    requires Tidy(s) && OwnWorker(s, w.id) && w in s.workers && Numbered(s, id, c)
    ensures Numbered(Exited(s, w, normal, maxBackoff), id, if w.id == id then c + 1 else c)
  {
    hide BackoffMs;
    assert s.workers[w] > 0;
    if w.id == id {
      forall f | f in s.flights
        ensures f.id != id
      {
        FlightIs(s, f);
      }
    }
  }

  lemma PutBackNumbers(s: State, f: Flight, id: Id, c: nat, maxBackoff: nat)
    requires Tidy(s) && f in s.flights && Numbered(s, id, c)
    ensures Numbered(PutBack(s, f, maxBackoff), id, if f.id == id then c + 1 else c)
  {
    hide BackoffMs;
    FlightIs(s, f);
    assert forall g :: g in s.flights - multiset{f} ==> g in s.flights && (g.id == f.id ==> g == f && s.flights[f] > 1);
  }

  lemma PollNumbers(s: State, i: Id, eligible: bool, slot: bool, id: Id, c: nat)
    requires Tidy(s) && Numbered(s, id, c) && Verdict(s, i, None, eligible, slot).Dispatched?
    ensures Numbered(Dispatch(s, i, None), id, if i == id then 0 else c)
  {
  }

  lemma RetryNumbers(s: State, f: Flight, eligible: bool, slot: bool, id: Id, c: nat)
    requires Tidy(s) && f in s.flights && Numbered(s, id, c)
    ensures Numbered(Retried(s, f, eligible, slot), id, c)
  {
    FlightIs(s, f);
    var s' := Retried(s, f, eligible, slot);
    forall g | g in s'.flights && g.id == id
      ensures g.attempt == c > 0
    {
      assert g in s.flights || g == f.(stage := MustRequeue);
    }
  }

  lemma FireNumbers(s: State, t: Timer, id: Id, c: nat)
    requires Numbered(s, id, c)
    ensures Numbered(Popped(s.(timers := s.timers - multiset{t}), t.id), id, c)
  {
  }

  lemma GoneNumbers(s: State, f: Flight, id: Id, c: nat)
    requires Numbered(s, id, c)
    ensures Numbered(s.(flights := s.flights - multiset{f}, claimed := s.claimed - {f.id}), id, c)
  {
    assert forall g :: g in s.flights - multiset{f} ==> g in s.flights;
  }

  lemma NumberStep(s: State, step: Step, id: Id, c: nat, maxBackoff: nat)
    requires Tidy(s) && NoLeftovers(s) && Numbered(s, id, c) && Enabled(s, step) && !step.Stall? && !step.Terminate?
    ensures Numbered(Next(s, step, maxBackoff), id, Round(s, step, id, c))
  {
    hide BackoffMs, Tidy, OwnWorker, Numbered, Exited, PutBack, Dispatch, Retried, Popped, Verdict;
    match step {
      case Pass(ms) => SameNumbers(s, Next(s, step, maxBackoff), id, c);
      case Poll(i, eligible, slot) =>
        if Verdict(s, i, None, eligible, slot).Dispatched? {
          PollNumbers(s, i, eligible, slot, id, c);
        }
      case Fire(t) => FireNumbers(s, t, id, c);
      case FetchFailed(f) => PutBackNumbers(s, f, id, c, maxBackoff);
      case Gone(f) => GoneNumbers(s, f, id, c);
      case Redispatch(f, eligible, slot) => RetryNumbers(s, f, eligible, slot, id, c);
      case Requeue(f) => PutBackNumbers(s, f, id, c, maxBackoff);
      case Exit(w, normal) => ExitNumbers(s, w, normal, id, c, maxBackoff);
    }
  }

  lemma SameNumbers(s: State, s': State, id: Id, c: nat)
    requires Numbered(s, id, c) && s'.retries == s.retries && s'.flights == s.flights && s'.running == s.running
    ensures Numbered(s', id, c)
  {
  }

  /** While no run is forgotten under its worker, the attempt number an issue carries is the
      number of times it has been scheduled again since its last fresh dispatch: every end of a
      worker and every fire without a dispatch makes it one more, nothing makes it less. */
  lemma {:induction false} AttemptsAreCounted(s: State, steps: seq<Step>, end: State, id: Id, c: nat, maxBackoff: nat)
    requires Tidy(s) && NoLeftovers(s) && Numbered(s, id, c) && IsRun(s, steps, end, maxBackoff)
    requires forall i :: 0 <= i < |steps| ==> !steps[i].Stall? && !steps[i].Terminate?
    ensures Numbered(end, id, Rounds(s, steps, id, c, maxBackoff))
    decreases |steps|
  {
    hide Tidy, OwnWorker, Numbered, Next, Enabled, Disturbs, Round;
    if steps != [] {
      var next := Next(s, steps[0], maxBackoff);
      NumberStep(s, steps[0], id, c, maxBackoff);
      OneStep(s, steps[0], next, maxBackoff);
      RunsAreTidy(s, [steps[0]], next, maxBackoff);
      AttemptsAreCounted(next, steps[1..], end, id, Round(s, steps[0], id, c), maxBackoff);
    }
  }

  /** The daemon from its start: whatever happens, no entry waits for a timer that will not come
      and no claim is left behind; the queue is tidy throughout if and only if no worker ends
      although its issue waits or is in flight, which never happens while no run is stalled or
      terminated, and then the attempt number of each issue is the number of times it was scheduled
      again since its last fresh dispatch; an issue whose run is never stalled nor terminated has the worker of its run
      and no other; and no issue ever has two live workers if and only if none is dispatched
      between a stall or termination of its run and the exit of that run's worker. */
  lemma FromTheStart(steps: seq<Step>, end: State, maxBackoff: nat)
    requires IsRun(START, steps, end, maxBackoff)
    ensures Sound(end)
    ensures TidyThroughout(START, steps, maxBackoff) <==> Undisturbed(START, steps, maxBackoff)
    ensures (forall i :: 0 <= i < |steps| ==> !steps[i].Stall? && !steps[i].Terminate?) ==>
              Tidy(end) && NoLeftovers(end)
              && forall id: Id :: Numbered(end, id, Rounds(START, steps, id, 0, maxBackoff))
    ensures forall id: Id :: (forall i :: 0 <= i < |steps| ==> !Forgets(steps[i], id)) ==> OwnWorker(end, id)
    ensures SingleThroughout(START, steps, maxBackoff) <==> NeverRestarts(START, {}, steps, maxBackoff)
  {
    hide Sound, Tidy, OwnWorker, Accounted, Forgets, Numbered, Rounds;
    hide IsRun, TidyThroughout, Undisturbed, SingleThroughout, NeverRestarts;
    StartIsFine();
    RunsAreSound(START, steps, end, maxBackoff);
    TidyRunIff(START, steps, end, maxBackoff);
    SingleRunIff(START, {}, steps, end, maxBackoff);
    if forall i :: 0 <= i < |steps| ==> !steps[i].Stall? && !steps[i].Terminate? {
      RunsAreTidy(START, steps, end, maxBackoff);
      forall id: Id
        ensures Numbered(end, id, Rounds(START, steps, id, 0, maxBackoff))
      {
        AttemptsAreCounted(START, steps, end, id, 0, maxBackoff);
      }
    }
    forall id: Id | forall i :: 0 <= i < |steps| ==> !Forgets(steps[i], id)
      ensures OwnWorker(end, id)
    {
      LeftoversAreForgotten(START, steps, end, id, maxBackoff);
    }
  }

  function Fired(id: Id): State {
    State(70000, {id}, map[], map[], multiset{}, multiset{Flight(id, 1, Asking)}, multiset{Worker(id, None)})
  }

  lemma FiringSteps(id: Id)
    ensures Next(Stalled(60000, id), Pass(10000), 300000) == Stalled(70000, id)
    ensures Enabled(Stalled(70000, id), Fire(Timer(id, 70000)))
    ensures Next(Stalled(70000, id), Fire(Timer(id, 70000)), 300000) == Fired(id)
  {
    var s := Stalled(70000, id);
    assert s.timers - multiset{Timer(id, 70000)} == multiset{};
    assert s.retries - {id} == map[];
    assert s.flights + multiset{Flight(id, 1, Asking)} == multiset{Flight(id, 1, Asking)};
  }

  lemma FiredIsDoubled(id: Id)
    ensures var f := Flight(id, 1, Asking);
      Enabled(Fired(id), Redispatch(f, true, true)) && !Single(Next(Fired(id), Redispatch(f, true, true), 300000))
  {
    var f, old_, new_ := Flight(id, 1, Asking), Worker(id, None), Worker(id, Some(1));
    var s' := Next(Fired(id), Redispatch(f, true, true), 300000);
    assert s'.workers == multiset{old_, new_};
    assert old_ in s'.workers && new_ in s'.workers;
  }

  /** A run found stalled after a minute, whose next attempt is started ten seconds later while
      the stalled worker still goes on. */
  lemma StalledWorkerIsDoubled(id: Id)
    ensures var steps := [Poll(id, true, true), Pass(60000), Stall(id), Pass(10000), Fire(Timer(id, 70000))];
      var next := Redispatch(Flight(id, 1, Asking), true, true);
      exists end :: IsRun(START, steps, end, 300000) && Enabled(end, next) && !Single(Next(end, next, 300000))
  {
    var p := [Poll(id, true, true), Pass(60000), Stall(id), Pass(10000), Fire(Timer(id, 70000))];
    var end := Fired(id);
    hide IsRun, Next, Enabled, Fired, Single;
    FiringSteps(id);
    OneStep(Stalled(70000, id), p[4], end, 300000);
    assert Enabled(Stalled(60000, id), p[3]) && Enabled(Started(0, id), p[1]) && Enabled(START, p[0]) by {
      AlwaysEnabled(id);
    }
    Prepend(Stalled(60000, id), p[3], p[4..], end, 300000);
    FirstSteps(id);
    Prepend(Started(60000, id), p[2], p[3..], end, 300000);
    Prepend(Started(0, id), p[1], p[2..], end, 300000);
    Prepend(START, p[0], p[1..], end, 300000);
    FiredIsDoubled(id);
  }

  lemma AlwaysEnabled(id: Id)
    ensures forall s: State, ms: nat :: Enabled(s, Pass(ms))
    ensures Enabled(START, Poll(id, true, true))
  {
  }

  /** The end of a run schedules the next attempt, after a second or after its backoff. */
  lemma ExitSchedules(s: State, w: Worker, normal: bool, maxBackoff: nat)
    ensures var s' := Exited(s, w, normal, maxBackoff);
            var next := if w.attempt.Some? then w.attempt.value + 1 else 1;
      && s'.retries == s.retries[w.id := Entry(next, s.now + if normal then 1000 else BackoffMs(next, maxBackoff))]
      && s'.running == s.running - {w.id} && s'.workers == s.workers - multiset{w} && s'.now == s.now
  {
    hide BackoffMs;
  }

  // ---- The orchestrator ----------------------------------------------------

  /** What the tracker answers to a fire: nothing, or whether the issue is an active candidate,
      and if so whether it may be dispatched and whether there is a slot. */
  datatype Answer = NoAnswer | Inactive | Active(eligible: bool, slot: bool)

  function FireSteps(s: State, t: Timer, answer: Answer): seq<Step> {
    if t.id !in s.retries then [Fire(t)]
    else
      var f := Flight(t.id, s.retries[t.id].attempt, Asking);
      match answer
      case NoAnswer => [Fire(t), FetchFailed(f)]
      case Inactive => [Fire(t), Gone(f)]
      case Active(eligible, slot) =>
        if Verdict(s, t.id, Some(f.attempt), eligible, slot).Dispatched? then [Fire(t), Redispatch(f, eligible, slot)]
        else [Fire(t), Redispatch(f, eligible, slot), Requeue(f.(stage := MustRequeue))]
  }

  /** What a fire makes of its issue: without an answer, or where it cannot be dispatched, the entry
      is put back one attempt higher; an inactive issue is let go; otherwise the attempt is run. */
  predicate FireAnswered(s: State, t: Timer, answer: Answer, end: State, maxBackoff: nat) {
    if t.id !in s.retries then end == s.(timers := s.timers - multiset{t})
    else
      var n := s.retries[t.id].attempt;
      var dispatched := answer.Active? && answer.eligible && answer.slot && t.id !in s.running;
      && end.now == s.now && end.flights == s.flights
      && end.retries - {t.id} == s.retries - {t.id}
      && if answer.Inactive? then
           t.id !in end.retries && end.claimed == s.claimed - {t.id}
           && end.running == s.running && end.workers == s.workers
         else if dispatched then
           t.id !in end.retries && end.claimed == s.claimed + {t.id} && end.running == s.running[t.id := Some(n)]
           && end.workers == s.workers + multiset{Worker(t.id, Some(n))}
         else
           end.retries == s.retries[t.id := Entry(n + 1, s.now + BackoffMs(n + 1, maxBackoff))]
           && end.claimed == s.claimed + {t.id} && end.running == s.running && end.workers == s.workers
  }

  function PopFlight(s: State, t: Timer): Flight
    requires t.id in s.retries
  {
    Flight(t.id, s.retries[t.id].attempt, Asking)
  }

  /** After the pop, with `flights` under way. */
  function AfterPop(s: State, t: Timer, flights: multiset<Flight>): State {
    s.(timers := s.timers - multiset{t}, retries := s.retries - {t.id}, flights := flights)
  }

  lemma PutBackAnswers(s: State, t: Timer, g: Flight, answer: Answer, maxBackoff: nat)
    requires t.id in s.retries && g.id == t.id && g.attempt == s.retries[t.id].attempt
    requires !answer.Inactive? && (answer.Active? ==> !answer.eligible || !answer.slot || t.id in s.running)
    ensures FireAnswered(s, t, answer, PutBack(AfterPop(s, t, s.flights + multiset{g}), g, maxBackoff), maxBackoff)
  {
    hide BackoffMs;
    assert s.flights + multiset{g} - multiset{g} == s.flights;
    assert (s.retries - {t.id})[t.id := Entry(g.attempt + 1, s.now + BackoffMs(g.attempt + 1, maxBackoff))]
        == s.retries[t.id := Entry(g.attempt + 1, s.now + BackoffMs(g.attempt + 1, maxBackoff))];
  }

  lemma GoneAnswers(s: State, t: Timer, maxBackoff: nat)
    requires t.id in s.retries
    ensures FireAnswered(s, t, Inactive, AfterPop(s, t, s.flights).(claimed := s.claimed - {t.id}), maxBackoff)
  {
    hide BackoffMs;
  }

  lemma RunAnswers(s: State, t: Timer, maxBackoff: nat)
    requires t.id in s.retries && t.id !in s.running
    ensures FireAnswered(s, t, Active(true, true),
                         Dispatch(AfterPop(s, t, s.flights), t.id, Some(s.retries[t.id].attempt)), maxBackoff)
  {
    hide BackoffMs;
    assert s.retries - {t.id} - {t.id} == s.retries - {t.id};
  }

  lemma TakenBack(flights: multiset<Flight>, f: Flight)
    ensures flights + multiset{f} - multiset{f} == flights && f in flights + multiset{f}
  {
  }

  lemma FirePops(s: State, t: Timer, maxBackoff: nat)
    requires t.id in s.retries && Enabled(s, Fire(t))
    ensures Next(s, Fire(t), maxBackoff) == AfterPop(s, t, s.flights + multiset{PopFlight(s, t)})
  {
  }

  /** The states a fire goes through after that. */
  lemma FireAsks(s: State, t: Timer, popped: State, maxBackoff: nat)
    requires t.id in s.retries && popped == AfterPop(s, t, s.flights + multiset{PopFlight(s, t)})
    ensures var f := PopFlight(s, t);
      && Enabled(popped, FetchFailed(f)) && Next(popped, FetchFailed(f), maxBackoff) == PutBack(popped, f, maxBackoff)
      && Enabled(popped, Gone(f))
      && Next(popped, Gone(f), maxBackoff) == AfterPop(s, t, s.flights).(claimed := s.claimed - {t.id})
  {
    hide PutBack;
    TakenBack(s.flights, PopFlight(s, t));
  }

  lemma FireTries(s: State, t: Timer, popped: State, eligible: bool, slot: bool, maxBackoff: nat)
    requires t.id in s.retries && popped == AfterPop(s, t, s.flights + multiset{PopFlight(s, t)})
    ensures var f := PopFlight(s, t); var told := AfterPop(s, t, s.flights + multiset{f.(stage := MustRequeue)});
      && Enabled(popped, Redispatch(f, eligible, slot))
      && Next(popped, Redispatch(f, eligible, slot), maxBackoff)
         == (if eligible && slot && t.id !in s.running then Dispatch(AfterPop(s, t, s.flights), t.id, Some(f.attempt))
             else told)
  {
    hide Dispatch;
    TakenBack(s.flights, PopFlight(s, t));
  }

  lemma FireRequeues(told: State, g: Flight, maxBackoff: nat)
    requires g in told.flights && g.stage == MustRequeue
    ensures Enabled(told, Requeue(g)) && Next(told, Requeue(g), maxBackoff) == PutBack(told, g, maxBackoff)
  {
    hide PutBack;
  }

  lemma FireIsAnswered(s: State, t: Timer, answer: Answer, end: State, maxBackoff: nat)
    requires Enabled(s, Fire(t)) && IsRun(s, FireSteps(s, t, answer), end, maxBackoff)
    ensures FireAnswered(s, t, answer, end, maxBackoff)
  {
    var steps := FireSteps(s, t, answer);
    FirstOfRun(s, steps, end, maxBackoff);
    if t.id !in s.retries {
      NoMoreOfRun(Next(s, Fire(t), maxBackoff), steps[1..], end, maxBackoff);
    } else {
      FireEndsAs(s, t, answer, steps, end, maxBackoff);
    }
  }

  lemma FireEndsAs(s: State, t: Timer, answer: Answer, steps: seq<Step>, end: State, maxBackoff: nat)
    requires t.id in s.retries && steps == FireSteps(s, t, answer) && Enabled(s, Fire(t))
    requires IsRun(s, steps, end, maxBackoff)
    ensures FireAnswered(s, t, answer, end, maxBackoff)
  {
    hide Next, Enabled, IsRun, FireAnswered, PutBack, Dispatch, BackoffMs;
    var f := PopFlight(s, t);
    var popped := AfterPop(s, t, s.flights + multiset{f});
    FirePops(s, t, maxBackoff);
    if answer.Active? {
      FireTriesEnd(s, t, answer.eligible, answer.slot, steps, end, maxBackoff);
    } else {
      FireAsks(s, t, popped, maxBackoff);
      RunOfTwo(s, steps, end, maxBackoff);
      if answer.NoAnswer? {
        PutBackAnswers(s, t, f, answer, maxBackoff);
      } else {
        GoneAnswers(s, t, maxBackoff);
      }
    }
  }

  lemma FireTriesEnd(s: State, t: Timer, eligible: bool, slot: bool, steps: seq<Step>, end: State, maxBackoff: nat)
    requires t.id in s.retries && steps == FireSteps(s, t, Active(eligible, slot)) && Enabled(s, Fire(t))
    requires IsRun(s, steps, end, maxBackoff)
    ensures FireAnswered(s, t, Active(eligible, slot), end, maxBackoff)
  {
    hide Next, Enabled, IsRun, FireAnswered, PutBack, Dispatch, BackoffMs;
    var f := PopFlight(s, t);
    var g, popped := f.(stage := MustRequeue), AfterPop(s, t, s.flights + multiset{f});
    FirePops(s, t, maxBackoff);
    FireTries(s, t, popped, eligible, slot, maxBackoff);
    if eligible && slot && t.id !in s.running {
      RunOfTwo(s, steps, end, maxBackoff);
      RunAnswers(s, t, maxBackoff);
    } else {
      RunOfThree(s, steps, end, maxBackoff);
      TakenBack(s.flights, g);
      FireRequeues(AfterPop(s, t, s.flights + multiset{g}), g, maxBackoff);
      PutBackAnswers(s, t, g, Active(eligible, slot), maxBackoff);
    }
  }

  lemma RunOfTwo(s: State, steps: seq<Step>, end: State, maxBackoff: nat)
    requires IsRun(s, steps, end, maxBackoff) && |steps| == 2
    ensures Enabled(s, steps[0])
    ensures var mid := Next(s, steps[0], maxBackoff);
      Enabled(mid, steps[1]) && end == Next(mid, steps[1], maxBackoff)
  {
    hide Next, Enabled;
    FirstOfRun(s, steps, end, maxBackoff);
    var mid := Next(s, steps[0], maxBackoff);
    FirstOfRun(mid, steps[1..], end, maxBackoff);
    NoMoreOfRun(Next(mid, steps[1], maxBackoff), steps[1..][1..], end, maxBackoff);
  }

  lemma RunOfThree(s: State, steps: seq<Step>, end: State, maxBackoff: nat)
    requires IsRun(s, steps, end, maxBackoff) && |steps| == 3
    ensures Enabled(s, steps[0])
    ensures var mid := Next(s, steps[0], maxBackoff);
      Enabled(mid, steps[1])
      && var told := Next(mid, steps[1], maxBackoff);
         Enabled(told, steps[2]) && end == Next(told, steps[2], maxBackoff)
  {
    hide Next, Enabled;
    FirstOfRun(s, steps, end, maxBackoff);
    RunOfTwo(Next(s, steps[0], maxBackoff), steps[1..], end, maxBackoff);
  }

  lemma FirstOfRun(s: State, steps: seq<Step>, end: State, maxBackoff: nat)
    requires IsRun(s, steps, end, maxBackoff) && steps != []
    ensures Enabled(s, steps[0]) && IsRun(Next(s, steps[0], maxBackoff), steps[1..], end, maxBackoff)
  {
    hide Enabled, Next;
  }

  lemma NoMoreOfRun(s: State, steps: seq<Step>, end: State, maxBackoff: nat)
    requires IsRun(s, steps, end, maxBackoff) && steps == []
    ensures end == s
  {
  }

  class Orchestrator {
    const maxBackoff: nat
    var now: int
    var claimed: set<Id>
    var retryAttempts: map<Id, Entry>
    var running: map<Id, Option<nat>>
    /** The tasks of the runtime: sleeping timers, fires under way, workers. */
    var timers: multiset<Timer>
    var flights: multiset<Flight>
    var workers: multiset<Worker>

    constructor (maxBackoff: nat)
      ensures Snapshot() == START && this.maxBackoff == maxBackoff
    {
      this.maxBackoff := maxBackoff;
      now, claimed, retryAttempts, running := 0, {}, map[], map[];
      timers, flights, workers := multiset{}, multiset{}, multiset{};
    }

    ghost function Snapshot(): State
      reads this
    {
      State(now, claimed, retryAttempts, running, timers, flights, workers)
    }

    method Schedule(id: Id, attempt: nat, due: int)
      modifies this
      ensures Snapshot() == Scheduled(old(Snapshot()), id, attempt, due - old(now))
    {
      claimed := claimed + {id};
      retryAttempts := retryAttempts[id := Entry(attempt, due)];
      timers := timers + multiset{Timer(id, due)};
    }

    method DispatchOne(id: Id, attempt: Option<nat>, eligible: bool, slot: bool) returns (r: DispatchOutcome)
      modifies this
      ensures r == Verdict(old(Snapshot()), id, attempt, eligible, slot)
      ensures !r.Skipped? <==> eligible && id !in old(running) && (attempt.Some? || id !in old(claimed))
      ensures r.NoSlot? <==> !r.Skipped? && !slot
      ensures r.Dispatched? ==>
                && running == old(running)[id := attempt] && claimed == old(claimed) + {id}
                && retryAttempts == old(retryAttempts) - {id}
                && workers == old(workers) + multiset{Worker(id, attempt)}
      ensures Snapshot() == if r.Dispatched? then Dispatch(old(Snapshot()), id, attempt) else old(Snapshot())
    {
      if !eligible {
        return Skipped;
      }
      if id in running {
        return Skipped;
      }
      if id in claimed {
        if attempt.None? {
          return Skipped;
        }
        if !slot {
          return NoSlot;
        }
      } else {
        if !slot {
          return NoSlot;
        }
        claimed := claimed + {id};
      }
      running := running[id := attempt];
      retryAttempts := retryAttempts - {id};
      workers := workers + multiset{Worker(id, attempt)};
      assert old(claimed) + {id} == claimed;
      r := Dispatched;
    }

    /** Takes the entry out of the map, whoever's timer this is. */
    method PopEntry(t: Timer) returns (r: Option<Flight>)
      requires Enabled(Snapshot(), Fire(t))
      modifies this
      ensures Snapshot() == Next(old(Snapshot()), Fire(t), maxBackoff)
      ensures r == if t.id in old(retryAttempts) then Some(Flight(t.id, old(retryAttempts)[t.id].attempt, Asking))
                   else None
      ensures r.Some? ==> r.value in flights
    {
      timers := timers - multiset{t};
      if t.id !in retryAttempts {
        return None;
      }
      var f := Flight(t.id, retryAttempts[t.id].attempt, Asking);
      retryAttempts := retryAttempts - {t.id};
      flights := flights + multiset{f};
      r := Some(f);
    }

    method RequeueEntry(f: Flight)
      modifies this
      ensures Snapshot() == PutBack(old(Snapshot()), f, maxBackoff)
    {
      hide BackoffMs, Scheduled;
      flights := flights - multiset{f};
      ghost var mid := Snapshot();
      assert mid == old(Snapshot()).(flights := flights);
      Schedule(f.id, f.attempt + 1, now + BackoffMs(f.attempt + 1, maxBackoff));
    }

    method ReleaseClaim(f: Flight)
      requires Enabled(Snapshot(), Gone(f))
      modifies this
      ensures Snapshot() == Next(old(Snapshot()), Gone(f), maxBackoff)
    {
      flights := flights - multiset{f};
      claimed := claimed - {f.id};
    }

    method RetryDispatch(f: Flight, eligible: bool, slot: bool) returns (r: DispatchOutcome)
      requires Enabled(Snapshot(), Redispatch(f, eligible, slot))
      modifies this
      ensures r == Verdict(old(Snapshot()), f.id, Some(f.attempt), eligible, slot)
      ensures Snapshot() == Next(old(Snapshot()), Redispatch(f, eligible, slot), maxBackoff)
      ensures !r.Dispatched? ==> f.(stage := MustRequeue) in flights
    {
      r := DispatchOne(f.id, Some(f.attempt), eligible, slot);
      flights := flights - multiset{f};
      if !r.Dispatched? {
        flights := flights + multiset{f.(stage := MustRequeue)};
      }
    }

    /** A timer's task, when nothing else happens in the meantime. */
    method FireRetry(t: Timer, answer: Answer)
      requires Enabled(Snapshot(), Fire(t))
      modifies this
      ensures IsRun(old(Snapshot()), FireSteps(old(Snapshot()), t, answer), Snapshot(), maxBackoff)
      ensures FireAnswered(old(Snapshot()), t, answer, Snapshot(), maxBackoff)
    {
      hide BackoffMs, IsRun, Verdict, PutBack, Next, FireAnswered;
      ghost var start := Snapshot();
      forall end | IsRun(start, FireSteps(start, t, answer), end, maxBackoff)
        ensures FireAnswered(start, t, answer, end, maxBackoff)
      {
        FireIsAnswered(start, t, answer, end, maxBackoff);
      }
      var popped := PopEntry(t);
      if popped.None? {
        OneStep(start, Fire(t), Snapshot(), maxBackoff);
        return;
      }
      var f := popped.value;
      ghost var asked := Snapshot();
      KnownAfterPop(start, t, maxBackoff);
      match answer {
        case NoAnswer =>
          PutBackSteps(asked, f, maxBackoff);
          RequeueEntry(f);
          TwoSteps(start, Fire(t), asked, FetchFailed(f), Snapshot(), maxBackoff);
        case Inactive =>
          ReleaseClaim(f);
          TwoSteps(start, Fire(t), asked, Gone(f), Snapshot(), maxBackoff);
        case Active(eligible, slot) =>
          var outcome := RetryDispatch(f, eligible, slot);
          ghost var told := Snapshot();
          if outcome.Dispatched? {
            TwoSteps(start, Fire(t), asked, Redispatch(f, eligible, slot), told, maxBackoff);
          } else {
            var g := f.(stage := MustRequeue);
            PutBackSteps(told, g, maxBackoff);
            RequeueEntry(g);
            TwoSteps(asked, Redispatch(f, eligible, slot), told, Requeue(g), Snapshot(), maxBackoff);
            Prepend(start, Fire(t), [Redispatch(f, eligible, slot), Requeue(g)], Snapshot(), maxBackoff);
            assert [Fire(t)] + [Redispatch(f, eligible, slot), Requeue(g)]
                == [Fire(t), Redispatch(f, eligible, slot), Requeue(g)];
          }
      }
    }

    method OnWorkerExit(w: Worker, normal: bool)
      requires Enabled(Snapshot(), Exit(w, normal))
      modifies this
      ensures Snapshot() == Exited(old(Snapshot()), w, normal, maxBackoff)
      ensures var next := if w.attempt.Some? then w.attempt.value + 1 else 1;
        var delay := if normal then 1000 else BackoffMs(next, maxBackoff);
        retryAttempts == old(retryAttempts)[w.id := Entry(next, now + delay)]
      ensures running == old(running) - {w.id} && workers == old(workers) - multiset{w}
    {
      hide BackoffMs, Scheduled, NextAttempt;
      ExitSchedules(Snapshot(), w, normal, maxBackoff);
      workers := workers - multiset{w};
      running := running - {w.id};
      assert Snapshot() == old(Snapshot()).(workers := workers, running := running);
      var nextAttempt := NextAttempt(w.attempt);
      var delay := if normal then 1000 else BackoffMs(nextAttempt, maxBackoff);
      Schedule(w.id, nextAttempt, now + delay);
    }

    /** The stalled half of the reconcile step, for one run. */
    method RetryStalled(id: Id)
      modifies this
      ensures Snapshot() == if id in old(running) then Next(old(Snapshot()), Stall(id), maxBackoff) else old(Snapshot())
      ensures id in old(running) ==>
                var was := old(running)[id];
                var next := if was.Some? then was.value + 1 else 1;
                retryAttempts == old(retryAttempts)[id := Entry(next, now + BackoffMs(next, maxBackoff))]
    {
      hide BackoffMs;
      if id in running {
        var attempt := running[id];
        running := running - {id};
        var nextAttempt := NextAttempt(attempt);
        Schedule(id, nextAttempt, now + BackoffMs(nextAttempt, maxBackoff));
      }
    }

    method TerminateRunningIssue(id: Id)
      modifies this
      ensures Snapshot() == if id in old(running) then Next(old(Snapshot()), Terminate(id), maxBackoff)
                            else old(Snapshot())
    {
      if id in running {
        running := running - {id};
        claimed := claimed - {id};
        retryAttempts := retryAttempts - {id};
      }
    }
  }


  lemma PutBackSteps(s: State, f: Flight, maxBackoff: nat)
    requires f in s.flights
    ensures f.stage == Asking ==> Next(s, FetchFailed(f), maxBackoff) == PutBack(s, f, maxBackoff)
    ensures f.stage == MustRequeue ==> Next(s, Requeue(f), maxBackoff) == PutBack(s, f, maxBackoff)
  {
    hide PutBack;
  }

  lemma TwoSteps(s: State, a: Step, mid: State, b: Step, end: State, maxBackoff: nat)
    requires Enabled(s, a) && mid == Next(s, a, maxBackoff) && Enabled(mid, b) && end == Next(mid, b, maxBackoff)
    ensures IsRun(s, [a, b], end, maxBackoff)
  {
    hide Next, Enabled, IsRun;
    OneStep(mid, b, end, maxBackoff);
    Prepend(s, a, [b], end, maxBackoff);
    assert [a] + [b] == [a, b];
  }

  /** Before and after an entry is taken out, the dispatch rule sees the same. */
  lemma KnownAfterPop(s: State, t: Timer, maxBackoff: nat)
    requires Enabled(s, Fire(t))
    ensures forall attempt, eligible, slot ::
      Verdict(Next(s, Fire(t), maxBackoff), t.id, attempt, eligible, slot) == Verdict(s, t.id, attempt, eligible, slot)
  {
  }
}
