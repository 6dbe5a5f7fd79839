/** The merge coordinator's code: the entry points, the kick loop and the steps on one landing,
    working on the store and talking to GitHub and the tracker. GitHub's and the tracker's
    answers are arbitrary. Every method is shown to perform exactly the steps of the program in
    LandingProgram (so all that is proved there about every interleaving holds for this code),
    and its effect on the queue when it runs undisturbed is stated outright. */
module Coordinator {
  import opened Prelude
  import opened CheckGate
  import opened Storage
  import opened LandingProgram
  import LandingReactions

  // ---- Effects on the queue -----------------------------------------------

  /** At most the row of `key` has changed; its ticket and position in the table have not, and
      its attempt count has grown by one at most. */
  ghost predicate OnlyTouches(t0: Table, t1: Table, key: Key) {
    && t1.Keys == t0.Keys
    && (forall k | k in t0 && k != key :: t1[k] == t0[k])
    && (key in t0 ==> t1[key].ticket == t0[key].ticket
                        && t0[key].attempt <= t1[key].attempt <= t0[key].attempt + 1)
  }

  /** The rows `removed` were the oldest ones of `repo`; if a survivor was changed, it was the
      oldest survivor of `repo`. */
  ghost predicate KickEffect(t0: Table, t1: Table, repo: string, removed: set<Key>, touched: Option<Key>) {
    var left := RepoKeys(t0, repo) - removed;
    && removed <= RepoKeys(t0, repo)
    && t1.Keys == t0.Keys - removed
    && (forall r, k | r in removed && k in left :: Before(t0, r, k))
    && (forall k | k in t1 && Some(k) != touched :: t1[k] == t0[k])
    && (touched.Some? ==>
          && touched.value in left
          && (forall k | k in left && k != touched.value :: Before(t0, touched.value, k))
          && t1[touched.value].ticket == t0[touched.value].ticket
          && t0[touched.value].attempt <= t1[touched.value].attempt <= t0[touched.value].attempt + 1)
  }

  /** What a boot sweep against the GitHub state `hub` does (a pull request missing from `hub`
      is one whose read fails): rows of finished pull requests go, rows whose head has moved are
      re-armed with their attempt count kept, every other row stays as it is. */
  ghost predicate SweepEffect(t0: Table, t1: Table, hub: map<Key, PrView>) {
    && (forall k :: k in t1 <==> k in t0 && !(k in hub && IsGone(hub[k])))
    && (forall k | k in t1 :: Swept(t0[k], t1[k], if k in hub then Some(hub[k]) else None))
  }

  predicate Swept(before: Row, after: Row, view: Option<PrView>) {
    if view.Some? && view.value.head != before.head
    then after == before.(status := AwaitingCi, head := view.value.head, updatedAt := after.updatedAt)
    else after == before
  }

  /** After a sweep every row GitHub answered for matches GitHub, with its ticket and attempt
      count kept, and sweeping again against the same GitHub changes nothing. */
  lemma SweepSettles(t0: Table, t1: Table, t2: Table, hub: map<Key, PrView>)
    requires SweepEffect(t0, t1, hub)
    ensures forall k | k in t1 ::
              t1[k].attempt == t0[k].attempt && t1[k].ticket == t0[k].ticket
              && (k in hub ==> t1[k].head == hub[k].head && !hub[k].merged && hub[k].state != "closed")
    ensures forall k | k in t0 :: k !in t1 <==> k in hub && (hub[k].merged || hub[k].state == "closed")
    ensures SweepEffect(t1, t2, hub) <==> t2 == t1
  {
    if SweepEffect(t1, t2, hub) {
      assert t2.Keys == t1.Keys;
      forall k | k in t1
        ensures t2[k] == t1[k]
      {
        assert Swept(t0[k], t1[k], if k in hub then Some(hub[k]) else None);
        assert Swept(t1[k], t2[k], if k in hub then Some(hub[k]) else None);
      }
    }
    forall k | k in t1
      ensures Swept(t1[k], t1[k], if k in hub then Some(hub[k]) else None)
    {
      assert Swept(t0[k], t1[k], if k in hub then Some(hub[k]) else None);
    }
  }

  // ---- The queue over several calls ------------------------------------------

  /** What calls do to the queue, a boot sweep aside. */
  datatype QueueStep =
    | Kicked(repo: string, removed: set<Key>, touched: Option<Key>)
    | Entered(key: Key, ticket: string, head: string, now: int)
    | Relinquished(key: Key)

  ghost predicate Happens(t0: Table, step: QueueStep, t1: Table) {
    match step
    case Kicked(repo, removed, touched) => KickEffect(t0, t1, repo, removed, touched)
    case Entered(key, ticket, head, now) => t1 == Enqueued(t0, key, ticket, head, now)
    case Relinquished(key) => t1 == Dequeued(t0, key)
  }

  ghost predicate Later(t: Table, stamp: int) {
    forall k | k in t :: t[k].updatedAt < stamp
  }

  /** The step left no error behind, and its stamp is later than all those in the queue: a kick
      empties its repo's queue or sends the row it leaves waiting behind all others. */
  ghost predicate InTime(t0: Table, step: QueueStep, t1: Table) {
    match step
    case Kicked(repo, _, None) => RepoKeys(t1, repo) == {}
    case Kicked(_, _, Some(key)) => key in t1 && Later(t0, t1[key].updatedAt)
    case Entered(key, _, _, now) => key !in t0 ==> Later(t0, now)
    case Relinquished(_) => true
  }

  /** The tables before, between and after some steps. */
  datatype History = History(ts: seq<Table>, steps: seq<QueueStep>)

  ghost predicate StepAt(h: History, i: nat, inTime: bool)
    requires i < |h.steps| < |h.ts|
  {
    Happens(h.ts[i], h.steps[i], h.ts[i + 1]) && (inTime ==> InTime(h.ts[i], h.steps[i], h.ts[i + 1]))
  }

  /** `h` leads from one table to the other. */
  ghost predicate Leads(h: History, before: Table, after: Table, inTime: bool) {
    && |h.ts| == |h.steps| + 1 && h.ts[0] == before && Last(h.ts) == after
    && forall i :: 0 <= i < |h.steps| ==> StepAt(h, i, inTime)
  }

  lemma NoSteps(t: Table, inTime: bool)
    ensures Leads(History([t], []), t, t, inTime)
  {
  }

  lemma OneMoreStep(h: History, t0: Table, t1: Table, step: QueueStep, t2: Table, inTime: bool)
    requires Leads(h, t0, t1, inTime) && Happens(t1, step, t2) && (inTime ==> InTime(t1, step, t2))
    ensures Leads(History(h.ts + [t2], h.steps + [step]), t0, t2, inTime)
  {
    hide Happens, InTime;
    var h' := History(h.ts + [t2], h.steps + [step]);
    forall i | 0 <= i < |h'.steps|
      ensures StepAt(h', i, inTime)
    {
      if i < |h.steps| {
        assert StepAt(h, i, inTime);
      }
    }
  }

  lemma LeadsAnyway(h: History, t0: Table, t1: Table, inTime: bool)
    requires Leads(h, t0, t1, inTime)
    ensures Leads(h, t0, t1, false)
  {
    hide Happens, InTime;
    forall i | 0 <= i < |h.steps|
      ensures StepAt(h, i, false)
    {
      assert StepAt(h, i, inTime);
    }
  }

  /** ... and an insertion. */
  lemma EntryIsInTime(t0: Table, step: QueueStep, t1: Table, clock: int, ticking: bool)
    requires step.Entered? && Happens(t0, step, t1) && step.now == clock
    requires ticking ==> Later(t0, clock)
    ensures ticking ==> InTime(t0, step, t1)
  {
  }

  /** A ticking clock makes a clean kick one in time. */
  lemma KickIsInTime(t0: Table, t1: Table, step: QueueStep, wasClock: int, clock: int)
    requires step.Kicked? && Happens(t0, step, t1)
    requires step.touched.None? ==> RepoKeys(t1, step.repo) == {}
    requires step.touched.Some? ==>
               step.touched.value in t1 && t1[step.touched.value].updatedAt == clock && wasClock < clock
    requires forall k | k in t0 :: t0[k].updatedAt <= wasClock
    ensures InTime(t0, step, t1)
  {
  }

  /** The steps of one handled event: what is in the queue decides whether it is kicked. */
  predicate StepsOf(cfg: Config, call: LandingProgram.Call, before: Table, steps: seq<QueueStep>) {
    match call
    case Approval(key) =>
      steps == [] || (|steps| == 2 && steps[0].Entered? && steps[0].key == key && IsKickOf(steps[1], key.repo))
    case GreenCi(key) =>
      if cfg.enabled && key in before then |steps| == 1 && IsKickOf(steps[0], key.repo) else steps == []
    case RedCi(key) =>
      if cfg.enabled then |steps| == 2 && steps[0] == Relinquished(key) && IsKickOf(steps[1], key.repo) else steps == []
    case Boot => true
  }

  predicate IsKickOf(step: QueueStep, repo: string) {
    step.Kicked? && step.repo == repo
  }

  /** The `Result<bool>` of the steps on one landing. */
  datatype Progress = RowGone | Waiting | Erred

  // ---- A kick in progress ---------------------------------------------------

  /** The kick has removed the rows `removed` and changed nothing else. */
  ghost predicate Drained(was: Table, rows: Table, repo: string, removed: set<Key>) {
    && removed <= RepoKeys(was, repo) && rows == was - removed
    && forall r, k | r in removed && k in RepoKeys(was, repo) - removed :: Before(was, r, k)
  }

  lemma DrainStarts(was: Table, repo: string)
    ensures Drained(was, was, repo, {})
  {
  }

  /** Removing the head keeps the removed rows a prefix and shortens the queue. */
  lemma DrainMore(was: Table, rows: Table, repo: string, removed: set<Key>, l: Landing)
    requires Drained(was, rows, repo, removed) && IsHead(rows, repo, Some(l))
    ensures Drained(was, Dequeued(rows, l.key), repo, removed + {l.key})
    ensures |RepoKeys(Dequeued(rows, l.key), repo)| < |RepoKeys(rows, repo)|
  {
    var left := RepoKeys(was, repo) - removed;
    assert left == RepoKeys(rows, repo);
    assert RepoKeys(Dequeued(rows, l.key), repo) == left - {l.key};
    SubsetSize(left - {l.key}, left);
    forall k | k in left && k != l.key
      ensures Before(was, l.key, k)
    {
      assert Before(rows, l.key, k);
    }
  }

  lemma EmptyHead(rows: Table, repo: string)
    requires IsHead(rows, repo, None)
    ensures RepoKeys(rows, repo) == {}
  {
  }

  lemma HeadIsARow(rows: Table, repo: string, l: Landing)
    requires IsHead(rows, repo, Some(l))
    ensures l.key in rows && rows[l.key] == l.row && l.key.repo == repo
  {
  }

  lemma DrainEnds(was: Table, rows: Table, repo: string, removed: set<Key>)
    requires Drained(was, rows, repo, removed)
    ensures KickEffect(was, rows, repo, removed, None)
  {
  }

  lemma DrainTouches(was: Table, rows: Table, rows': Table, repo: string, removed: set<Key>, l: Landing)
    requires Drained(was, rows, repo, removed) && IsHead(rows, repo, Some(l)) && OnlyTouches(rows, rows', l.key)
    ensures KickEffect(was, rows', repo, removed, Some(l.key))
  {
    var left := RepoKeys(was, repo) - removed;
    assert left == RepoKeys(rows, repo);
    forall k | k in left && k != l.key
      ensures Before(was, l.key, k)
    {
      assert Before(rows, l.key, k);
    }
  }

  /** A row marked as merging and then deleted, or settled, was deleted, or touched once. */
  lemma MarkedThen(was: Table, key: Key, status: Status, head: string, now: int, after: Table)
    requires key in was
    ensures var mid := Advanced(was, key, status, head, was[key].attempt, now);
            && OnlyTouches(was, was, key) && OnlyTouches(was, mid, key)
            && Dequeued(mid, key) == Dequeued(was, key)
            && (OnlyTouches(mid, after, key) ==> OnlyTouches(was, after, key))
  {
  }

  // ---- Steps of the program, as the code takes them -----------------------

  lemma ParkSteps(cfg: Config, l: Landing, rest: set<string>, ok: bool)
    ensures Advance(cfg, Thread(ParkField(l), rest), FieldWritten(l.row.ticket, ok))
            == Some(if ok then Thread(ParkMove(l), rest) else KickEnd(rest))
    ensures Advance(cfg, Thread(ParkMove(l), rest), TicketMoved(l.row.ticket, cfg.needsFixes, ok))
            == Some(if ok then Thread(ParkLabel(l), rest) else KickEnd(rest))
    ensures Advance(cfg, Thread(ParkLabel(l), rest), PrTouched(l.key, ok)) == Some(Thread(ParkUnlabel(l), rest))
    ensures Advance(cfg, Thread(ParkUnlabel(l), rest), PrTouched(l.key, ok)) == Some(Thread(ParkComment(l), rest))
    ensures Advance(cfg, Thread(ParkComment(l), rest), PrTouched(l.key, ok)) == Some(Thread(Drop(l), rest))
  {
    hide AdvanceEntry, AdvanceSweep, AdvanceKick;
  }

  lemma RowsStay(rows: Table, e: Event)
    requires !e.RowInserted? && !e.RowAdvanced? && !e.RowDeleted?
    ensures OnTable(rows, e) == rows
    ensures e.FieldWritten? || e.TicketMoved? || e.PrTouched? ==> (IsFailure(e) <==> !e.PrTouched? && !e.ok)
    ensures e.HeadPicked? ==> (IsFailure(e) <==> e.landing.None?)
    ensures e.Called? ==> !IsFailure(e)
    ensures e.TicketLooked? ==> (IsFailure(e) <==> e.found.None?)
    ensures e.RowLooked? ==> (IsFailure(e) <==> e.present.None?)
    ensures e.PrRead? ==> (IsFailure(e) <==> e.view.None?)
    ensures e.ChecksRead? ==> (IsFailure(e) <==> e.summary.None?)
    ensures e.BranchUpdated? ==> (IsFailure(e) <==> e.outcome.None?)
    ensures e.MergeCalled? ==> (IsFailure(e) <==> e.merge.None?)
    ensures e.UpdateLost? || e.MergeLost? ==> IsFailure(e)
    ensures EndsTurn(e) <==> e.HeadPicked? || e.Crashed?
  {
  }

  lemma WriteSteps(cfg: Config, l: Landing, rest: set<string>, status: Status, head: string, attempt: nat,
                   now: int, ok: bool)
    ensures Advance(cfg, Thread(Settle(l, status, head, attempt), rest),
                    RowAdvanced(l.key, status, head, attempt, now, ok))
            == Some(KickEnd(rest))
    ensures Advance(cfg, Thread(Drop(l), rest), RowDeleted(l.key, ok))
            == Some(if ok then Thread(PickHead(l.key.repo), rest) else KickEnd(rest))
    ensures Advance(cfg, Thread(MarkMerging(l, head), rest), RowAdvanced(l.key, Merging, head, l.row.attempt, now, ok))
            == Some(if ok then Thread(CallMerge(l, head), rest) else KickEnd(rest))
  {
    hide AdvanceEntry, AdvanceSweep, AdvancePark;
  }

  lemma UpdateSteps(cfg: Config, l: Landing, rest: set<string>, head: string, branch: Option<UpdateOutcome>)
    ensures Advance(cfg, Thread(UpdateBranch(l, head), rest), BranchUpdated(l.key, head, branch))
            == Some(match branch
                    case None => KickEnd(rest)
                    case Some(Accepted) => Thread(Settle(l, Updating, head, l.row.attempt + 1), rest)
                    case Some(Stale) => Thread(Settle(l, AwaitingCi, head, l.row.attempt), rest)
                    case Some(BranchConflict) => Thread(ParkField(l), rest))
    ensures Advance(cfg, Thread(UpdateBranch(l, head), rest), UpdateLost(l.key, head)) == Some(KickEnd(rest))
  {
    hide AdvanceEntry, AdvanceSweep, AdvancePark;
  }

  lemma CheckSteps(cfg: Config, l: Landing, rest: set<string>, head: string, checks: Option<Summary>)
    ensures Advance(cfg, Thread(ReadChecks(l, head), rest), ChecksRead(l.key.repo, head, checks))
            == Some(match checks
                    case None => KickEnd(rest)
                    case Some(s) =>
                      if s.anyPending then Thread(Settle(l, AwaitingCi, head, l.row.attempt), rest)
                      else if IsGreen(s, cfg.required) then Thread(MarkMerging(l, head), rest)
                      else Thread(Drop(l), rest))
  {
    hide AdvanceEntry, AdvanceSweep, AdvancePark, IsGreen;
  }

  lemma MergeSteps(cfg: Config, l: Landing, rest: set<string>, head: string, merge: Option<MergeOutcome>)
    ensures Advance(cfg, Thread(CallMerge(l, head), rest), MergeCalled(l.key, head, merge))
            == Some(match merge
                    case None => KickEnd(rest)
                    case Some(Merged) => Thread(Drop(l), rest)
                    case Some(_) => Thread(Settle(l, AwaitingCi, head, l.row.attempt), rest))
    ensures Advance(cfg, Thread(CallMerge(l, head), rest), MergeLost(l.key, head)) == Some(KickEnd(rest))
  {
    hide AdvanceEntry, AdvanceSweep, AdvancePark;
  }

  lemma ReadStep(cfg: Config, l: Landing, rest: set<string>, view: Option<PrView>)
    ensures Advance(cfg, Thread(ReadPr(l), rest), PrRead(l.key, view))
            == Some(if view.None? then KickEnd(rest) else Thread(AfterRead(cfg, l, view.value), rest))
  {
    hide AdvanceEntry, AdvanceSweep, AdvancePark, AfterRead;
  }

  lemma PickSteps(cfg: Config, repo: string, rest: set<string>, landing: Option<Option<Landing>>)
    ensures Advance(cfg, Thread(PickHead(repo), rest), HeadPicked(repo, landing)) == Some(AfterPick(landing, rest))
    ensures repo in rest ==>
              Advance(cfg, Thread(PickNext, rest), HeadPicked(repo, landing)) == Some(AfterPick(landing, rest - {repo}))
  {
    hide AdvanceEntry, AdvanceSweep, AdvancePark;
  }

  lemma StartSteps(cfg: Config, key: Key, ticket: Option<Option<string>>, present: Option<bool>, ok: bool)
    ensures Advance(cfg, Fresh, Called(Approval(key))) == Some(Entry(cfg, Approval(key)))
    ensures Advance(cfg, Fresh, Called(GreenCi(key))) == Some(Entry(cfg, GreenCi(key)))
    ensures Advance(cfg, Fresh, Called(RedCi(key))) == Some(Entry(cfg, RedCi(key)))
    ensures Advance(cfg, Fresh, Called(Boot)) == Some(Entry(cfg, Boot))
    ensures Advance(cfg, Thread(LookupTicket(key), {}), TicketLooked(key, ticket))
            == Some(if ticket.Some? && ticket.value.Some? then Thread(ReadApproved(key, ticket.value.value), {})
                    else Done)
    ensures Advance(cfg, Thread(LookupGreen(key), {}), RowLooked(key, present))
            == Some(if present == Some(true) then Thread(PickHead(key.repo), {}) else Done)
    ensures Advance(cfg, Thread(LookupRed(key), {}), RowLooked(key, present))
            == Some(if present.None? then Done
                    else if present.value then Thread(DropRed(key), {})
                    else Thread(PickHead(key.repo), {}))
    ensures Advance(cfg, Thread(DropRed(key), {}), RowDeleted(key, ok))
            == Some(if ok then Thread(PickHead(key.repo), {}) else Done)
  {
    hide AdvanceSweep, AdvanceKick, AdvancePark, Entry;
  }

  lemma ApprovalSteps(cfg: Config, key: Key, ticket: string, view: Option<PrView>, head: string, now: int, ok: bool)
    ensures Advance(cfg, Thread(ReadApproved(key, ticket), {}), PrRead(key, view))
            == Some(if view.None? || view.value.merged then Done
                    else Thread(InsertRow(key, ticket, view.value.head), {}))
    ensures Advance(cfg, Thread(InsertRow(key, ticket, head), {}), RowInserted(key, ticket, head, now, ok))
            == Some(if ok then Thread(PickHead(key.repo), {}) else Done)
  {
    hide AdvanceSweep, AdvanceKick, AdvancePark;
  }

  lemma SweepSteps(cfg: Config, todo: seq<Landing>, rest: set<string>, view: Option<PrView>, head: string,
                   now: int, ok: bool)
    requires todo != []
    ensures Advance(cfg, Thread(SweepRead(todo), rest), PrRead(todo[0].key, view))
            == Some(if view.None? then SweepOn(todo, rest)
                    else if IsGone(view.value) then Thread(SweepDrop(todo), rest)
                    else if view.value.head != todo[0].row.head then Thread(SweepRearm(todo, view.value.head), rest)
                    else SweepOn(todo, rest))
    ensures Advance(cfg, Thread(SweepDrop(todo), rest), RowDeleted(todo[0].key, ok))
            == Some(if ok then SweepOn(todo, rest) else Done)
    ensures Advance(cfg, Thread(SweepRearm(todo, head), rest),
                    RowAdvanced(todo[0].key, AwaitingCi, head, todo[0].row.attempt, now, ok))
            == Some(if ok then SweepOn(todo, rest) else Done)
  {
    hide AdvanceEntry, AdvanceKick, AdvancePark;
  }

  lemma ListStep(cfg: Config, landings: Option<seq<Landing>>)
    ensures Advance(cfg, Thread(ListRows, {}), RowsListed(landings))
            == Some(if landings.None? || landings.value == [] then Done
                    else Thread(SweepRead(landings.value), ReposOf(landings.value)))
  {
    hide AdvanceEntry, AdvanceKick, AdvancePark;
  }

  // ---- A boot sweep in progress ---------------------------------------------

  /** The rows in `done` are reconciled with `hub`, the rest of the table is untouched. */
  ghost predicate SweptTo(was: Table, rows: Table, done: set<Key>, hub: map<Key, PrView>) {
    && (forall k :: k in rows <==> k in was && !(k in done && k in hub && IsGone(hub[k])))
    && (forall k | k in rows ::
          if k in done then Swept(was[k], rows[k], if k in hub then Some(hub[k]) else None)
          else rows[k] == was[k])
  }

  function KeysOf(out: seq<Landing>): set<Key> {
    set i | 0 <= i < |out| :: out[i].key
  }

  lemma KeysOfGrows(t: Table, out: seq<Landing>, i: nat)
    requires IsListing(t, out) && i < |out|
    ensures KeysOf(out[..i + 1]) == KeysOf(out[..i]) + {out[i].key}
    ensures out[i].key !in KeysOf(out[..i]) && out[i].key in t && t[out[i].key] == out[i].row
    ensures KeysOf(out) == t.Keys
  {
    var now, next := out[..i], out[..i + 1];
    assert next == now + [out[i]];
    forall k | k in KeysOf(now) + {out[i].key}
      ensures k in KeysOf(next)
    {
      if k == out[i].key {
        assert next[i].key == k;
      } else {
        var j :| 0 <= j < |now| && now[j].key == k;
        assert next[j].key == k;
      }
    }
    forall k | k in t
      ensures k in KeysOf(out)
    {
      assert Mentions(out, k);
    }
  }

  /** What the sweep makes of the row it listed as `l`. */
  function Reconciled(rows: Table, l: Landing, hub: map<Key, PrView>, now: int): Table {
    if l.key !in hub then rows
    else if IsGone(hub[l.key]) then Dequeued(rows, l.key)
    else if hub[l.key].head != l.row.head then Advanced(rows, l.key, AwaitingCi, hub[l.key].head, l.row.attempt, now)
    else rows
  }

  lemma SweepStep(was: Table, rows: Table, rows': Table, done: set<Key>, l: Landing, hub: map<Key, PrView>, now: int)
    requires SweptTo(was, rows, done, hub) && l.key in was && was[l.key] == l.row && l.key !in done
    requires rows' == Reconciled(rows, l, hub, now)
    ensures SweptTo(was, rows', done + {l.key}, hub)
  {
  }

  lemma NoKeys(out: seq<Landing>)
    ensures KeysOf(out[..0]) == {}
  {
  }

  lemma SweepStarts(was: Table, hub: map<Key, PrView>)
    ensures SweptTo(was, was, {}, hub)
  {
  }

  lemma SweepEnds(was: Table, rows: Table, hub: map<Key, PrView>)
    requires SweptTo(was, rows, was.Keys, hub)
    ensures SweepEffect(was, rows, hub)
  {
  }

  // ---- The code -----------------------------------------------------------

  /** One call of the coordinator. The ghost fields follow the call through the program. */
  class Call {
    const cfg: Config
    const store: Store
    const answering: bool   // GitHub and the tracker answer every request
    ghost const start: Table
    ghost var at: Thread
    ghost var trace: seq<Event>

    /** The log is a run of the program, and the queue is what its effects made of it. */
    ghost predicate Valid()
      reads this, store
    {
      Follow(cfg, trace) == Some(at) && store.Valid() && store.rows == OnAll(start, trace)
    }

    /** Nothing the call depends on fails. */
    ghost predicate Healthy() {
      store.reliable && answering
    }

    /** The log has grown, by one failed effect if `failed` and by none otherwise, and nothing
        fails in health. */
    ghost predicate Logs(was: seq<Event>, failed: bool)
      reads this
    {
      was <= trace && Failures(trace) == Failures(was) + (if failed then 1 else 0) && (failed ==> !Healthy())
    }

    /** The clock has not gone back since it said `was`, if it ticks. */
    ghost predicate Ticked(was: int)
      reads store
    {
      store.ticking ==> was <= store.clock
    }

    /** The row carries a stamp taken after the clock said `was`. */
    ghost predicate Restamped(key: Key, was: int)
      reads store
    {
      key in store.rows && store.rows[key].updatedAt == store.clock && (store.ticking ==> was < store.clock)
    }

    constructor (cfg: Config, store: Store, answering: bool)
      requires store.Valid()
      ensures this.cfg == cfg && this.store == store && this.answering == answering && start == store.rows
      ensures Valid() && at == Fresh && trace == []
    {
      this.cfg, this.store, this.answering := cfg, store, answering;
      start, at, trace := store.rows, Fresh, [];
    }

    /** Logs one effect; it must be what the program performs next, and leads to `next`. */
    ghost method Record(e: Event, next: Thread)
      requires Follow(cfg, trace) == Some(at) && Advance(cfg, at, e) == Some(next)
      requires store.Valid() && store.rows == OnTable(OnAll(start, trace), e)
      modifies this`at, this`trace
      ensures Valid() && trace == old(trace) + [e] && at == next
      ensures Failures(trace) == Failures(old(trace)) + if IsFailure(e) then 1 else 0
      ensures StoreFailures(trace) == StoreFailures(old(trace)) + if IsStoreFailure(e) then 1 else 0
      ensures Turns(trace) == Turns(old(trace)) + if EndsTurn(e) then 1 else 0
    {
      hide Advance, OnTable, IsFailure, IsStoreFailure, EndsTurn;
      FollowSnoc(cfg, trace, e);
      OnAllSnoc(start, trace, e);
      FailuresSnoc(trace, e);
      at, trace := next, trace + [e];
    }

    /** ... and the call has stayed at the landing at hand. */
    ghost predicate Acts(was: seq<Event>, failed: bool)
      reads this
    {
      Logs(was, failed) && Turns(trace) == Turns(was)
    }

    // Remote calls: any answer, or an error. A call that failed may have been `lost`, that is,
    // have taken effect.

    method GetPullRequest(key: Key) returns (v: Option<PrView>)
      ensures answering ==> v.Some?
    {
      v := *;
      if answering && !v.Some? {
        var view: PrView := *;
        v := Some(view);
      }
    }

    method ListCheckRunSummary(repo: string, head: string) returns (s: Option<Summary>)
      ensures answering ==> s.Some?
    {
      s := *;
      if answering && !s.Some? {
        var summary: Summary := *;
        s := Some(summary);
      }
    }

    method UpdatePrBranch(key: Key, head: string) returns (o: Option<UpdateOutcome>, ghost lost: bool)
      ensures (lost ==> o.None?) && (answering ==> o.Some?)
    {
      o, lost := *, *;
      if answering && !o.Some? {
        var outcome: UpdateOutcome := *;
        o := Some(outcome);
      }
      lost := lost && o.None?;
    }

    method MergePr(key: Key, head: string) returns (o: Option<MergeOutcome>, ghost lost: bool)
      ensures (lost ==> o.None?) && (answering ==> o.Some?)
    {
      o, lost := *, *;
      if answering && !o.Some? {
        var outcome: MergeOutcome := *;
        o := Some(outcome);
      }
      lost := lost && o.None?;
    }

    method Succeeds() returns (ok: bool)
      ensures answering ==> ok
    {
      ok := *;
      ok := ok || answering;
    }

    /** `advance_landing` on the landing at hand, which then waits. */
    method SettleRow(l: Landing, status: Status, head: string, attempt: nat) returns (r: Progress)
      requires Valid() && at.pc == Settle(l, status, head, attempt)
      requires l.key in store.rows && l.row.attempt <= attempt <= l.row.attempt + 1
      requires store.rows[l.key].attempt == l.row.attempt
      modifies this`at, this`trace, store
      ensures Valid() && Ticked(old(store.clock)) && Acts(old(trace), r == Erred) && at == KickEnd(old(at).rest)
      ensures r != RowGone && OnlyTouches(old(store.rows), store.rows, l.key)
      ensures r == Waiting ==>
                Restamped(l.key, old(store.clock))
                && store.rows == Advanced(old(store.rows), l.key, status, head, attempt, store.clock)
      ensures r == Erred ==> store.rows == old(store.rows)
    {
      hide Follow, Advance, OnAll, Failures, StoreFailures, Turns;
      var ok, now := store.AdvanceLanding(l.key, status, head, attempt);
      WriteSteps(cfg, l, at.rest, status, head, attempt, now, ok);
      Record(RowAdvanced(l.key, status, head, attempt, now, ok), KickEnd(at.rest));
      r := if ok then Waiting else Erred;
    }

    /** `dequeue_landing` on the landing at hand, which is then gone. */
    method DropRow(l: Landing) returns (r: Progress)
      requires Valid() && at.pc == Drop(l)
      modifies this`at, this`trace, store`rows
      ensures Valid() && Acts(old(trace), r == Erred)
      ensures r == RowGone ==> at == Thread(PickHead(l.key.repo), old(at).rest)
                                  && store.rows == Dequeued(old(store.rows), l.key)
      ensures r == Erred ==> at == KickEnd(old(at).rest) && store.rows == old(store.rows)
      ensures r != Waiting
    {
      hide Follow, Advance, OnAll, Failures, StoreFailures, Turns;
      var ok := store.DequeueLanding(l.key);
      WriteSteps(cfg, l, at.rest, Queued, "", 0, 0, ok);
      Record(RowDeleted(l.key, ok), if ok then Thread(PickHead(l.key.repo), at.rest) else KickEnd(at.rest));
      r := if ok then RowGone else Erred;
    }

    /** Hands the ticket back to the agent loop, then drops the row. */
    method Park(l: Landing) returns (r: Progress)
      requires Valid() && at.pc == ParkField(l)
      modifies this`at, this`trace, store`rows
      ensures Valid() && Acts(old(trace), r == Erred)
      ensures r == RowGone ==> at == Thread(PickHead(l.key.repo), old(at).rest)
                                  && store.rows == Dequeued(old(store.rows), l.key)
      ensures r == Erred ==> at == KickEnd(old(at).rest) && store.rows == old(store.rows)
      ensures r != Waiting
    {
      hide Follow, Advance, OnAll, Failures, StoreFailures, Turns, OnTable, IsFailure;
      ghost var rest := at.rest;
      var ok := Succeeds();
      ghost var written := FieldWritten(l.row.ticket, ok);
      ParkSteps(cfg, l, rest, ok);
      RowsStay(store.rows, written);
      Record(written, if ok then Thread(ParkMove(l), rest) else KickEnd(rest));
      if !ok {
        return Erred;
      }
      ok := Succeeds();
      ghost var moved := TicketMoved(l.row.ticket, cfg.needsFixes, ok);
      ParkSteps(cfg, l, rest, ok);
      RowsStay(store.rows, moved);
      Record(moved, if ok then Thread(ParkLabel(l), rest) else KickEnd(rest));
      if !ok {
        return Erred;
      }
      r := Announce(l);
    }

    /** The rest of `park`: labels and comment, all of them tolerated when they fail. */
    method Announce(l: Landing) returns (r: Progress)
      requires Valid() && at.pc == ParkLabel(l)
      modifies this`at, this`trace, store`rows
      ensures Valid() && Acts(old(trace), r == Erred)
      ensures r == RowGone ==> at == Thread(PickHead(l.key.repo), old(at).rest)
                                  && store.rows == Dequeued(old(store.rows), l.key)
      ensures r == Erred ==> at == KickEnd(old(at).rest) && store.rows == old(store.rows)
      ensures r != Waiting
    {
      hide Follow, Advance, OnAll, Failures, StoreFailures, Turns, OnTable, IsFailure;
      ghost var rest := at.rest;
      var labelled := Succeeds();
      ParkSteps(cfg, l, rest, labelled);
      RowsStay(store.rows, PrTouched(l.key, labelled));
      Record(PrTouched(l.key, labelled), Thread(ParkUnlabel(l), rest));
      var unlabelled := Succeeds();
      ParkSteps(cfg, l, rest, unlabelled);
      RowsStay(store.rows, PrTouched(l.key, unlabelled));
      Record(PrTouched(l.key, unlabelled), Thread(ParkComment(l), rest));
      var commented := Succeeds();
      ParkSteps(cfg, l, rest, commented);
      RowsStay(store.rows, PrTouched(l.key, commented));
      Record(PrTouched(l.key, commented), Thread(Drop(l), rest));
      r := DropRow(l);
    }

    /** What a step on one landing may do: remove exactly its row and let the kick go on, or
        keep the row, change no other, and end the kick. A row that waits has a new stamp. */
    ghost predicate StepResult(l: Landing, r: Progress, rest: set<string>, was: Table, wasClock: int)
      reads this, store
    {
      && Valid() && Ticked(wasClock)
      && (r == RowGone ==> at == Thread(PickHead(l.key.repo), rest) && store.rows == Dequeued(was, l.key))
      && (r != RowGone ==> at == KickEnd(rest) && OnlyTouches(was, store.rows, l.key))
      && (r == Waiting ==> Restamped(l.key, wasClock))
    }

    method AdvanceBehind(l: Landing, v: PrView) returns (r: Progress)
      requires Valid() && l.key in store.rows && store.rows[l.key] == l.row
      requires at.pc == if l.row.attempt >= cfg.maxCycles then ParkField(l) else UpdateBranch(l, v.head)
      modifies this`at, this`trace, store
      ensures StepResult(l, r, old(at).rest, old(store.rows), old(store.clock))
      ensures Acts(old(trace), r == Erred)
      ensures r == Waiting ==> store.rows[l.key].attempt <= Max(l.row.attempt, cfg.maxCycles)
    {
      hide Follow, Advance, OnAll, Failures, StoreFailures, Turns, OnTable, IsFailure, IsStoreFailure, EndsTurn;
      if l.row.attempt >= cfg.maxCycles {
        r := Park(l);
        return;
      }
      var outcome, lost := UpdatePrBranch(l.key, v.head);
      ghost var e := if lost then UpdateLost(l.key, v.head) else BranchUpdated(l.key, v.head, outcome);
      UpdateSteps(cfg, l, at.rest, v.head, outcome);
      RowsStay(store.rows, e);
      Record(e, Advance(cfg, at, e).value);
      match outcome {
        case None => r := Erred;
        case Some(Accepted) => r := SettleRow(l, Updating, v.head, l.row.attempt + 1);
        case Some(Stale) => r := SettleRow(l, AwaitingCi, v.head, l.row.attempt);
        case Some(BranchConflict) => r := Park(l);
      }
    }

    method AdvanceReady(l: Landing, v: PrView) returns (r: Progress)
      requires Valid() && at.pc == ReadChecks(l, v.head) && l.key in store.rows && store.rows[l.key] == l.row
      modifies this`at, this`trace, store
      ensures StepResult(l, r, old(at).rest, old(store.rows), old(store.clock))
      ensures Acts(old(trace), r == Erred)
    {
      hide Follow, Advance, OnAll, Failures, StoreFailures, Turns, OnTable, IsFailure, IsStoreFailure, EndsTurn;
      var summary := ListCheckRunSummary(l.key.repo, v.head);
      ghost var e := ChecksRead(l.key.repo, v.head, summary);
      CheckSteps(cfg, l, at.rest, v.head, summary);
      RowsStay(store.rows, e);
      Record(e, Advance(cfg, at, e).value);
      if summary.None? {
        return Erred;
      }
      if summary.value.anyPending {
        r := SettleRow(l, AwaitingCi, v.head, l.row.attempt);
        return;
      }
      if !IsGreen(summary.value, cfg.required) {
        r := DropRow(l);
        return;
      }
      r := MergeReady(l, v);
    }

    /** The gate is green on this head: mark the row, then merge with the head as a
        compare-and-set. */
    method MergeReady(l: Landing, v: PrView) returns (r: Progress)
      requires Valid() && at.pc == MarkMerging(l, v.head) && l.key in store.rows && store.rows[l.key] == l.row
      modifies this`at, this`trace, store
      ensures StepResult(l, r, old(at).rest, old(store.rows), old(store.clock))
      ensures Acts(old(trace), r == Erred)
    {
      hide Follow, Advance, OnAll, Failures, StoreFailures, Turns, OnlyTouches;
      ghost var was := store.rows;
      var ok, now := store.AdvanceLanding(l.key, Merging, v.head, l.row.attempt);
      MarkedThen(was, l.key, Merging, v.head, now, was);
      WriteSteps(cfg, l, at.rest, Merging, v.head, l.row.attempt, now, ok);
      Record(RowAdvanced(l.key, Merging, v.head, l.row.attempt, now, ok),
             if ok then Thread(CallMerge(l, v.head), at.rest) else KickEnd(at.rest));
      if !ok {
        return Erred;
      }
      r := MergeMarked(l, v.head);
      MarkedThen(was, l.key, Merging, v.head, now, store.rows);
    }

    /** The merge of a marked row, and what its outcome makes of the row. */
    method MergeMarked(l: Landing, head: string) returns (r: Progress)
      requires Valid() && at.pc == CallMerge(l, head)
      requires l.key in store.rows && store.rows[l.key].attempt == l.row.attempt
      modifies this`at, this`trace, store
      ensures StepResult(l, r, old(at).rest, old(store.rows), old(store.clock))
      ensures Acts(old(trace), r == Erred)
    {
      hide Follow, Advance, OnAll, Failures, StoreFailures, Turns, OnTable, IsFailure, IsStoreFailure, EndsTurn;
      var outcome, lost := MergePr(l.key, head);
      ghost var e := if lost then MergeLost(l.key, head) else MergeCalled(l.key, head, outcome);
      MergeSteps(cfg, l, at.rest, head, outcome);
      RowsStay(store.rows, e);
      Record(e, Advance(cfg, at, e).value);
      match outcome {
        case None => r := Erred;
        case Some(Merged) => r := DropRow(l);
        case Some(NotMergeable) => r := SettleRow(l, AwaitingCi, head, l.row.attempt);
        case Some(ShaMismatch) => r := SettleRow(l, AwaitingCi, head, l.row.attempt);
      }
    }

    /** Takes one action on a landing: the row is gone (`Ok(true)`), it
        waits for a webhook (`Ok(false)`), or an error came up. Its
        effects are those the answers call for. */
    method AdvanceOne(l: Landing) returns (r: Progress)
      requires Valid() && at.pc == ReadPr(l) && l.key in store.rows && store.rows[l.key] == l.row
      modifies this`at, this`trace, store
      ensures StepResult(l, r, old(at).rest, old(store.rows), old(store.clock))
      ensures Acts(old(trace), r == Erred)
      ensures LandingReactions.Reacts(cfg, l, trace[|old(trace)|..], true)
    {
      hide Follow, Advance, OnAll, Failures, StoreFailures, Turns, OnlyTouches;
      ghost var before := trace;
      r := ReadAndAct(l);
      LandingReactions.TurnReacts(cfg, before, trace, l);
    }

    /** The action itself. */
    method ReadAndAct(l: Landing) returns (r: Progress)
      requires Valid() && at.pc == ReadPr(l) && l.key in store.rows && store.rows[l.key] == l.row
      modifies this`at, this`trace, store
      ensures StepResult(l, r, old(at).rest, old(store.rows), old(store.clock))
      ensures Acts(old(trace), r == Erred)
    {
      hide Follow, Advance, OnAll, Failures, StoreFailures, Turns, OnTable, IsFailure, IsStoreFailure, EndsTurn;
      var view := GetPullRequest(l.key);
      ReadStep(cfg, l, at.rest, view);
      RowsStay(store.rows, PrRead(l.key, view));
      Record(PrRead(l.key, view),
             if view.None? then KickEnd(at.rest) else Thread(AfterRead(cfg, l, view.value), at.rest));
      if view.None? {
        return Erred;
      }
      var v := view.value;
      if v.merged {
        r := DropRow(l);
        return;
      }
      if v.state == "closed" {
        r := DropRow(l);
        return;
      }
      match Classify(v.mergeable) {
        case Dirty => r := Park(l);
        case Behind => r := AdvanceBehind(l, v);
        case Wait => r := SettleRow(l, AwaitingCi, v.head, l.row.attempt);
        case Ready => r := AdvanceReady(l, v);
      }
    }

    /** The oldest landing of a repo, or None when it has none; the outer None is an error. */
    method HeadOfQueue(repo: string) returns (r: Option<Option<Landing>>)
      ensures store.reliable ==> r.Some?
      ensures r.Some? ==> IsHead(store.rows, repo, r.value)
    {
      var listed := store.ListLandings();
      if listed.None? {
        return None;
      }
      var out, i := listed.value, 0;
      while i < |out|
        invariant 0 <= i <= |out|
        invariant forall j :: 0 <= j < i ==> out[j].key.repo != repo
      {
        if out[i].key.repo == repo {
          FirstOfRepoIsHead(store.rows, out, i);
          return Some(Some(out[i]));
        }
        i := i + 1;
      }
      assert forall k | k in store.rows :: Mentions(out, k);
      return Some(None);
    }

    /** Asks for the head of the queue, as a kick of the repo does first. */
    method Pick(repo: string) returns (head: Option<Option<Landing>>)
      requires Valid() && (at.pc == PickHead(repo) || (at.pc.PickNext? && repo in at.rest))
      modifies this`at, this`trace
      ensures Valid() && Logs(old(trace), head.None?)
      ensures at == AfterPick(head, old(at).rest - if old(at).pc.PickNext? then {repo} else {})
      ensures head.Some? ==> IsHead(store.rows, repo, head.value)
    {
      hide Follow, Advance, OnAll, Failures, StoreFailures, Turns, OnTable, IsFailure, IsStoreFailure, EndsTurn, IsHead;
      ghost var rest := at.rest - if at.pc.PickNext? then {repo} else {};
      assert rest == at.rest || at.pc.PickNext?;
      head := HeadOfQueue(repo);
      PickSteps(cfg, repo, at.rest, head);
      RowsStay(store.rows, HeadPicked(repo, head));
      Record(HeadPicked(repo, head), AfterPick(head, rest));
    }

    /** One round of a kick that has removed the rows `removed` so far: the kick goes on if the
        head is gone, and ends if the head waits, an effect failed or there is no head. */
    method Round(repo: string, ghost was: Table, ghost removed: set<Key>)
      returns (goOn: bool, ghost removed': set<Key>, ghost touched: Option<Key>)
      requires Valid() && (at.pc == PickHead(repo) || (at.pc.PickNext? && repo in at.rest))
      requires Drained(was, store.rows, repo, removed)
      modifies this`at, this`trace, store
      ensures Valid() && Ticked(old(store.clock)) && Logs(old(trace), Failures(trace) > Failures(old(trace)))
      ensures var rest := old(at).rest - if old(at).pc.PickNext? then {repo} else {};
        at == if goOn then Thread(PickHead(repo), rest) else KickEnd(rest)
      ensures goOn ==> Failures(trace) == Failures(old(trace)) && Drained(was, store.rows, repo, removed')
                       && |RepoKeys(store.rows, repo)| < |RepoKeys(old(store.rows), repo)|
      ensures !goOn ==> KickEffect(was, store.rows, repo, removed', touched)
      ensures !goOn && Failures(trace) == Failures(old(trace)) ==>
                if touched.None? then RepoKeys(store.rows, repo) == {} else Restamped(touched.value, old(store.clock))
    {
      hide Follow, Advance, OnAll, Failures, StoreFailures, Turns, LandingReactions.Reacts;
      hide Drained, KickEffect, OnlyTouches, Before, IsHead;
      goOn, removed', touched := false, removed, None;
      DrainEnds(was, store.rows, repo, removed);
      var head := Pick(repo);
      if head.None? {
        return;
      }
      if head.value.None? {
        assert RepoKeys(store.rows, repo) == {} by { EmptyHead(store.rows, repo); }
        return;
      }
      var l := head.value.value;
      ghost var rows := store.rows;
      HeadIsARow(rows, repo, l);
      DrainMore(was, rows, repo, removed, l);
      var r := AdvanceOne(l);
      if r == RowGone {
        goOn, removed' := true, removed + {l.key};
      } else {
        DrainTouches(was, rows, store.rows, repo, removed, l);
        touched := Some(l.key);
      }
    }

    /** Drives the head of a repo's queue forward until it blocks, an effect fails or the queue is
        empty. If nothing failed, the repo's queue is empty, or the row left waiting has a new
        stamp. */
    method Kick(repo: string) returns (ghost removed: set<Key>, ghost touched: Option<Key>)
      requires Valid() && (at.pc == PickHead(repo) || (at.pc.PickNext? && repo in at.rest))
      modifies this`at, this`trace, store
      ensures Valid() && at == KickEnd(old(at).rest - if old(at).pc.PickNext? then {repo} else {})
      ensures Logs(old(trace), Failures(trace) > Failures(old(trace)))
      ensures Ticked(old(store.clock)) && KickEffect(old(store.rows), store.rows, repo, removed, touched)
      ensures Failures(trace) == Failures(old(trace)) && touched.None? ==> RepoKeys(store.rows, repo) == {}
      ensures Failures(trace) == Failures(old(trace)) && touched.Some? ==> Restamped(touched.value, old(store.clock))
    {
      hide Follow, Advance, OnAll, Failures, StoreFailures, Drained, KickEffect, RepoKeys;
      ghost var was, rest := store.rows, at.rest - if at.pc.PickNext? then {repo} else {};
      removed, touched := {}, None;
      DrainStarts(was, repo);
      var goOn := true;
      while goOn
        invariant Valid() && Ticked(old(store.clock)) && Logs(old(trace), Failures(trace) > Failures(old(trace)))
        invariant goOn ==> Failures(trace) == Failures(old(trace)) && Drained(was, store.rows, repo, removed)
        invariant goOn ==> (at.pc == PickHead(repo) && at.rest == rest) || (at == old(at) && at.pc.PickNext?)
        invariant !goOn ==> at == KickEnd(rest) && KickEffect(was, store.rows, repo, removed, touched)
        invariant !goOn && Failures(trace) == Failures(old(trace)) ==>
                    if touched.None? then RepoKeys(store.rows, repo) == {}
                    else Restamped(touched.value, old(store.clock))
        decreases goOn, |RepoKeys(store.rows, repo)|
      {
        goOn, removed, touched := Round(repo, was, removed);
      }
    }

    /** Kick a repo from its own program point, as one more step of a history; it is a step in
        time if nothing in it failed and the clock ticks. */
    method KickOnce(repo: string, ghost h: History, ghost before: Table, ghost inTime: bool)
      returns (ghost step: QueueStep, ghost h': History)
      requires Valid() && (at.pc == PickHead(repo) || (at.pc.PickNext? && repo in at.rest))
      requires Leads(h, before, store.rows, inTime) && (inTime ==> store.ticking)
      modifies this`at, this`trace, store
      ensures Valid() && at == KickEnd(old(at).rest - if old(at).pc.PickNext? then {repo} else {})
      ensures Logs(old(trace), Failures(trace) > Failures(old(trace)))
      ensures IsKickOf(step, repo) && h'.steps == h.steps + [step] && store.rows.Keys <= old(store.rows).Keys
      ensures Leads(h', before, store.rows, inTime && Failures(trace) == Failures(old(trace)))
    {
      hide Follow, Advance, OnAll, Failures, StoreFailures, KickEffect, InTime, Leads;
      ghost var rows, wasClock, wasTrace := store.rows, store.clock, trace;
      ghost var removed, touched := Kick(repo);
      step := Kicked(repo, removed, touched);
      KickAddsNothing(rows, store.rows, repo, removed, touched);
      ghost var still := inTime && Failures(trace) == Failures(wasTrace);
      if still {
        KickIsInTime(rows, store.rows, step, wasClock, store.clock);
      } else {
        LeadsAnyway(h, before, rows, inTime);
      }
      OneMoreStep(h, before, rows, step, store.rows, still);
      h' := History(h.ts + [store.rows], h.steps + [step]);
    }

    method LookupPrTicket(key: Key) returns (t: Option<Option<string>>)
      ensures answering ==> t.Some?
    {
      t := *;
      if answering && !t.Some? {
        var ticket: Option<string> := *;
        t := Some(ticket);
      }
    }

    /** At the end of an event: an error is reported, at most one effect has failed, and none has
        in health. */
    ghost predicate Ends(ok: bool)
      reads this
    {
      (!ok ==> Failures(trace) == 1) && Failures(trace) <= 1 && (Healthy() ==> Failures(trace) == 0)
    }

    /** A human approved the pull request. */
    method EnqueueOnApproval(key: Key) returns (ok: bool, ghost h: History)
      requires Valid() && at == Fresh
      modifies this`at, this`trace, store
      ensures Valid() && at == Done && trace != [] && trace[0] == Called(Approval(key))
      ensures Ends(ok)
      ensures Leads(h, old(store.rows), store.rows, Failures(trace) == 0 && store.ticking)
      ensures StepsOf(cfg, Approval(key), old(store.rows), h.steps) && (!cfg.enabled || !ok ==> h.steps == [])
      ensures h.steps != [] ==>
                |trace| > 3 && trace[3] == RowInserted(key, h.steps[0].ticket, h.steps[0].head, h.steps[0].now, true)
    {
      hide Follow, Advance, OnAll, Failures, StoreFailures, KickEffect, Leads, InTime;
      hide OnTable, IsFailure, IsStoreFailure;
      ghost var before := store.rows;
      NoSteps(before, store.ticking);
      ok, h := true, History([before], []);
      NothingTraced(cfg, trace);
      LeadsAnyway(h, before, before, store.ticking);
      StartSteps(cfg, key, None, None, true);
      RowsStay(before, Called(Approval(key)));
      Record(Called(Approval(key)), Entry(cfg, Approval(key)));
      if !cfg.enabled {
        return;
      }
      var ticket := LookupPrTicket(key);
      StartSteps(cfg, key, ticket, None, true);
      RowsStay(before, TicketLooked(key, ticket));
      Record(TicketLooked(key, ticket),
             if ticket.Some? && ticket.value.Some? then Thread(ReadApproved(key, ticket.value.value), {}) else Done);
      if ticket.None? {
        ok := false;
        return;
      }
      if ticket.value.None? {
        return;
      }
      var id := ticket.value.value;
      var view := GetPullRequest(key);
      ApprovalSteps(cfg, key, id, view, "", 0, true);
      RowsStay(before, PrRead(key, view));
      Record(PrRead(key, view),
             if view.None? || view.value.merged then Done else Thread(InsertRow(key, id, view.value.head), {}));
      if view.None? {
        ok := false;
        return;
      }
      if view.value.merged {
        return;
      }
      ok, h := EnterQueue(key, id, view.value.head);
    }

    /** The rest of an approval, once the pull request is known to be open. */
    method EnterQueue(key: Key, id: string, head: string) returns (ok: bool, ghost h: History)
      requires Valid() && at == Thread(InsertRow(key, id, head), {}) && |trace| == 3 && Failures(trace) == 0
      modifies this`at, this`trace, store
      ensures Valid() && at == Done && old(trace) <= trace && Ends(ok)
      ensures Leads(h, old(store.rows), store.rows, Failures(trace) == 0 && store.ticking)
      ensures if ok
              then |h.steps| == 2 && h.steps[0].Entered? && h.steps[0].key == key && IsKickOf(h.steps[1], key.repo)
              else h.steps == []
      ensures h.steps != [] ==>
                |trace| > 3 && trace[3] == RowInserted(key, h.steps[0].ticket, h.steps[0].head, h.steps[0].now, true)
    {
      hide Follow, Advance, OnAll, Failures, StoreFailures, KickEffect, Leads, InTime;
      ghost var before := store.rows;
      NoSteps(before, store.ticking);
      h := History([before], []);
      LeadsAnyway(h, before, before, store.ticking);
      var now;
      ok, now := store.EnqueueLanding(key, id, head);
      ApprovalSteps(cfg, key, id, None, head, now, ok);
      Record(RowInserted(key, id, head, now, ok), if ok then Thread(PickHead(key.repo), {}) else Done);
      if !ok {
        return;
      }
      ghost var entered := Entered(key, id, head, now);
      EntryIsInTime(before, entered, store.rows, now, store.ticking);
      OneMoreStep(h, before, before, entered, store.rows, store.ticking);
      h := History(h.ts + [store.rows], h.steps + [entered]);
      ghost var kick;
      kick, h := KickOnce(key.repo, h, before, store.ticking);
    }

    /** CI went green; only a queued pull request makes the queue move. */
    method OnCiGreen(key: Key) returns (ok: bool, ghost h: History)
      requires Valid() && at == Fresh
      modifies this`at, this`trace, store
      ensures Valid() && at == Done && trace != [] && trace[0] == Called(GreenCi(key))
      ensures Ends(ok)
      ensures Leads(h, old(store.rows), store.rows, Failures(trace) == 0 && store.ticking)
      ensures if ok then StepsOf(cfg, GreenCi(key), old(store.rows), h.steps) else h.steps == []
    {
      hide Follow, Advance, OnAll, Failures, StoreFailures, KickEffect, Leads;
      ghost var before := store.rows;
      NoSteps(before, store.ticking);
      ok, h := true, History([before], []);
      NothingTraced(cfg, trace);
      LeadsAnyway(h, before, before, store.ticking);
      StartSteps(cfg, key, None, None, true);
      Record(Called(GreenCi(key)), Entry(cfg, GreenCi(key)));
      if !cfg.enabled {
        return;
      }
      var row := store.GetLanding(key);
      ghost var present := if row.None? then None else Some(row.value.Some?);
      StartSteps(cfg, key, None, present, true);
      Record(RowLooked(key, present), if present == Some(true) then Thread(PickHead(key.repo), {}) else Done);
      if row.None? {
        ok := false;
        return;
      }
      if row.value.None? {
        return;
      }
      ghost var kick;
      kick, h := KickOnce(key.repo, h, before, store.ticking);
    }

    /** CI went red: the landing is relinquished, then the repo's next one may proceed. */
    method OnCiRed(key: Key) returns (ok: bool, ghost h: History)
      requires Valid() && at == Fresh
      modifies this`at, this`trace, store
      ensures Valid() && at == Done && trace != [] && trace[0] == Called(RedCi(key))
      ensures Ends(ok)
      ensures Leads(h, old(store.rows), store.rows, Failures(trace) == 0 && store.ticking)
      ensures if ok then StepsOf(cfg, RedCi(key), old(store.rows), h.steps) else h.steps == []
      ensures ok && cfg.enabled ==> key !in store.rows
    {
      hide Follow, Advance, OnAll, Failures, StoreFailures, KickEffect, Leads;
      ghost var before := store.rows;
      NoSteps(before, store.ticking);
      ok, h := true, History([before], []);
      NothingTraced(cfg, trace);
      LeadsAnyway(h, before, before, store.ticking);
      StartSteps(cfg, key, None, None, true);
      Record(Called(RedCi(key)), Entry(cfg, RedCi(key)));
      if !cfg.enabled {
        return;
      }
      ok := Relinquish(key);
      if !ok {
        return;
      }
      OneMoreStep(h, before, before, Relinquished(key), store.rows, store.ticking);
      h := History(h.ts + [store.rows], h.steps + [Relinquished(key)]);
      ghost var kick;
      kick, h := KickOnce(key.repo, h, before, store.ticking);
    }

    /** The part of `on_ci_red` before its kick. */
    method Relinquish(key: Key) returns (ok: bool)
      requires Valid() && at == Thread(LookupRed(key), {})
      modifies this`at, this`trace, store`rows
      ensures Valid() && Logs(old(trace), !ok)
      ensures if ok then at == Thread(PickHead(key.repo), {}) && store.rows == Dequeued(old(store.rows), key)
              else at == Done && store.rows == old(store.rows)
    {
      hide Follow, Advance, OnAll, Failures, StoreFailures;
      var row := store.GetLanding(key);
      ghost var present := if row.None? then None else Some(row.value.Some?);
      StartSteps(cfg, key, None, present, true);
      Record(RowLooked(key, present),
             if present.None? then Done
             else if present.value then Thread(DropRed(key), {}) else Thread(PickHead(key.repo), {}));
      if row.None? {
        return false;
      }
      ok := true;
      if row.value.Some? {
        ok := store.DequeueLanding(key);
        StartSteps(cfg, key, None, None, ok);
        Record(RowDeleted(key, ok), if ok then Thread(PickHead(key.repo), {}) else Done);
      }
    }

    /** Checks one listed landing against GitHub, which shows `hub`. */
    method SweepOne(ghost todo: seq<Landing>, l: Landing, hub: map<Key, PrView>) returns (ok: bool, ghost now: int)
      requires Valid() && todo != [] && todo[0] == l && at.pc == SweepRead(todo)
      modifies this`at, this`trace, store
      ensures Valid() && old(trace) <= trace && (store.reliable ==> ok)
      ensures StoreFailures(trace) == StoreFailures(old(trace)) + if ok then 0 else 1
      ensures ok && l.key in hub ==> Failures(trace) == Failures(old(trace))
      ensures at == if ok then SweepOn(todo, old(at).rest) else Done
      ensures ok ==> store.rows == Reconciled(old(store.rows), l, hub, now)
    {
      hide Follow, Advance, OnAll, Failures, StoreFailures;
      ghost var rest := at.rest;
      ok, now := true, 0;
      var view := if l.key in hub then Some(hub[l.key]) else None;
      SweepSteps(cfg, todo, rest, view, "", 0, true);
      Record(PrRead(l.key, view), Advance(cfg, at, PrRead(l.key, view)).value);
      if view.Some? {
        var v := view.value;
        if v.merged || v.state == "closed" {
          ok := store.DequeueLanding(l.key);
          SweepSteps(cfg, todo, rest, None, "", 0, ok);
          Record(RowDeleted(l.key, ok), if ok then SweepOn(todo, rest) else Done);
        } else if v.head != l.row.head {
          var stamp;
          ok, stamp := store.AdvanceLanding(l.key, AwaitingCi, v.head, l.row.attempt);
          now := stamp;
          SweepSteps(cfg, todo, rest, None, v.head, now, ok);
          Record(RowAdvanced(l.key, AwaitingCi, v.head, l.row.attempt, now, ok),
                 if ok then SweepOn(todo, rest) else Done);
        }
      }
    }

    /** Checks every listed landing against GitHub, which stands still at `hub` meanwhile. */
    method SweepRows(out: seq<Landing>, hub: map<Key, PrView>) returns (ok: bool)
      requires Valid() && out != [] && at == Thread(SweepRead(out), ReposOf(out)) && IsListing(store.rows, out)
      modifies this`at, this`trace, store
      ensures Valid() && old(trace) <= trace && (store.reliable ==> ok)
      ensures StoreFailures(trace) == StoreFailures(old(trace)) + if ok then 0 else 1
      ensures ok && old(store.rows).Keys <= hub.Keys ==> Failures(trace) == Failures(old(trace))
      ensures ok ==> at == KickEnd(ReposOf(out)) && SweepEffect(old(store.rows), store.rows, hub)
      ensures !ok ==> at == Done
    {
      hide Follow, Advance, OnAll, Failures, StoreFailures, Reconciled, SweptTo, SweepEffect, Swept, IsListing, KeysOf;
      ghost var was, rest := store.rows, ReposOf(out);
      var i := 0;
      SweepStarts(was, hub);
      assert KeysOf(out[..0]) == {} by { NoKeys(out); }
      while i < |out|
        invariant 0 <= i <= |out| && Valid() && old(trace) <= trace
        invariant StoreFailures(trace) == StoreFailures(old(trace))
        invariant was.Keys <= hub.Keys ==> Failures(trace) == Failures(old(trace))
        invariant at == if i < |out| then Thread(SweepRead(out[i..]), rest) else KickEnd(rest)
        invariant SweptTo(was, store.rows, KeysOf(out[..i]), hub)
      {
        ghost var todo, rows, stamp := out[i..], store.rows, 0;
        assert out[i + 1..] == todo[1..] && (|todo| == 1 <==> i + 1 == |out|);
        var l := out[i];
        var swept;
        KeysOfGrows(was, out, i);
        swept, stamp := SweepOne(todo, l, hub);
        if !swept {
          return false;
        }
        SweepStep(was, rows, store.rows, KeysOf(out[..i]), l, hub, stamp);
        i := i + 1;
      }
      assert out[..|out|] == out;
      KeysOfGrows(was, out, 0);
      SweepEnds(was, store.rows, hub);
      ok := true;
    }

    /** Boot: reconcile every row with GitHub, then kick every repo that had one. `swept` is the
        queue between the sweep and the kicks; the kicks see GitHub answer anything. */
    method ReconcileOnBoot(hub: map<Key, PrView>) returns (ok: bool, ghost swept: Table, ghost h: History)
      requires Valid() && at == Fresh
      modifies this`at, this`trace, store
      ensures Valid() && at == Done && trace != [] && trace[0] == Called(Boot)
      ensures (StoreFailures(trace) == 0 ==> ok) && (store.reliable ==> ok)
      ensures Healthy() && old(store.rows).Keys <= hub.Keys ==> Failures(trace) == 0
      ensures ok && cfg.enabled ==> SweepEffect(old(store.rows), swept, hub)
      ensures ok ==> Leads(h, swept, store.rows, Failures(trace) == 0 && store.ticking)
      ensures ok && cfg.enabled ==> KicksEach(h.steps, Repos(old(store.rows)))
      ensures !cfg.enabled ==> store.rows == swept == old(store.rows) && h.steps == []
    {
      hide Follow, Advance, OnAll, Failures, StoreFailures, SweepEffect, KickEffect, IsListing, Leads, KicksEach, Repos;
      ok, swept, h := true, store.rows, History([store.rows], []);
      NothingTraced(cfg, trace);
      NoSteps(swept, store.ticking);
      LeadsAnyway(h, swept, swept, store.ticking);
      StartSteps(cfg, Key("", 0), None, None, true);
      Record(Called(Boot), Entry(cfg, Boot));
      if !cfg.enabled {
        return;
      }
      var listed := store.ListLandings();
      ListStep(cfg, listed);
      Record(RowsListed(listed), if listed.None? || listed.value == [] then Done
                                 else Thread(SweepRead(listed.value), ReposOf(listed.value)));
      if listed.None? {
        ok := false;
        return;
      }
      var out := listed.value;
      ReposOfListing(store.rows, out);
      NoKicksYet();
      if out == [] {
        NothingToSweep(store.rows, hub);
        return;
      }
      ok := SweepRows(out, hub);
      swept, h := store.rows, History([store.rows], []);
      if !ok {
        return;
      }
      ghost var wasTrace := trace;
      h := KickRepos(ReposOf(out));
      if Failures(trace) > 0 {
        LeadsAnyway(h, swept, store.rows, Failures(trace) == Failures(wasTrace) && store.ticking);
      }
    }

    /** The kicks after a boot sweep: each repo once. */
    method KickRepos(all: set<string>) returns (ghost h: History)
      requires Valid() && at == KickEnd(all)
      modifies this`at, this`trace, store
      ensures Valid() && at == Done && old(trace) <= trace && Failures(trace) >= Failures(old(trace))
      ensures Healthy() ==> Failures(trace) == Failures(old(trace))
      ensures Leads(h, old(store.rows), store.rows, Failures(trace) == Failures(old(trace)) && store.ticking)
      ensures KicksEach(h.steps, all)
    {
      hide Follow, Advance, OnAll, Failures, StoreFailures, KickEffect, Leads, KicksEach;
      ghost var before, inTime := store.rows, store.ticking;
      h := History([before], []);
      NoSteps(before, inTime);
      NoKicksYet();
      var repos := all;
      assert all - repos == {};
      while repos != {}
        invariant Valid() && at == KickEnd(repos) && repos <= all
        invariant old(trace) <= trace && Failures(trace) >= Failures(old(trace))
        invariant Healthy() ==> Failures(trace) == Failures(old(trace))
        invariant inTime <==> Failures(trace) == Failures(old(trace)) && store.ticking
        invariant Leads(h, before, store.rows, inTime) && KicksEach(h.steps, all - repos)
        decreases repos
      {
        var repo :| repo in repos;
        ghost var steps, step := h.steps, Kicked(repo, {}, None);
        step, h := KickOnce(repo, h, before, inTime);
        inTime := Failures(trace) == Failures(old(trace)) && store.ticking;
        OneMoreKick(steps, all - repos, step);
        assert all - repos + {repo} == all - (repos - {repo});
        repos := repos - {repo};
      }
      assert all - {} == all;
    }
  }

  function Repos(t: Table): set<string> {
    set k | k in t :: k.repo
  }

  /** The steps are kicks, one for each of these repos. */
  ghost predicate KicksEach(steps: seq<QueueStep>, repos: set<string>) {
    && (forall i :: 0 <= i < |steps| ==> steps[i].Kicked? && steps[i].repo in repos)
    && (forall i, j :: 0 <= i < j < |steps| ==> steps[i].repo != steps[j].repo)
    && |steps| == |repos|
  }

  lemma NoKicksYet()
    ensures KicksEach([], {})
  {
  }

  lemma OneMoreKick(steps: seq<QueueStep>, done: set<string>, step: QueueStep)
    requires KicksEach(steps, done) && step.Kicked? && step.repo !in done
    ensures KicksEach(steps + [step], done + {step.repo})
  {
  }

  lemma ReposOfListing(t: Table, out: seq<Landing>)
    requires IsListing(t, out)
    ensures ReposOf(out) == Repos(t) && (out == [] ==> Repos(t) == {})
  {
    forall r | r in Repos(t)
      ensures r in ReposOf(out)
    {
      var k :| k in t && k.repo == r;
      assert Mentions(out, k);
    }
  }

  /** A call that has not started has done nothing. */
  lemma NothingTraced(cfg: Config, trace: seq<Event>)
    requires Follow(cfg, trace) == Some(Fresh)
    ensures trace == [] && Failures(trace) == 0 && StoreFailures(trace) == 0
  {
    if trace != [] {
      NeverFreshAgain(cfg, Follow(cfg, ButLast(trace)).value, Last(trace));
    }
  }

  lemma NeverFreshAgain(cfg: Config, t: Thread, e: Event)
    ensures Advance(cfg, t, e) != Some(Fresh)
  {
    hide IsGreen, Classify, ReposOf;
  }

  lemma KickAddsNothing(before: Table, after: Table, repo: string, removed: set<Key>, touched: Option<Key>)
    requires KickEffect(before, after, repo, removed, touched)
    ensures after.Keys <= before.Keys
  {
  }

  lemma NothingToSweep(rows: Table, hub: map<Key, PrView>)
    requires IsListing(rows, [])
    ensures SweepEffect(rows, rows, hub)
  {
    assert forall k | k in rows :: Mentions([], k);
  }
}
