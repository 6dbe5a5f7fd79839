/** Which effects an answer leads to. `Reacts` says for a landing at hand, in terms of what GitHub and
    the checks answered and of nothing in the program, which effects a call performs until it is
    done with that landing; the program is shown to perform exactly these, in every interleaving. */
module LandingReactions {
  import opened Prelude
  import opened CheckGate
  import opened Storage
  import opened LandingProgram

  // ---- The reactions ------------------------------------------------------------

  // In each of these, `es` are the effects so far, and `ended` says that these are all.

  predicate Deletes(key: Key, es: seq<Event>, ended: bool) {
    if es == [] then !ended else |es| == 1 && es[0].RowDeleted? && es[0].key == key
  }

  predicate Writes(key: Key, status: Status, head: string, attempt: nat, es: seq<Event>, ended: bool) {
    if es == [] then !ended
    else |es| == 1 && es[0].RowAdvanced? && es[0].key == key && es[0].status == status && es[0].head == head
         && es[0].attempt == attempt
  }

  /** So many tolerated writes to GitHub, then the deletion. */
  predicate Announces(key: Key, left: nat, es: seq<Event>, ended: bool) {
    if left == 0 then Deletes(key, es, ended)
    else if es == [] then !ended
    else es[0].PrTouched? && es[0].key == key && Announces(key, left - 1, es[1..], ended)
  }

  /** The context field, then the move to the state for fixes; either one ends the turn when it
      fails. */
  predicate Parks(cfg: Config, l: Landing, es: seq<Event>, ended: bool) {
    if es == [] then !ended
    else
      && es[0].FieldWritten? && es[0].ticket == l.row.ticket
      && if !es[0].ok then |es| == 1 else MovesTicket(cfg, l, es[1..], ended)
  }

  predicate MovesTicket(cfg: Config, l: Landing, es: seq<Event>, ended: bool) {
    if es == [] then !ended
    else
      && es[0].TicketMoved? && es[0].ticket == l.row.ticket && es[0].state == cfg.needsFixes
      && if !es[0].ok then |es| == 1 else Announces(l.key, 3, es[1..], ended)
  }

  predicate Updates(cfg: Config, l: Landing, head: string, es: seq<Event>, ended: bool) {
    if es == [] then !ended
    else if es[0] == UpdateLost(l.key, head) then |es| == 1
    else
      && es[0].BranchUpdated? && es[0].key == l.key && es[0].head == head
      && match es[0].outcome
         case None => |es| == 1
         case Some(Accepted) => Writes(l.key, Updating, head, l.row.attempt + 1, es[1..], ended)
         case Some(Stale) => Writes(l.key, AwaitingCi, head, l.row.attempt, es[1..], ended)
         case Some(BranchConflict) => Parks(cfg, l, es[1..], ended)
  }

  predicate CallsMerge(l: Landing, head: string, es: seq<Event>, ended: bool) {
    if es == [] then !ended
    else if es[0] == MergeLost(l.key, head) then |es| == 1
    else
      && es[0].MergeCalled? && es[0].key == l.key && es[0].head == head
      && match es[0].merge
         case None => |es| == 1
         case Some(Merged) => Deletes(l.key, es[1..], ended)
         case Some(_) => Writes(l.key, AwaitingCi, head, l.row.attempt, es[1..], ended)
  }

  /** The mark, then the merge call. */
  predicate Merges(l: Landing, head: string, es: seq<Event>, ended: bool) {
    if es == [] then !ended
    else
      && Writes(l.key, Merging, head, l.row.attempt, [es[0]], true)
      && if !es[0].ok then |es| == 1 else CallsMerge(l, head, es[1..], ended)
  }

  /** The checks of the head decide: wait, merge, or give the row up. */
  predicate Lands(cfg: Config, l: Landing, head: string, es: seq<Event>, ended: bool) {
    if es == [] then !ended
    else
      && es[0].ChecksRead? && es[0].repo == l.key.repo && es[0].head == head
      && match es[0].summary
         case None => |es| == 1
         case Some(s) =>
           if s.anyPending then Writes(l.key, AwaitingCi, head, l.row.attempt, es[1..], ended)
           else if IsGreen(s, cfg.required) then Merges(l, head, es[1..], ended)
           else Deletes(l.key, es[1..], ended)
  }

  /** The pull request as GitHub shows it decides what is done about its landing. */
  predicate Handles(cfg: Config, l: Landing, v: PrView, es: seq<Event>, ended: bool) {
    if v.merged || v.state == "closed" then Deletes(l.key, es, ended)
    else if v.mergeable == "dirty" || (v.mergeable == "behind" && l.row.attempt >= cfg.maxCycles)
    then Parks(cfg, l, es, ended)
    else if v.mergeable == "behind" then Updates(cfg, l, v.head, es, ended)
    else if v.mergeable == "draft" || v.mergeable == "unknown"
    then Writes(l.key, AwaitingCi, v.head, l.row.attempt, es, ended)
    else Lands(cfg, l, v.head, es, ended)
  }

  predicate Reacts(cfg: Config, l: Landing, es: seq<Event>, ended: bool) {
    if es == [] then !ended
    else
      && es[0].PrRead? && es[0].key == l.key
      && match es[0].view
         case None => |es| == 1
         case Some(v) => Handles(cfg, l, v, es[1..], ended)
  }

  /** How the first part of an event's handling ends: with a kick of the pull request's repo, with
      nothing more to do, or not yet. */
  datatype Ending = Kicks | Stops | Open

  predicate BeginsApproval(key: Key, es: seq<Event>, ending: Ending) {
    if es == [] then ending.Open?
    else
      && es[0].TicketLooked? && es[0].key == key
      && match es[0].found
         case Some(Some(ticket)) => ReadsApproved(key, ticket, es[1..], ending)
         case _ => |es| == 1 && ending.Stops?
  }

  predicate ReadsApproved(key: Key, ticket: string, es: seq<Event>, ending: Ending) {
    if es == [] then ending.Open?
    else
      && es[0].PrRead? && es[0].key == key
      && match es[0].view
         case None => |es| == 1 && ending.Stops?
         case Some(v) =>
           if v.merged then |es| == 1 && ending.Stops?
           else if |es| == 1 then ending.Open?
           else |es| == 2 && es[1].RowInserted? && es[1].key == key && es[1].ticket == ticket && es[1].head == v.head
                && ending == if es[1].ok then Kicks else Stops
  }

  predicate BeginsRed(key: Key, es: seq<Event>, ending: Ending) {
    if es == [] then ending.Open?
    else
      && es[0].RowLooked? && es[0].key == key
      && if es[0].present.None? then |es| == 1 && ending.Stops?
         else if !es[0].present.value then |es| == 1 && ending.Kicks?
         else if |es| == 1 then ending.Open?
         else |es| == 2 && es[1].RowDeleted? && es[1].key == key && ending == if es[1].ok then Kicks else Stops
  }

  /** What an event leads to before any kick. */
  predicate Begins(cfg: Config, call: Call, es: seq<Event>, ending: Ending)
    requires !call.Boot?
  {
    if !cfg.enabled then es == [] && ending.Stops?
    else match call
      case Approval(key) => BeginsApproval(key, es, ending)
      case GreenCi(key) =>
        if es == [] then ending.Open?
        else |es| == 1 && es[0].RowLooked? && es[0].key == key
             && ending == if es[0].present == Some(true) then Kicks else Stops
      case RedCi(key) => BeginsRed(key, es, ending)
  }

  // ---- The program performs them ---------------------------------------------------

  function FollowFrom(cfg: Config, t: Thread, es: seq<Event>): Option<Thread>
    decreases |es|
  {
    if es == [] then Some(t)
    else match Advance(cfg, t, es[0])
      case None => None
      case Some(next) => FollowFrom(cfg, next, es[1..])
  }

  lemma {:induction false} FollowFront(cfg: Config, a: seq<Event>, b: seq<Event>)
    requires Follow(cfg, a + b).Some?
    ensures Follow(cfg, a).Some?
    decreases |b|
  {
    hide Advance;
    if b == [] {
      assert a + b == a;
    } else {
      assert ButLast(a + b) == a + ButLast(b);
      FollowFront(cfg, a, ButLast(b));
    }
  }

  lemma FollowPrefix(cfg: Config, own: seq<Event>, n: nat)
    requires Follow(cfg, own).Some? && n <= |own|
    ensures Follow(cfg, own[..n]).Some?
  {
    assert own[..n] + own[n..] == own;
    FollowFront(cfg, own[..n], own[n..]);
  }

  lemma {:induction false} FollowSplit(cfg: Config, a: seq<Event>, b: seq<Event>)
    requires Follow(cfg, a + b).Some?
    ensures Follow(cfg, a).Some? && FollowFrom(cfg, Follow(cfg, a).value, b) == Follow(cfg, a + b)
    decreases |b|
  {
    hide Advance, Follow;
    FollowFront(cfg, a, b);
    if b == [] {
      assert a + b == a;
    } else {
      assert a + b == (a + [b[0]]) + b[1..];
      FollowSplit(cfg, a + [b[0]], b[1..]);
      FollowSnoc(cfg, a, b[0]);
    }
  }

  /** The effects belong to one turn, and lead from `t` to `t'`. */
  ghost predicate Leads(cfg: Config, t: Thread, es: seq<Event>, t': Thread) {
    && FollowFrom(cfg, t, es) == Some(t')
    && forall i :: 0 <= i < |es| ==> !EndsTurn(es[i])
  }

  lemma OneEffect(cfg: Config, t: Thread, es: seq<Event>, t': Thread)
    requires Leads(cfg, t, es, t')
    ensures if es == [] then t' == t
            else Advance(cfg, t, es[0]).Some? && !EndsTurn(es[0])
                 && Leads(cfg, Advance(cfg, t, es[0]).value, es[1..], t')
  {
    hide Advance, EndsTurn;
  }

  /** Between turns nothing happens but a pick or a crash. */
  lemma TurnOver(cfg: Config, t: Thread, es: seq<Event>, t': Thread)
    requires Leads(cfg, t, es, t') && (t.pc.PickHead? || t.pc.PickNext? || t.pc.Stopped?)
    ensures es == [] && t' == t
  {
    OneEffect(cfg, t, es, t');
  }

  lemma DropTurn(cfg: Config, l: Landing, rest: set<string>, es: seq<Event>, t': Thread)
    requires Leads(cfg, Thread(Drop(l), rest), es, t')
    ensures Deletes(l.key, es, Working(t'.pc).None?)
  {
    hide Leads, AdvanceEntry, AdvanceSweep, AdvancePark;
    var t := Thread(Drop(l), rest);
    OneEffect(cfg, t, es, t');
    if es != [] {
      TurnOver(cfg, Advance(cfg, t, es[0]).value, es[1..], t');
    }
  }

  lemma SettleTurn(cfg: Config, l: Landing, status: Status, head: string, attempt: nat, rest: set<string>,
                   es: seq<Event>, t': Thread)
    requires Leads(cfg, Thread(Settle(l, status, head, attempt), rest), es, t')
    ensures Writes(l.key, status, head, attempt, es, Working(t'.pc).None?)
  {
    hide Leads, AdvanceEntry, AdvanceSweep, AdvancePark;
    var t := Thread(Settle(l, status, head, attempt), rest);
    OneEffect(cfg, t, es, t');
    if es != [] {
      TurnOver(cfg, Advance(cfg, t, es[0]).value, es[1..], t');
    }
  }

  function Announcing(l: Landing, left: nat): Pc {
    if left == 0 then Drop(l)
    else if left == 1 then ParkComment(l)
    else if left == 2 then ParkUnlabel(l)
    else ParkLabel(l)
  }

  lemma {:induction false} AnnounceTurn(cfg: Config, l: Landing, left: nat, rest: set<string>, es: seq<Event>,
                                        t': Thread)
    requires left <= 3 && Leads(cfg, Thread(Announcing(l, left), rest), es, t')
    ensures Announces(l.key, left, es, Working(t'.pc).None?)
    decreases left
  {
    hide Leads, Deletes, AdvanceEntry, AdvanceSweep, AdvanceKick;
    if left == 0 {
      DropTurn(cfg, l, rest, es, t');
    } else {
      OneEffect(cfg, Thread(Announcing(l, left), rest), es, t');
      if es != [] {
        AnnounceTurn(cfg, l, left - 1, rest, es[1..], t');
      }
    }
  }

  lemma ParkTurn(cfg: Config, l: Landing, rest: set<string>, es: seq<Event>, t': Thread)
    requires Leads(cfg, Thread(ParkField(l), rest), es, t')
    ensures Parks(cfg, l, es, Working(t'.pc).None?)
  {
    hide Leads, MovesTicket, AdvanceEntry, AdvanceSweep, AdvanceKick;
    var t := Thread(ParkField(l), rest);
    OneEffect(cfg, t, es, t');
    if es != [] {
      if es[0].ok {
        MoveTurn(cfg, l, rest, es[1..], t');
      } else {
        TurnOver(cfg, Advance(cfg, t, es[0]).value, es[1..], t');
      }
    }
  }

  lemma MoveTurn(cfg: Config, l: Landing, rest: set<string>, es: seq<Event>, t': Thread)
    requires Leads(cfg, Thread(ParkMove(l), rest), es, t')
    ensures MovesTicket(cfg, l, es, Working(t'.pc).None?)
  {
    hide Leads, Announces, AdvanceEntry, AdvanceSweep, AdvanceKick;
    var t := Thread(ParkMove(l), rest);
    OneEffect(cfg, t, es, t');
    if es != [] {
      if es[0].ok {
        AnnounceTurn(cfg, l, 3, rest, es[1..], t');
      } else {
        TurnOver(cfg, Advance(cfg, t, es[0]).value, es[1..], t');
      }
    }
  }

  lemma UpdateTurn(cfg: Config, l: Landing, head: string, rest: set<string>, es: seq<Event>, t': Thread)
    requires Leads(cfg, Thread(UpdateBranch(l, head), rest), es, t')
    ensures Updates(cfg, l, head, es, Working(t'.pc).None?)
  {
    hide Leads, Writes, Parks, AdvanceEntry, AdvanceSweep, AdvancePark;
    var t := Thread(UpdateBranch(l, head), rest);
    OneEffect(cfg, t, es, t');
    if es != [] {
      if es[0].UpdateLost? || es[0].outcome.None? {
        TurnOver(cfg, Advance(cfg, t, es[0]).value, es[1..], t');
      } else {
        match es[0].outcome.value {
          case Accepted => SettleTurn(cfg, l, Updating, head, l.row.attempt + 1, rest, es[1..], t');
          case Stale => SettleTurn(cfg, l, AwaitingCi, head, l.row.attempt, rest, es[1..], t');
          case BranchConflict => ParkTurn(cfg, l, rest, es[1..], t');
        }
      }
    }
  }

  lemma MergeTurn(cfg: Config, l: Landing, head: string, rest: set<string>, es: seq<Event>, t': Thread)
    requires Leads(cfg, Thread(CallMerge(l, head), rest), es, t')
    ensures CallsMerge(l, head, es, Working(t'.pc).None?)
  {
    hide Leads, Writes, Deletes, AdvanceEntry, AdvanceSweep, AdvancePark;
    var t := Thread(CallMerge(l, head), rest);
    OneEffect(cfg, t, es, t');
    if es != [] {
      if es[0].MergeLost? || es[0].merge.None? {
        TurnOver(cfg, Advance(cfg, t, es[0]).value, es[1..], t');
      } else if es[0].merge.value.Merged? {
        DropTurn(cfg, l, rest, es[1..], t');
      } else {
        SettleTurn(cfg, l, AwaitingCi, head, l.row.attempt, rest, es[1..], t');
      }
    }
  }

  lemma MarkTurn(cfg: Config, l: Landing, head: string, rest: set<string>, es: seq<Event>, t': Thread)
    requires Leads(cfg, Thread(MarkMerging(l, head), rest), es, t')
    ensures Merges(l, head, es, Working(t'.pc).None?)
  {
    hide Leads, CallsMerge, AdvanceEntry, AdvanceSweep, AdvancePark;
    var t := Thread(MarkMerging(l, head), rest);
    OneEffect(cfg, t, es, t');
    if es != [] {
      if es[0].ok {
        MergeTurn(cfg, l, head, rest, es[1..], t');
      } else {
        TurnOver(cfg, Advance(cfg, t, es[0]).value, es[1..], t');
      }
    }
  }

  lemma ChecksTurn(cfg: Config, l: Landing, head: string, rest: set<string>, es: seq<Event>, t': Thread)
    requires Leads(cfg, Thread(ReadChecks(l, head), rest), es, t')
    ensures Lands(cfg, l, head, es, Working(t'.pc).None?)
  {
    hide Leads, Writes, Deletes, Merges, IsGreen, AdvanceEntry, AdvanceSweep, AdvancePark;
    var t := Thread(ReadChecks(l, head), rest);
    OneEffect(cfg, t, es, t');
    if es != [] {
      if es[0].summary.None? {
        TurnOver(cfg, Advance(cfg, t, es[0]).value, es[1..], t');
      } else if es[0].summary.value.anyPending {
        SettleTurn(cfg, l, AwaitingCi, head, l.row.attempt, rest, es[1..], t');
      } else if IsGreen(es[0].summary.value, cfg.required) {
        MarkTurn(cfg, l, head, rest, es[1..], t');
      } else {
        DropTurn(cfg, l, rest, es[1..], t');
      }
    }
  }

  lemma ViewTurn(cfg: Config, l: Landing, v: PrView, rest: set<string>, es: seq<Event>, t': Thread)
    requires Leads(cfg, Thread(AfterRead(cfg, l, v), rest), es, t')
    ensures Handles(cfg, l, v, es, Working(t'.pc).None?)
  {
    hide Leads, Writes, Deletes, Parks, Updates, Lands;
    match AfterRead(cfg, l, v) {
      case Drop(_) => DropTurn(cfg, l, rest, es, t');
      case ParkField(_) => ParkTurn(cfg, l, rest, es, t');
      case UpdateBranch(_, _) => UpdateTurn(cfg, l, v.head, rest, es, t');
      case Settle(_, _, _, _) => SettleTurn(cfg, l, AwaitingCi, v.head, l.row.attempt, rest, es, t');
      case ReadChecks(_, _) => ChecksTurn(cfg, l, v.head, rest, es, t');
    }
  }

  /** From the read of its pull request on, a call reacts to each answer as it should. */
  lemma ReadTurn(cfg: Config, l: Landing, rest: set<string>, es: seq<Event>, t': Thread)
    requires Leads(cfg, Thread(ReadPr(l), rest), es, t')
    ensures Reacts(cfg, l, es, Working(t'.pc).None?)
  {
    hide Leads, Handles, AfterRead, AdvanceEntry, AdvanceSweep, AdvancePark;
    var t := Thread(ReadPr(l), rest);
    OneEffect(cfg, t, es, t');
    if es != [] {
      if es[0].view.None? {
        TurnOver(cfg, Advance(cfg, t, es[0]).value, es[1..], t');
      } else {
        ViewTurn(cfg, l, es[0].view.value, rest, es[1..], t');
      }
    }
  }

  function EndingOf(t: Thread): Ending {
    if t.pc.PickHead? then Kicks else if t.pc.Stopped? then Stops else Open
  }

  predicate KicksOnly(t: Thread, repo: string) {
    !t.pc.PickNext? && (t.pc.PickHead? ==> t.pc.repo == repo)
  }

  lemma ApprovalTurn(cfg: Config, key: Key, es: seq<Event>, t': Thread)
    requires Leads(cfg, Thread(LookupTicket(key), {}), es, t')
    ensures BeginsApproval(key, es, EndingOf(t')) && KicksOnly(t', key.repo)
  {
    hide Leads, ReadsApproved, AdvanceSweep, AdvanceKick, AdvancePark;
    var t := Thread(LookupTicket(key), {});
    OneEffect(cfg, t, es, t');
    if es != [] {
      var next := Advance(cfg, t, es[0]).value;
      if next.pc.ReadApproved? {
        ApprovedTurn(cfg, key, next.pc.ticket, es[1..], t');
      } else {
        TurnOver(cfg, next, es[1..], t');
      }
    }
  }

  lemma ApprovedTurn(cfg: Config, key: Key, ticket: string, es: seq<Event>, t': Thread)
    requires Leads(cfg, Thread(ReadApproved(key, ticket), {}), es, t')
    ensures ReadsApproved(key, ticket, es, EndingOf(t')) && KicksOnly(t', key.repo)
  {
    hide Leads, AdvanceSweep, AdvanceKick, AdvancePark;
    var t := Thread(ReadApproved(key, ticket), {});
    OneEffect(cfg, t, es, t');
    if es != [] {
      var next := Advance(cfg, t, es[0]).value;
      OneEffect(cfg, next, es[1..], t');
      if next.pc.InsertRow? && |es| > 1 {
        TurnOver(cfg, Advance(cfg, next, es[1]).value, es[1..][1..], t');
      }
    }
  }

  lemma RedTurn(cfg: Config, key: Key, es: seq<Event>, t': Thread)
    requires Leads(cfg, Thread(LookupRed(key), {}), es, t')
    ensures BeginsRed(key, es, EndingOf(t')) && KicksOnly(t', key.repo)
  {
    hide Leads, AdvanceSweep, AdvancePark;
    var t := Thread(LookupRed(key), {});
    OneEffect(cfg, t, es, t');
    if es != [] {
      var next := Advance(cfg, t, es[0]).value;
      OneEffect(cfg, next, es[1..], t');
      if next.pc.DropRed? && |es| > 1 {
        TurnOver(cfg, Advance(cfg, next, es[1]).value, es[1..][1..], t');
      }
    }
  }

  lemma StartTurn(cfg: Config, call: Call, es: seq<Event>, t': Thread)
    requires !call.Boot? && Leads(cfg, Entry(cfg, call), es, t')
    ensures Begins(cfg, call, es, EndingOf(t')) && KicksOnly(t', call.key.repo)
  {
    hide Leads, BeginsApproval, BeginsRed, AdvanceSweep, AdvanceKick, AdvancePark;
    var t := Entry(cfg, call);
    if !cfg.enabled {
      TurnOver(cfg, t, es, t');
    } else {
      match call {
        case Approval(key) => ApprovalTurn(cfg, key, es, t');
        case RedCi(key) => RedTurn(cfg, key, es, t');
        case GreenCi(key) =>
          OneEffect(cfg, t, es, t');
          if es != [] {
            TurnOver(cfg, Advance(cfg, t, es[0]).value, es[1..], t');
          }
      }
    }
  }

  lemma {:induction false} TurnsSplit(a: seq<Event>, b: seq<Event>)
    ensures Turns(a + b) == Turns(a) + Turns(b)
    ensures Turns(b) == 0 ==> forall i :: 0 <= i < |b| ==> !EndsTurn(b[i])
    decreases |b|
  {
    hide EndsTurn;
    if b == [] {
      assert a + b == a;
    } else {
      assert ButLast(a + b) == a + ButLast(b);
      TurnsSplit(a, ButLast(b));
      if Turns(b) == 0 {
        forall i | 0 <= i < |b|
          ensures !EndsTurn(b[i])
        {
          assert i < |b| - 1 ==> ButLast(b)[i] == b[i];
        }
      }
    }
  }

  /** What a call has done since it took `l`, all in this turn, when it is done with it. */
  lemma TurnReacts(cfg: Config, before: seq<Event>, now: seq<Event>, l: Landing)
    requires before <= now && Follow(cfg, now).Some? && Turns(now) == Turns(before)
    requires Follow(cfg, before).Some? && Follow(cfg, before).value.pc == ReadPr(l)
    ensures Reacts(cfg, l, now[|before|..], Working(Follow(cfg, now).value.pc).None?)
  {
    hide Follow, Reacts, Turns, EndsTurn, Working;
    var turn := now[|before|..];
    assert now == before + turn;
    FollowSplit(cfg, before, turn);
    TurnsSplit(before, turn);
    ReadTurn(cfg, l, Follow(cfg, before).value.rest, turn, Follow(cfg, now).value);
  }

  // ---- ... in every interleaving --------------------------------------------------

  /** The effects of a call from `i` on, after a pick at `i`, up to the next pick or crash or to
      the end of its log. */
  predicate IsTurn(own: seq<Event>, i: nat, j: nat, l: Landing) {
    && i < j <= |own| && own[i].HeadPicked? && own[i].landing == Some(Some(l))
    && (forall k :: i < k < j ==> !EndsTurn(own[k]))
    && (j < |own| ==> EndsTurn(own[j]))
  }

  /** Whatever a call picked from the queue, it reacts to each answer about it as it should, and
      unless it crashes it only picks again or stops when it is done with it. */
  lemma TurnsReact(cfg: Config, own: seq<Event>, i: nat, j: nat, l: Landing)
    requires Follow(cfg, own).Some? && IsTurn(own, i, j, l)
    ensures Reacts(cfg, l, own[i + 1..j],
                   if j < |own| then own[j].HeadPicked? else Working(Follow(cfg, own).value.pc).None?)
  {
    hide Advance, Follow, Reacts, EndsTurn, Working;
    var turn := own[i + 1..j];
    FollowPrefix(cfg, own, j);
    assert own[..j] == own[..i + 1] + turn;
    FollowSplit(cfg, own[..i + 1], turn);
    FollowPrefix(cfg, own, i);
    assert own[..i + 1] == own[..i] + [own[i]];
    FollowSnoc(cfg, own[..i], own[i]);
    PickStarts(cfg, Follow(cfg, own[..i]).value, own[i], l);
    var t, t' := Follow(cfg, own[..i + 1]).value, Follow(cfg, own[..j]).value;
    ReadTurn(cfg, l, t.rest, turn, t');
    if j == |own| {
      assert own[..j] == own;
    } else if own[j].HeadPicked? {
      FollowPrefix(cfg, own, j + 1);
      assert own[..j + 1] == own[..j] + [own[j]];
      FollowSnoc(cfg, own[..j], own[j]);
      PicksBetweenTurns(cfg, t', own[j]);
    } else {
      Unfinished(cfg, l, turn, Working(t'.pc).None?);
    }
  }

  /** What is all there is may as well be what there is so far. */
  lemma Unfinished(cfg: Config, l: Landing, es: seq<Event>, ended: bool)
    requires Reacts(cfg, l, es, ended)
    ensures Reacts(cfg, l, es, false)
  {
    hide IsGreen;
    forall left: nat, tail | Announces(l.key, left, tail, ended)
      ensures Announces(l.key, left, tail, false)
    {
      UnfinishedAnnounces(l.key, left, tail, ended);
    }
  }

  lemma {:induction false} UnfinishedAnnounces(key: Key, left: nat, es: seq<Event>, ended: bool)
    requires Announces(key, left, es, ended)
    ensures Announces(key, left, es, false)
    decreases left
  {
    if left > 0 && es != [] {
      UnfinishedAnnounces(key, left - 1, es[1..], ended);
    }
  }

  lemma PickStarts(cfg: Config, t: Thread, e: Event, l: Landing)
    requires Advance(cfg, t, e).Some? && e.HeadPicked? && e.landing == Some(Some(l))
    ensures Advance(cfg, t, e).value.pc == ReadPr(l)
  {
  }

  lemma PicksBetweenTurns(cfg: Config, t: Thread, e: Event)
    requires Advance(cfg, t, e).Some? && e.HeadPicked?
    ensures Working(t.pc).None?
  {
  }

  lemma AnswersDecide(cfg: Config, run: seq<Move>, tid: nat, i: nat, j: nat, l: Landing)
    requires Exec(cfg, run).Some?
    requires IsTurn(Own(Exec(cfg, run).value.log, tid), i, j, l)
    ensures var s := Exec(cfg, run).value; var own := Own(s.log, tid);
            Reacts(cfg, l, own[i + 1..j], if j < |own| then own[j].HeadPicked? else Working(ThreadOf(s, tid).pc).None?)
  {
    hide Follow, Exec, Own, Reacts, Working, IsTurn;
    CallsFollowTheProgram(cfg, run, tid);
    TurnsReact(cfg, Own(Exec(cfg, run).value.log, tid), i, j, l);
  }

  /** The effects of a call from its event up to its first pick or crash, or to the end of its log. */
  predicate IsStart(own: seq<Event>, j: nat, call: Call) {
    && 0 < j <= |own| && own[0] == Called(call)
    && (forall k :: 0 < k < j ==> !EndsTurn(own[k]))
    && (j < |own| ==> EndsTurn(own[j]))
  }

  /** Every approval, green or red event leads to what it should, and to a kick of its own repo
      exactly when it should. */
  lemma EventsLead(cfg: Config, own: seq<Event>, j: nat, call: Call)
    requires Follow(cfg, own).Some? && IsStart(own, j, call) && !call.Boot?
    ensures Follow(cfg, own[..j]).Some? && Begins(cfg, call, own[1..j], EndingOf(Follow(cfg, own[..j]).value))
    ensures j < |own| && own[j].HeadPicked? ==>
              own[j].repo == call.key.repo && EndingOf(Follow(cfg, own[..j]).value).Kicks?
    ensures j == |own| && Follow(cfg, own) == Some(Done) ==> EndingOf(Follow(cfg, own[..j]).value).Stops?
  {
    hide Advance, Follow, Begins, EndsTurn;
    FollowPrefix(cfg, own, j);
    FollowPrefix(cfg, own, 1);
    assert own[..j] == own[..1] + own[1..j];
    FollowSplit(cfg, own[..1], own[1..j]);
    FirstEffect(cfg, own, call);
    var t' := Follow(cfg, own[..j]).value;
    StartTurn(cfg, call, own[1..j], t');
    if j < |own| {
      FollowPrefix(cfg, own, j + 1);
      assert own[..j + 1] == own[..j] + [own[j]];
      FollowSnoc(cfg, own[..j], own[j]);
      if own[j].HeadPicked? {
        PicksWhere(cfg, t', own[j]);
      }
    } else {
      assert own[..j] == own;
    }
  }

  lemma FirstEffect(cfg: Config, own: seq<Event>, call: Call)
    requires own != [] && own[0] == Called(call) && Follow(cfg, own[..1]).Some?
    ensures Follow(cfg, own[..1]) == Some(Entry(cfg, call))
  {
    hide AdvanceEntry, AdvanceSweep, AdvanceKick, AdvancePark;
    assert ButLast(own[..1]) == [] && Last(own[..1]) == own[0];
  }

  lemma PicksWhere(cfg: Config, t: Thread, e: Event)
    requires Advance(cfg, t, e).Some? && e.HeadPicked?
    ensures (t.pc.PickHead? && t.pc.repo == e.repo) || t.pc.PickNext?
  {
  }
}
