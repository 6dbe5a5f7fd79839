/** The landing queue: one row per (repo, pull request), with the insert-or-ignore, update,
    delete and ordered-list semantics of the bridge's SQL statements. */
module Storage {
  import opened Prelude

  datatype Status = Queued | Updating | AwaitingCi | Merging | Conflict | Failed

  datatype Key = Key(repo: string, pr: nat)

  datatype Row = Row(ticket: string, head: string, status: Status, attempt: nat, updatedAt: int)

  type Table = map<Key, Row>

  /** A row together with its key, as the queries return it. */
  datatype Landing = Landing(key: Key, row: Row)

  // ---- What each statement does to the table --------------------------

  function Enqueued(t: Table, key: Key, ticket: string, head: string, now: int): Table {
    if key in t then t else t[key := Row(ticket, head, Queued, 0, now)]
  }

  function Advanced(t: Table, key: Key, status: Status, head: string, attempt: nat, now: int): Table {
    if key in t then t[key := Row(t[key].ticket, head, status, attempt, now)] else t
  }

  function Dequeued(t: Table, key: Key): Table {
    t - {key}
  }

  /** An insertion adds a fresh row or nothing, an update rewrites four columns of a row there is,
      a deletion takes one row; no statement touches another row. */
  lemma StatementsMean(t: Table, key: Key, ticket: string, status: Status, head: string, attempt: nat, now: int)
    ensures var a, b, c := Enqueued(t, key, ticket, head, now), Advanced(t, key, status, head, attempt, now),
                           Dequeued(t, key);
      && a.Keys == t.Keys + {key} && b.Keys == t.Keys && c.Keys == t.Keys - {key}
      && (forall k | k in t && k != key :: a[k] == b[k] == c[k] == t[k])
      && (if key in t then a[key] == t[key]
          else a[key].ticket == ticket && a[key].head == head && a[key].status == Queued && a[key].attempt == 0
               && a[key].updatedAt == now)
      && (key in t ==> b[key].ticket == t[key].ticket && b[key].head == head && b[key].status == status
                       && b[key].attempt == attempt && b[key].updatedAt == now)
  {
  }

  // ---- Queue order ------------------------------------------------------

  /** `ORDER BY updated_at ASC, pr_number ASC`. */
  predicate Before(t: Table, a: Key, b: Key)
    requires a in t && b in t
  {
    t[a].updatedAt < t[b].updatedAt || (t[a].updatedAt == t[b].updatedAt && a.pr < b.pr)
  }

  function RepoKeys(t: Table, repo: string): set<Key> {
    set k | k in t && k.repo == repo
  }

  ghost predicate Mentions(out: seq<Landing>, k: Key) {
    exists i :: 0 <= i < |out| && out[i].key == k
  }

  /** The rows of the whole table, each once, oldest first. */
  ghost predicate IsListing(t: Table, out: seq<Landing>) {
    && (forall i :: 0 <= i < |out| ==> out[i].key in t && t[out[i].key] == out[i].row)
    && (forall i, j :: 0 <= i < j < |out| ==> out[i].key != out[j].key)
    && (forall k | k in t :: Mentions(out, k))
    && (forall i, j :: 0 <= i < j < |out| ==> !Before(t, out[j].key, out[i].key))
  }

  /** `head` is the oldest row of `repo`, or None when the repo has no row. */
  ghost predicate IsHead(t: Table, repo: string, head: Option<Landing>) {
    match head
    case None => RepoKeys(t, repo) == {}
    case Some(l) =>
      && l.key in t && t[l.key] == l.row && l.key.repo == repo
      && forall k | k in RepoKeys(t, repo) && k != l.key :: Before(t, l.key, k)
  }

  /** The head has waited longest; among equal times it is the lowest number. */
  lemma HeadIsOldest(t: Table, repo: string, l: Landing)
    requires IsHead(t, repo, Some(l))
    ensures l.key in t && t[l.key] == l.row && l.key.repo == repo
    ensures forall k | k in t && k.repo == repo ::
              t[l.key].updatedAt < t[k].updatedAt || (t[l.key].updatedAt == t[k].updatedAt && l.key.pr <= k.pr)
  {
    forall k | k in t && k.repo == repo
      ensures t[l.key].updatedAt < t[k].updatedAt || (t[l.key].updatedAt == t[k].updatedAt && l.key.pr <= k.pr)
    {
      assert k in RepoKeys(t, repo);
    }
  }

  /** Any non-empty set of keys has one that no other key of it precedes. */
  lemma {:induction false} OldestExists(t: Table, keys: set<Key>)
    requires keys != {} && keys <= t.Keys
    ensures exists k :: k in keys && forall o | o in keys :: !Before(t, o, k)
    decreases |keys|
  {
    var x :| x in keys;
    var rest := keys - {x};
    if rest == {} {
      assert keys == {x};
    } else {
      assert |rest| < |keys| by { SubsetSize(rest, keys); }
      OldestExists(t, rest);
      var y :| y in rest && forall o | o in rest :: !Before(t, o, y);
      if Before(t, x, y) {
        forall o | o in keys
          ensures !Before(t, o, x)
        {
          assert o == x || !Before(t, o, y);
        }
      } else {
        assert y in keys && forall o | o in keys :: !Before(t, o, y);
      }
    }
  }

  /** In a full listing the first row of a repo is that repo's head. */
  lemma FirstOfRepoIsHead(t: Table, out: seq<Landing>, i: nat)
    requires IsListing(t, out) && i < |out|
    requires forall j :: 0 <= j < i ==> out[j].key.repo != out[i].key.repo
    ensures IsHead(t, out[i].key.repo, Some(out[i]))
  {
    var h := out[i].key;
    forall k | k in RepoKeys(t, h.repo) && k != h
      ensures Before(t, h, k)
    {
      assert Mentions(out, k);
      var j :| 0 <= j < |out| && out[j].key == k;
      assert i < j;
      assert !Before(t, out[j].key, out[i].key);
      assert k.pr != h.pr;
    }
  }

  /** `out` lists the rows outside `left`, all of them before the rows in `left`. */
  ghost predicate PartialListing(t: Table, out: seq<Landing>, left: set<Key>) {
    && left <= t.Keys
    && (forall i :: 0 <= i < |out| ==> out[i].key in t && out[i].key !in left && t[out[i].key] == out[i].row)
    && (forall i, j :: 0 <= i < j < |out| ==> out[i].key != out[j].key)
    && (forall k | k in t && k !in left :: Mentions(out, k))
    && (forall i, j :: 0 <= i < j < |out| ==> !Before(t, out[j].key, out[i].key))
    && (forall i, k | 0 <= i < |out| && k in left :: !Before(t, k, out[i].key))
  }

  lemma ListingGrows(t: Table, out: seq<Landing>, left: set<Key>, k: Key)
    requires PartialListing(t, out, left)
    requires k in left && forall o | o in left :: !Before(t, o, k)
    ensures PartialListing(t, out + [Landing(k, t[k])], left - {k})
  {
    var out' := out + [Landing(k, t[k])];
    forall x | x in t && x !in left - {k}
      ensures Mentions(out', x)
    {
      if x == k {
        assert out'[|out|].key == x;
      } else {
        assert Mentions(out, x);
        var i :| 0 <= i < |out| && out[i].key == x;
        assert out'[i].key == x;
      }
    }
  }

  /** The durable store. Every operation may fail unless the store is known to be reliable, and
      a failed one leaves the table alone. A write is stamped with what the wall clock says when
      the statement runs; `clock` is its latest reading. The clock may say anything, but where it
      is known to tick, every reading is later than the one before. */
  class Store {
    const reliable: bool
    const ticking: bool
    var clock: int
    var rows: Table

    /** No stamp of a ticking clock lies ahead of its latest reading. */
    ghost predicate Valid()
      reads this
    {
      ticking ==> forall k | k in rows :: rows[k].updatedAt <= clock
    }

    constructor (reliable: bool, ticking: bool)
      ensures Valid() && rows == map[] && this.reliable == reliable && this.ticking == ticking
    {
      this.reliable, this.ticking, clock, rows := reliable, ticking, 0, map[];
    }

    /** Whether the next statement succeeds. */
    method Succeeds() returns (ok: bool)
      ensures reliable ==> ok
    {
      ok := *;
      ok := ok || reliable;
    }

    /** `Utc::now()`. */
    method Now() returns (now: int)
      modifies this`clock
      ensures clock == now && (ticking ==> old(clock) < now)
    {
      now := *;
      if ticking && now <= clock {
        now := clock + 1;
      }
      clock := now;
    }

    method EnqueueLanding(key: Key, ticket: string, head: string) returns (ok: bool, now: int)
      requires Valid()
      modifies this
      ensures Valid() && (reliable ==> ok) && clock == now && (ticking ==> old(clock) < now)
      ensures rows == if ok then Enqueued(old(rows), key, ticket, head, now) else old(rows)
    {
      now := Now();
      ok := Succeeds();
      if ok && key !in rows {
        rows := rows[key := Row(ticket, head, Queued, 0, now)];
      }
    }

    method GetLanding(key: Key) returns (r: Option<Option<Landing>>)
      ensures reliable ==> r.Some?
      ensures r.Some? ==> r.value == if key in rows then Some(Landing(key, rows[key])) else None
    {
      var ok := Succeeds();
      if !ok {
        return None;
      }
      r := Some(if key in rows then Some(Landing(key, rows[key])) else None);
    }

    method AdvanceLanding(key: Key, status: Status, head: string, attempt: nat)
      returns (ok: bool, now: int)
      requires Valid()
      modifies this
      ensures Valid() && (reliable ==> ok) && clock == now && (ticking ==> old(clock) < now)
      ensures rows == if ok then Advanced(old(rows), key, status, head, attempt, now) else old(rows)
    {
      now := Now();
      ok := Succeeds();
      if ok && key in rows {
        rows := rows[key := rows[key].(status := status, head := head, attempt := attempt, updatedAt := now)];
      }
    }

    method DequeueLanding(key: Key) returns (ok: bool)
      requires Valid()
      modifies this`rows
      ensures Valid() && (reliable ==> ok)
      ensures rows == if ok then Dequeued(old(rows), key) else old(rows)
    {
      ok := Succeeds();
      if ok {
        rows := rows - {key};
      }
    }

    method ListLandings() returns (r: Option<seq<Landing>>)
      ensures reliable ==> r.Some?
      ensures r.Some? ==> IsListing(rows, r.value)
    {
      var ok := Succeeds();
      if !ok {
        return None;
      }
      var out: seq<Landing> := [];
      var left := rows.Keys;
      while left != {}
        invariant PartialListing(rows, out, left)
        decreases left
      {
        OldestExists(rows, left);
        var k :| k in left && forall o | o in left :: !Before(rows, o, k);
        ListingGrows(rows, out, left, k);
        out := out + [Landing(k, rows[k])];
        left := left - {k};
      }
      r := Some(out);
    }
  }
}
