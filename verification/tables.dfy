/** The two storage collaborators of the service: the balance table and the history log.
    Their code is not part of this model; they are modelled by what the service relies on:
    a map whose missing entries read as the empty record, and an append-only log whose
    entries are numbered 1, 2, 3, ... in insertion order. */
module Tables {
  import opened Longs
  import opened UserPoints

  /** What `selectById` returns: the stored record, or the empty record of `id`. */
  function Lookup(table: map<long, UserPoint>, id: long, now: long): (r: UserPoint)
  {
    if id in table then table[id] else Empty(id, now)
  }

  /** The current point balance of `id`; an unknown user has 0. */
  function Balance(table: map<long, UserPoint>, id: long): (b: long)
    ensures id !in table ==> b == MIN_POINT
    ensures forall now :: Lookup(table, id, now).point == b
  {
    if id in table then table[id].point else 0
  }

  /** The records of user `u`, in insertion order. */
  function UserHistory(h: seq<PointHistory>, u: long): (r: seq<PointHistory>)
    ensures |r| <= |h|
    ensures forall i :: 0 <= i < |r| ==> r[i].userId == u && r[i] in h
    ensures forall i :: 0 <= i < |h| && h[i].userId == u ==> h[i] in r
    decreases |h|
  {
    if h == [] then []
    else UserHistory(h[..|h| - 1], u) + (if h[|h| - 1].userId == u then [h[|h| - 1]] else [])
  }

  /** Appending a record extends only its own user's history. */
  lemma UserHistoryAppend(h: seq<PointHistory>, x: PointHistory, u: long)
    ensures UserHistory(h + [x], u) == UserHistory(h, u) + (if x.userId == u then [x] else [])
  {
    assert (h + [x])[..|h|] == h;
  }

  /** A log with no record of `u` yields an empty history for `u`. */
  lemma {:induction false} UserHistoryOfAbsentUser(h: seq<PointHistory>, u: long)
    requires forall i :: 0 <= i < |h| ==> h[i].userId != u
    ensures UserHistory(h, u) == []
    decreases |h|
  {
    if h != [] {
      UserHistoryOfAbsentUser(h[..|h| - 1], u);
    }
  }

  class UserPointTable {
    var table: map<long, UserPoint>

    constructor ()
      ensures table == map[]
    {
      table := map[];
    }

    method SelectById(id: long, now: long) returns (r: UserPoint)
      ensures r == Lookup(table, id, now)
      ensures r.point == Balance(table, id)
    {
      if id in table {
        r := table[id];
      } else {
        r := Empty(id, now);
      }
    }

    /** Overwrites the record of `id` with `point`, stamped with `now`. */
    method InsertOrUpdate(id: long, point: long, now: long) returns (r: UserPoint)
      modifies this
      ensures r == UserPoint(id, point, now)
      ensures table == old(table)[id := r]
    {
      r := UserPoint(id, point, now);
      table := table[id := r];
    }
  }

  class PointHistoryTable {
    var history: seq<PointHistory>

    constructor ()
      ensures history == []
    {
      history := [];
    }

    /** Appends one record, numbered after all earlier ones. */
    method Insert(userId: long, amount: long, kind: TransactionType, updateMillis: long) returns (r: PointHistory)
      modifies this
      ensures r == PointHistory(|old(history)| + 1, userId, amount, kind, updateMillis)
      ensures history == old(history) + [r]
    {
      r := PointHistory(|history| + 1, userId, amount, kind, updateMillis);
      history := history + [r];
    }

    method SelectAllByUserId(userId: long) returns (rs: seq<PointHistory>)
      ensures rs == UserHistory(history, userId)
    {
      rs := UserHistory(history, userId);
    }
  }
}
