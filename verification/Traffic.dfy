// Per-user traffic rows: how the server writes them to the database and merges them back.
module Traffic {
  import opened Basics

  type Pass = string

  datatype Row = Row(up: nat, down: nat, lastSeen: int, deactivated: bool)

  const ZERO := Row(0, 0, 0, false)

  function Max(a: int, b: int): (m: int)
    ensures m >= a && m >= b
  {
    if a > b then a else b
  }

  /** The UPDATE of UpdateUsersTraffic: counters and flag are overwritten, last_seen only grows. */
  function Overwrite(row: Row, u: Row): Row {
    Row(u.up, u.down, Max(u.lastSeen, row.lastSeen), u.deactivated)
  }

  /** MergeTrafficSnapshots for one user. */
  function MergeOne(row: Row, snap: Row): Row {
    Row(Max(row.up, snap.up), Max(row.down, snap.down), Max(row.lastSeen, snap.lastSeen), row.deactivated || snap.deactivated)
  }

  function Flushed(rows: map<Pass, Row>, updates: map<Pass, Row>): map<Pass, Row> {
    map p | p in rows :: if p in updates && p != "" then Overwrite(rows[p], updates[p]) else rows[p]
  }

  function Merged(rows: map<Pass, Row>, snap: map<Pass, Row>): map<Pass, Row> {
    map p | p in rows :: if p in snap then MergeOne(rows[p], snap[p]) else rows[p]
  }

  /** Of a known user every column is written: the counters and the flag as they are in memory,
      last_seen as the later one. All other rows stay. */
  lemma FlushedColumns(rows: map<Pass, Row>, updates: map<Pass, Row>, p: Pass)
    requires p in rows
    ensures var r := Flushed(rows, updates);
            && r.Keys == rows.Keys
            && (p == "" || p !in updates ==> r[p] == rows[p])
            && (p != "" && p in updates ==>
                  && r[p].up == updates[p].up && r[p].down == updates[p].down && r[p].deactivated == updates[p].deactivated
                  && r[p].lastSeen >= rows[p].lastSeen && r[p].lastSeen >= updates[p].lastSeen
                  && (r[p].lastSeen == rows[p].lastSeen || r[p].lastSeen == updates[p].lastSeen))
  {
  }

  /** A merge loses nothing either side has: the larger of each counter, deactivated if either is. */
  lemma MergedColumns(rows: map<Pass, Row>, snap: map<Pass, Row>, p: Pass)
    requires p in rows
    ensures var r := Merged(rows, snap);
            && r.Keys == rows.Keys
            && (p !in snap ==> r[p] == rows[p])
            && (p in snap ==>
                  && r[p].up >= rows[p].up && r[p].up >= snap[p].up && (r[p].up == rows[p].up || r[p].up == snap[p].up)
                  && r[p].down >= rows[p].down && r[p].down >= snap[p].down
                  && (r[p].down == rows[p].down || r[p].down == snap[p].down)
                  && r[p].lastSeen >= rows[p].lastSeen && r[p].lastSeen >= snap[p].lastSeen
                  && (r[p].deactivated <==> rows[p].deactivated || snap[p].deactivated))
  {
  }

  // ---------- The row-by-row loops ----------

  class UsersTable {
    var rows: map<Pass, Row>

    constructor (rows: map<Pass, Row>)
      ensures this.rows == rows
    {
      this.rows := rows;
    }

    /** One UPDATE ... WHERE password = ? per user, in any order. */
    method UpdateUsersTraffic(updates: map<Pass, Row>)
      modifies this
      ensures rows == Flushed(old(rows), updates)
    {
      var todo := updates.Keys;
      while todo != {}
        invariant todo <= updates.Keys && rows.Keys == old(rows).Keys
        invariant forall p | p in rows ::
          rows[p] == if p in updates && p !in todo && p != "" then Overwrite(old(rows)[p], updates[p]) else old(rows)[p]
      {
        var pass := AnyOf(todo);
        todo := todo - {pass};
        if pass == "" {
          continue;
        }
        if pass in rows {
          rows := rows[pass := Overwrite(rows[pass], updates[pass])];
        }
      }
    }

    method MergeTrafficSnapshots(from: map<Pass, Row>)
      modifies this
      ensures rows == Merged(old(rows), from)
    {
      var todo := from.Keys;
      while todo != {}
        invariant todo <= from.Keys && rows.Keys == old(rows).Keys
        invariant forall p | p in rows ::
          rows[p] == if p in from && p !in todo then MergeOne(old(rows)[p], from[p]) else old(rows)[p]
      {
        var pass := AnyOf(todo);
        todo := todo - {pass};
        if pass !in rows {
          continue;
        }
        var u, snap := rows[pass], from[pass];
        if snap.up > u.up {
          u := u.(up := snap.up);
        }
        if snap.down > u.down {
          u := u.(down := snap.down);
        }
        if snap.lastSeen > u.lastSeen {
          u := u.(lastSeen := snap.lastSeen);
        }
        if snap.deactivated {
          u := u.(deactivated := true);
        }
        rows := rows[pass := u];
      }
    }

    /** The two loops of a sync: drop what the disk lacks, copy what it has. */
    method ReplaceWith(incoming: map<Pass, Row>)
      modifies this
      ensures rows == incoming
    {
      var todo := rows.Keys;
      while todo != {}
        invariant todo <= rows.Keys
        invariant forall p | p in rows :: p in todo || p in incoming
      {
        var pass := AnyOf(todo);
        todo := todo - {pass};
        if pass !in incoming {
          rows := rows - {pass};
        }
      }
      todo := incoming.Keys;
      while todo != {}
        invariant todo <= incoming.Keys
        invariant forall p | p in rows :: p in incoming
        invariant forall p | p in incoming && p !in todo :: p in rows && rows[p] == incoming[p]
      {
        var pass := AnyOf(todo);
        todo := todo - {pass};
        rows := rows[pass := incoming[pass]];
      }
      assert rows.Keys == incoming.Keys;
    }
  }
}
