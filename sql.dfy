/** The two tables of the state schema, `status` and `hot_block`, held in memory, and
    the effect of each SQL statement the state store issues against them. The DDL
    that creates the tables is not modelled: the tables are taken to exist. */
module Sql {
  import opened Base

  /** The contents of the tables. `status` is in storage order and, as the store does not
      rely on the primary key, may hold any rows; `hotBlock` is in storage order too. */
  datatype Tables = Tables(status: seq<StatusRow>, hotBlock: seq<HashAndHeight>)

  /** The rows `SELECT height, hash, nonce FROM status WHERE id = 0` returns. */
  function RowsWithIdZero(rows: seq<StatusRow>): (r: seq<StatusRow>)
    ensures |r| <= |rows|
  {
    if rows == [] then []
    else (if rows[0].id == 0 then [rows[0]] else []) + RowsWithIdZero(rows[1..])
  }

  /** The selected rows are exactly the stored rows with id 0. */
  lemma {:induction false} RowsWithIdZeroMembers(rows: seq<StatusRow>)
    ensures forall x :: x in RowsWithIdZero(rows) <==> x in rows && x.id == 0
  {
    if rows != [] {
      RowsWithIdZeroMembers(rows[1..]);
      assert rows == [rows[0]] + rows[1..];
    }
  }

  lemma {:induction false} RowsWithIdZeroAppend(rows: seq<StatusRow>, x: StatusRow)
    ensures RowsWithIdZero(rows + [x]) == RowsWithIdZero(rows) + (if x.id == 0 then [x] else [])
  {
    if rows == [] {
      assert RowsWithIdZero([x]) == (if x.id == 0 then [x] else []) + RowsWithIdZero([]);
    } else {
      var head := if rows[0].id == 0 then [rows[0]] else [];
      assert (rows + [x])[0] == rows[0];
      assert (rows + [x])[1..] == rows[1..] + [x];
      assert RowsWithIdZero(rows + [x]) == head + RowsWithIdZero(rows[1..] + [x]);
      RowsWithIdZeroAppend(rows[1..], x);
      assert RowsWithIdZero(rows) == head + RowsWithIdZero(rows[1..]);
    }
  }

  // ORDER BY height

  predicate Ascending(s: seq<HashAndHeight>)
  {
    forall i, j :: 0 <= i < j < |s| ==> s[i].height <= s[j].height
  }

  function InsertByHeight(b: HashAndHeight, s: seq<HashAndHeight>): (r: seq<HashAndHeight>)
    ensures multiset(r) == multiset(s) + multiset{b}
    ensures forall x :: x in r ==> x == b || x in s
  {
    if s == [] || b.height <= s[0].height then [b] + s
    else
      assert s == [s[0]] + s[1..];
      [s[0]] + InsertByHeight(b, s[1..])
  }

  lemma {:induction false} InsertAscending(b: HashAndHeight, s: seq<HashAndHeight>)
    requires Ascending(s)
    ensures Ascending(InsertByHeight(b, s))
  {
    if s != [] && b.height > s[0].height {
      var tail := s[1..];
      assert Ascending(tail) by {
        forall i, j | 0 <= i < j < |tail| ensures tail[i].height <= tail[j].height {
          assert tail[i] == s[i + 1] && tail[j] == s[j + 1];
        }
      }
      var rest := InsertByHeight(b, tail);
      InsertAscending(b, tail);
      forall x | x in rest ensures s[0].height <= x.height {
        if x != b {
          var k :| 0 <= k < |tail| && tail[k] == x;
          assert s[k + 1] == x;
        }
      }
      var r := [s[0]] + rest;
      assert r == InsertByHeight(b, s);
      forall i, j | 0 <= i < j < |r| ensures r[i].height <= r[j].height {
        assert r[j] == rest[j - 1];
        if i > 0 {
          assert r[i] == rest[i - 1];
        } else {
          assert rest[j - 1] in rest;
        }
      }
    }
  }

  /** The rows of `SELECT hash, height FROM hot_block ORDER BY height`, ties in storage order. */
  function SortByHeight(s: seq<HashAndHeight>): (r: seq<HashAndHeight>)
    ensures Ascending(r)
    ensures multiset(r) == multiset(s)
  {
    if s == [] then []
    else
      assert s == [s[0]] + s[1..];
      var rest := SortByHeight(s[1..]);
      InsertAscending(s[0], rest);
      InsertByHeight(s[0], rest)
  }

  // UPDATE status SET height = $1, hash = $2, nonce = nonce + 1 WHERE id = 0 AND nonce = $3

  predicate Matches(row: StatusRow, nonce: int)
  {
    row.id == 0 && row.nonce == nonce
  }

  function Advanced(row: StatusRow, next: HashAndHeight): StatusRow
  {
    row.(height := next.height, hash := next.hash, nonce := row.nonce + 1)
  }

  /** The status rows after the conditional update. */
  function UpdateRows(rows: seq<StatusRow>, nonce: int, next: HashAndHeight): (r: seq<StatusRow>)
    ensures |r| == |rows|
  {
    seq(|rows|, i requires 0 <= i < |rows| => if Matches(rows[i], nonce) then Advanced(rows[i], next) else rows[i])
  }

  /** The row count the update reports. */
  function RowsChanged(rows: seq<StatusRow>, nonce: int): (n: nat)
    ensures n <= |rows|
  {
    if rows == [] then 0 else (if Matches(rows[0], nonce) then 1 else 0) + RowsChanged(rows[1..], nonce)
  }

  /** The update reports a change exactly when it changes something. */
  lemma {:induction false} RowsChangedIffChanged(rows: seq<StatusRow>, nonce: int, next: HashAndHeight)
    ensures RowsChanged(rows, nonce) == 0 <==> UpdateRows(rows, nonce, next) == rows
  {
    if rows != [] {
      RowsChangedIffChanged(rows[1..], nonce, next);
      assert UpdateRows(rows, nonce, next)[1..] == UpdateRows(rows[1..], nonce, next);
      if Matches(rows[0], nonce) {
        assert UpdateRows(rows, nonce, next)[0] != rows[0];
      }
    }
  }

  /** With a single status row the update changes it iff its nonce is the expected one,
      and the row then holds the new head with the nonce one higher. */
  lemma {:induction false} UpdateSingleRow(rows: seq<StatusRow>, nonce: int, next: HashAndHeight)
    requires |RowsWithIdZero(rows)| == 1
    ensures var row := RowsWithIdZero(rows)[0];
      && RowsChanged(rows, nonce) == (if row.nonce == nonce then 1 else 0)
      && RowsWithIdZero(UpdateRows(rows, nonce, next)) == [if row.nonce == nonce then Advanced(row, next) else row]
  {
    var u := UpdateRows(rows, nonce, next);
    assert u[1..] == UpdateRows(rows[1..], nonce, next);
    if rows[0].id == 0 {
      assert RowsWithIdZero(rows[1..]) == [];
      NoIdZeroRowUnchanged(rows[1..], nonce, next);
    } else {
      UpdateSingleRow(rows[1..], nonce, next);
    }
  }

  lemma {:induction false} NoIdZeroRowUnchanged(rows: seq<StatusRow>, nonce: int, next: HashAndHeight)
    requires RowsWithIdZero(rows) == []
    ensures RowsChanged(rows, nonce) == 0
    ensures RowsWithIdZero(UpdateRows(rows, nonce, next)) == []
  {
    if rows != [] {
      assert rows[0] in rows;
      assert UpdateRows(rows, nonce, next)[1..] == UpdateRows(rows[1..], nonce, next);
      NoIdZeroRowUnchanged(rows[1..], nonce, next);
    }
  }

  /** Another writer commits an advance of the status row to `next`, with the nonce it read. */
  function RivalAdvance(t: Tables, next: HashAndHeight): Tables
  {
    var rows := RowsWithIdZero(t.status);
    if rows == [] then t else t.(status := UpdateRows(t.status, rows[0].nonce, next))
  }

  /** The sentinel row `INSERT INTO status (id, height, hash) VALUES (0, -1, '0x')` adds; nonce takes its default 0. */
  const Sentinel := StatusRow(0, -1, "0x", 0)

  /** The backing store: the tables and, while a transaction is open, the contents it rolls back to. */
  class Database {
    var status: seq<StatusRow>
    var hotBlock: seq<HashAndHeight>
    var savepoint: Option<Tables>

    function Contents(): Tables
      reads this
    {
      Tables(status, hotBlock)
    }

    constructor (initial: Tables)
      ensures Contents() == initial && savepoint.None?
    {
      status := initial.status;
      hotBlock := initial.hotBlock;
      savepoint := None;
    }

    /** START TRANSACTION. */
    method Begin()
      requires savepoint.None?
      modifies this
      ensures Contents() == old(Contents()) && savepoint == Some(old(Contents()))
    {
      savepoint := Some(Contents());
    }

    /** The end of a transaction whose unit of work finished with `r`: ROLLBACK when it
        failed, otherwise COMMIT, which fails with a serialization conflict when the
        store reports one, and then rolls back too. */
    method Finish(r: Outcome, commitConflict: bool) returns (r': Outcome)
      requires savepoint.Some?
      modifies this
      ensures r' == if r.Fail? then r else if commitConflict then Fail(SerializationConflict) else Pass
      ensures Contents() == if r'.Fail? then old(savepoint.value) else old(Contents())
      ensures savepoint.None?
    {
      r' := r;
      if r.Pass? && commitConflict {
        r' := Fail(SerializationConflict);
      }
      if r'.Fail? {
        status := savepoint.value.status;
        hotBlock := savepoint.value.hotBlock;
      }
      savepoint := None;
    }

    /** `SELECT height, hash, nonce FROM status WHERE id = 0`; `conflict` is the store
        raising a serialization failure on this query. */
    method SelectStatus(conflict: bool) returns (r: Result<seq<StatusRow>>)
      ensures r == if conflict then Err(SerializationConflict) else Ok(RowsWithIdZero(status))
    {
      if conflict {
        r := Err(SerializationConflict);
      } else {
        r := Ok(RowsWithIdZero(status));
      }
    }

    /** `SELECT hash, height FROM hot_block ORDER BY height`. */
    method SelectHotBlocks() returns (rows: seq<HashAndHeight>)
      ensures Ascending(rows) && multiset(rows) == multiset(hotBlock)
      ensures rows == SortByHeight(hotBlock)
    {
      rows := SortByHeight(hotBlock);
    }

    /** `UPDATE status SET height = $1, hash = $2, nonce = nonce + 1 WHERE id = 0 AND nonce = $3`. */
    method UpdateStatus(nonce: int, next: HashAndHeight) returns (rowsChanged: nat)
      modifies this
      ensures status == UpdateRows(old(status), nonce, next)
      ensures rowsChanged == RowsChanged(old(status), nonce)
      ensures hotBlock == old(hotBlock) && savepoint == old(savepoint)
    {
      rowsChanged := RowsChanged(status, nonce);
      status := UpdateRows(status, nonce, next);
    }

    /** `INSERT INTO status (id, height, hash) VALUES (0, -1, '0x')`. */
    method InsertSentinel()
      modifies this
      ensures status == old(status) + [Sentinel]
      ensures hotBlock == old(hotBlock) && savepoint == old(savepoint)
    {
      status := status + [Sentinel];
    }

    /** Another process commits an advance of the status row while this one is inside a
        transaction that has written nothing yet: the change is visible, and a rollback
        of this transaction keeps it. */
    method ConcurrentAdvance(next: HashAndHeight)
      requires savepoint == Some(Contents())
      modifies this
      ensures Contents() == RivalAdvance(old(Contents()), next)
      ensures savepoint == Some(Contents())
    {
      var t := RivalAdvance(Contents(), next);
      status := t.status;
      hotBlock := t.hotBlock;
      savepoint := Some(t);
    }
  }
}
