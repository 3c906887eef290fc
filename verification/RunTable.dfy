/** The `runs` table as the lifecycle managers see it: a row is inserted when a test
    result is collected and updated at most once, when the reboot outcome is known.
    Row identifiers are positions counted from 1; identifier 0 means "no row". */
module RunTable {
  import opened Options

  /** `key` is the pod UID or container ID the result was collected from. `attempts`
      counts the `UpdateBoot` calls made for the row; `boot` is what they stored. */
  datatype Row = Row(key: string, serial: string, attempts: nat, boot: Option<bool>)

  function Insert(rows: seq<Row>, key: string, serial: string): seq<Row>
  {
    rows + [Row(key, serial, 0, None)]
  }

  /** `updateBootResult`: skipped without a row; `dbOk` says whether the statement succeeds. */
  function UpdateBoot(rows: seq<Row>, rid: nat, bootOk: bool, dbOk: bool): seq<Row>
  {
    if rid == 0 || rid > |rows| then rows else
      var r := rows[rid - 1];
      rows[rid - 1 := r.(attempts := r.attempts + 1, boot := if dbOk then Some(bootOk) else r.boot)]
  }

  /** One row more, for this key and device, without a boot result. */
  predicate RowAdded(rows: seq<Row>, rows': seq<Row>, key: string, serial: string)
  {
    && |rows'| == |rows| + 1 && (forall i :: 0 <= i < |rows| ==> rows'[i] == rows[i])
    && rows'[|rows|].key == key && rows'[|rows|].serial == serial && rows'[|rows|].boot == None
  }

  /** Row `rid` holds the outcome `bootOk` and is otherwise what it was; so is every other row. */
  predicate Stored(rows: seq<Row>, rows': seq<Row>, rid: nat, bootOk: bool)
  {
    && 1 <= rid <= |rows| == |rows'|
    && rows'[rid - 1].boot == Some(bootOk) && rows'[rid - 1].key == rows[rid - 1].key
    && rows'[rid - 1].serial == rows[rid - 1].serial
    && forall i :: 0 <= i < |rows| && i != rid - 1 ==> rows'[i] == rows[i]
  }

  function Keys(rows: seq<Row>): multiset<string>
  {
    if rows == [] then multiset{} else Keys(rows[..|rows| - 1]) + multiset{rows[|rows| - 1].key}
  }

  /** Identifiers of the rows whose boot update is still outstanding. */
  function Owed(rows: seq<Row>): multiset<int>
  {
    if rows == [] then multiset{} else
      Owed(rows[..|rows| - 1]) + if rows[|rows| - 1].attempts == 0 then multiset{|rows|} else multiset{}
  }

  predicate Outstanding(rows: seq<Row>, rid: int)
  {
    1 <= rid <= |rows| && rows[rid - 1].attempts == 0
  }

  lemma {:induction false} OwedIs(rows: seq<Row>, rid: int)
    ensures Owed(rows)[rid] == if Outstanding(rows, rid) then 1 else 0
  {
    if rows != [] {
      OwedIs(rows[..|rows| - 1], rid);
    }
  }

  lemma InsertLedger(rows: seq<Row>, key: string, serial: string)
    ensures Keys(Insert(rows, key, serial)) == Keys(rows) + multiset{key}
    ensures Owed(Insert(rows, key, serial)) == Owed(rows) + multiset{|rows| + 1}
  {
    assert Insert(rows, key, serial)[..|rows|] == rows;
  }

  lemma {:induction false} KeysUpdate(rows: seq<Row>, i: nat, r: Row)
    requires i < |rows| && r.key == rows[i].key
    ensures Keys(rows[i := r]) == Keys(rows)
  {
    var n := |rows| - 1;
    if i == n {
      assert rows[i := r][..n] == rows[..n];
    } else {
      KeysUpdate(rows[..n], i, r);
      assert rows[i := r][..n] == rows[..n][i := r];
    }
  }

  lemma {:induction false} OwedUpdate(rows: seq<Row>, i: nat, r: Row)
    requires i < |rows| && rows[i].attempts == 0 && r.attempts == 1
    ensures Owed(rows[i := r]) + multiset{i + 1} == Owed(rows)
  {
    var n := |rows| - 1;
    if i == n {
      assert rows[i := r][..n] == rows[..n];
    } else {
      OwedUpdate(rows[..n], i, r);
      assert rows[i := r][..n] == rows[..n][i := r];
    }
  }

  /** An update settles exactly its own row's debt and touches no key. */
  lemma UpdateLedger(rows: seq<Row>, rid: nat, bootOk: bool, dbOk: bool)
    requires rid != 0 ==> Outstanding(rows, rid)
    ensures var rows' := UpdateBoot(rows, rid, bootOk, dbOk);
            Keys(rows') == Keys(rows) && Owed(rows') + (if rid == 0 then multiset{} else multiset{rid}) == Owed(rows)
  {
    if rid != 0 {
      var r := UpdateBoot(rows, rid, bootOk, dbOk)[rid - 1];
      KeysUpdate(rows, rid - 1, r);
      OwedUpdate(rows, rid - 1, r);
    }
  }

  /** Rows whose one boot update has been made. */
  ghost function Booted(rows: seq<Row>): set<nat>
  {
    set i | 0 <= i < |rows| && rows[i].attempts >= 1
  }

  lemma BootedLast(rows: seq<Row>)
    requires rows != []
    ensures |Booted(rows)| == |Booted(rows[..|rows| - 1])| + if rows[|rows| - 1].attempts >= 1 then 1 else 0
  {
    var n := |rows| - 1;
    var front := rows[..n];
    forall i | 0 <= i < n ensures front[i] == rows[i] {}
    assert Booted(rows) == Booted(front) + if rows[n].attempts >= 1 then {n} else {};
  }

  lemma {:induction false} BootedPlusOwed(rows: seq<Row>)
    ensures |Booted(rows)| + |Owed(rows)| == |rows|
  {
    if rows != [] {
      BootedPlusOwed(rows[..|rows| - 1]);
      BootedLast(rows);
    }
  }

  lemma {:induction false} KeysSize(rows: seq<Row>)
    ensures |Keys(rows)| == |rows|
  {
    if rows != [] {
      KeysSize(rows[..|rows| - 1]);
    }
  }

  lemma {:induction false} KeysHas(rows: seq<Row>, i: nat)
    requires i < |rows|
    ensures rows[i].key in Keys(rows)
  {
    if i < |rows| - 1 {
      KeysHas(rows[..|rows| - 1], i);
      assert rows[..|rows| - 1][i] == rows[i];
    }
  }

  lemma {:induction false} KeysOnce(rows: seq<Row>, i: nat, j: nat)
    requires i < j < |rows| && rows[i].key == rows[j].key
    ensures Keys(rows)[rows[i].key] >= 2
  {
    var n := |rows| - 1;
    if j == n {
      KeysHas(rows[..n], i);
    } else {
      KeysOnce(rows[..n], i, j);
    }
  }

  /** The table only grows; a row keeps its key and device, and is never un-updated. */
  ghost predicate Grows(rows: seq<Row>, rows': seq<Row>)
  {
    && |rows| <= |rows'|
    && forall i :: 0 <= i < |rows| ==>
         && rows'[i].key == rows[i].key && rows'[i].serial == rows[i].serial
         && rows[i].attempts <= rows'[i].attempts
  }
}
