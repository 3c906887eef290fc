/** The reboot tasks of Docker mode and the three ledgers that tie them to the `rebooting`
    set, the run table and the `reported` set. */
module DockerTasks {
  import opened AdbDevices
  import opened DockerState
  import opened Ledger
  import opened Options
  import opened RunTable

  /** Program counter of `rebootAndReport`. */
  datatype Task =
    | Rebooting(serial: Serial, rid: nat)       // reboot and wait for the device
    | ClearFirst(serial: Serial, rid: nat)      // failed: clear the flag
    | UpdateAfter(serial: Serial, rid: nat)     // then record the failed boot
    | UpdateFirst(serial: Serial, rid: nat)     // ready again: record the good boot
    | ClearLast(serial: Serial)                 // then clear the flag

  /** The device whose `rebooting` flag the task has still to clear. */
  function Flags(t: Task): multiset<Serial>
  {
    if t.UpdateAfter? then multiset{} else multiset{t.serial}
  }

  /** What a reboot task does next; `ok` is the outcome of the reboot. */
  function NextTask(t: Task, ok: bool): Option<Task>
  {
    match t
    case Rebooting(serial, rid) => Some(if ok then UpdateFirst(serial, rid) else ClearFirst(serial, rid))
    case ClearFirst(serial, rid) => Some(UpdateAfter(serial, rid))
    case UpdateAfter(_, _) => None
    case UpdateFirst(serial, _) => Some(ClearLast(serial))
    case ClearLast(_) => None
  }

  predicate Clears(t: Task)
  {
    t.ClearFirst? || t.ClearLast?
  }

  predicate Updates(t: Task)
  {
    t.UpdateAfter? || t.UpdateFirst?
  }

  function Debts(t: Task): multiset<int>
  {
    if t.ClearLast? || t.rid == 0 then multiset{} else multiset{t.rid}
  }

  // ── The three ledgers ──

  /** What each kind of step hands on: clearing drops the flag only, recording the debt only,
      the reboot itself neither. */
  lemma NextHolds(t: Task, ok: bool)
    ensures Clears(t) ==>
              && Held(NextTask(t, ok), Flags) == multiset{} && Flags(t) != multiset{}
              && Held(NextTask(t, ok), Debts) == Debts(t)
    ensures Updates(t) ==> Held(NextTask(t, ok), Flags) == Flags(t) && Held(NextTask(t, ok), Debts) == multiset{}
    ensures t.Rebooting? ==>
              && NextTask(t, ok).Some? && Flags(NextTask(t, ok).value) == Flags(t)
              && Debts(NextTask(t, ok).value) == Debts(t)
  {}

  /** A device is flagged once if exactly one task has still to clear its flag. */
  ghost predicate FlagsAt(tasks: map<nat, Task>, rebooting: set<Serial>, serial: Serial)
  {
    Total(tasks, Flags)[serial] == One(rebooting, serial)
  }

  ghost predicate FlagsOk(tasks: map<nat, Task>, rebooting: set<Serial>)
  {
    forall serial :: FlagsAt(tasks, rebooting, serial)
  }

  ghost predicate DebtsAt(tasks: map<nat, Task>, rows: seq<Row>, rid: int)
  {
    Total(tasks, Debts)[rid] == Owed(rows)[rid]
  }

  /** Every row without its boot update is owed it by exactly one task. */
  ghost predicate DebtsOk(tasks: map<nat, Task>, rows: seq<Row>)
  {
    forall rid :: DebtsAt(tasks, rows, rid)
  }

  /** The row a task owes its outcome to exists and has none yet. */
  lemma DebtOutstanding(tasks: map<nat, Task>, rows: seq<Row>, id: nat)
    requires DebtsOk(tasks, rows) && id in tasks
    ensures !tasks[id].ClearLast? && tasks[id].rid != 0 ==> Outstanding(rows, tasks[id].rid)
  {
    if !tasks[id].ClearLast? && tasks[id].rid != 0 {
      var rid: int := tasks[id].rid;
      assert DebtsAt(tasks, rows, rid) && rid in Debts(tasks[id]);
      TotalHas(tasks, Debts, rid);
      OwedIs(rows, rid);
    }
  }

  /** One step of the task under `id`: what the task is afterwards, and what its row holds if the
      statement succeeded. */
  predicate Stepped(task: Task, ok: bool, id: nat, tasks: map<nat, Task>, rows: seq<Row>, rows': seq<Row>, dbOk: bool)
  {
    match task
    case Rebooting(serial, rid) =>
      id in tasks && tasks[id] == (if ok then UpdateFirst(serial, rid) else ClearFirst(serial, rid)) && rows' == rows
    case UpdateFirst(serial, rid) =>
      && id in tasks && tasks[id] == ClearLast(serial)
      && (dbOk ==> if rid == 0 then rows' == rows else Stored(rows, rows', rid, true))
    case ClearFirst(serial, rid) => id in tasks && tasks[id] == UpdateAfter(serial, rid) && rows' == rows
    case UpdateAfter(_, rid) =>
      id !in tasks && (dbOk ==> if rid == 0 then rows' == rows else Stored(rows, rows', rid, false))
    case ClearLast(_) => id !in tasks && rows' == rows
  }

  lemma TaskSteps(tasks: map<nat, Task>, rows: seq<Row>, id: nat, newId: nat, ok: bool, dbOk: bool)
    requires DebtsOk(tasks, rows) && id in tasks && newId !in tasks
    ensures var task := tasks[id];
            var rows' := if Updates(task) then UpdateBoot(rows, task.rid, task.UpdateFirst?, dbOk) else rows;
            Stepped(task, ok, id, After(tasks, id, NextTask(task, ok), newId, None), rows, rows', dbOk)
  {
    DebtOutstanding(tasks, rows, id);
  }

  ghost predicate KeysAt(rows: seq<Row>, lost: set<string>, reported: set<string>, key: string)
  {
    Keys(rows)[key] + One(lost, key) == One(reported, key)
  }

  /** Every reported container has exactly one row, or its insert failed. */
  ghost predicate KeysOk(rows: seq<Row>, lost: set<string>, reported: set<string>)
  {
    forall key :: KeysAt(rows, lost, reported, key)
  }

  lemma FlagsMove(tasks: map<nat, Task>, id: nat, next: Option<Task>, newId: nat, rebooting: set<Serial>,
                  rebooting': set<Serial>)
    requires FlagsOk(tasks, rebooting) && id in tasks && newId !in tasks
    requires if Held(next, Flags) == Flags(tasks[id]) then rebooting' == rebooting
             else Held(next, Flags) == multiset{} && rebooting' == rebooting - {tasks[id].serial}
    ensures FlagsOk(After(tasks, id, next, newId, None), rebooting')
  {
    var none: Option<Task> := None;
    var after := After(tasks, id, next, newId, none);
    Balance(tasks, id, next, newId, none, Flags);
    TotalCovers(tasks, Flags, id);
    forall serial ensures FlagsAt(after, rebooting', serial) {
      assert FlagsAt(tasks, rebooting, serial);
      assert (Total(after, Flags) + Flags(tasks[id]))[serial]
             == (Total(tasks, Flags) + Held(next, Flags) + Held(none, Flags))[serial];
    }
  }

  lemma DebtsMove(tasks: map<nat, Task>, id: nat, next: Option<Task>, newId: nat, rows: seq<Row>, bootOk: bool,
                  dbOk: bool)
    requires DebtsOk(tasks, rows) && id in tasks && newId !in tasks && !tasks[id].ClearLast?
    requires Held(next, Debts) == multiset{}
    ensures DebtsOk(After(tasks, id, next, newId, None), UpdateBoot(rows, tasks[id].rid, bootOk, dbOk))
    ensures Keys(UpdateBoot(rows, tasks[id].rid, bootOk, dbOk)) == Keys(rows)
    ensures tasks[id].rid != 0 ==> Outstanding(rows, tasks[id].rid)
  {
    var none: Option<Task> := None;
    var rid := tasks[id].rid;
    var after := After(tasks, id, next, newId, none);
    var rows' := UpdateBoot(rows, rid, bootOk, dbOk);
    Balance(tasks, id, next, newId, none, Debts);
    TotalCovers(tasks, Debts, id);
    assert DebtsAt(tasks, rows, rid);
    OwedIs(rows, rid);
    UpdateLedger(rows, rid, bootOk, dbOk);
    forall r ensures DebtsAt(after, rows', r) {
      assert DebtsAt(tasks, rows, r);
      assert (Total(after, Debts) + Debts(tasks[id]))[r]
             == (Total(tasks, Debts) + Held(next, Debts) + Held(none, Debts))[r];
      assert (Owed(rows') + Debts(tasks[id]))[r] == Owed(rows)[r];
    }
  }

  lemma DebtsPass(tasks: map<nat, Task>, id: nat, next: Option<Task>, newId: nat, rows: seq<Row>)
    requires DebtsOk(tasks, rows) && id in tasks && newId !in tasks && Held(next, Debts) == Debts(tasks[id])
    ensures DebtsOk(After(tasks, id, next, newId, None), rows)
  {
    var none: Option<Task> := None;
    var after := After(tasks, id, next, newId, none);
    Balance(tasks, id, next, newId, none, Debts);
    forall r ensures DebtsAt(after, rows, r) {
      assert DebtsAt(tasks, rows, r);
      assert (Total(after, Debts) + Debts(tasks[id]))[r]
             == (Total(tasks, Debts) + Held(next, Debts) + Held(none, Debts))[r];
    }
  }

  /** Recording a boot outcome keeps all ledgers. */
  lemma UpdateBooked(tasks: map<nat, Task>, id: nat, next: Option<Task>, newId: nat, rebooting: set<Serial>,
                     rows: seq<Row>, lost: set<string>, reported: set<string>, bootOk: bool, dbOk: bool)
    requires FlagsOk(tasks, rebooting) && DebtsOk(tasks, rows) && KeysOk(rows, lost, reported) && OnceAtMost(rows)
    requires id in tasks && newId !in tasks && !tasks[id].ClearLast?
    requires Held(next, Flags) == Flags(tasks[id]) && Held(next, Debts) == multiset{}
    ensures var rows' := UpdateBoot(rows, tasks[id].rid, bootOk, dbOk);
            && FlagsOk(After(tasks, id, next, newId, None), rebooting)
            && DebtsOk(After(tasks, id, next, newId, None), rows')
            && KeysOk(rows', lost, reported) && OnceAtMost(rows')
  {
    FlagsMove(tasks, id, next, newId, rebooting, rebooting);
    DebtsMove(tasks, id, next, newId, rows, bootOk, dbOk);
    var rows' := UpdateBoot(rows, tasks[id].rid, bootOk, dbOk);
    forall key ensures KeysAt(rows', lost, reported, key) { assert KeysAt(rows, lost, reported, key); }
  }

  /** A new reboot task takes over the flag just set and the debt of the row just inserted. */
  lemma TaskStarts(tasks: map<nat, Task>, newId: nat, serial: Serial, rid: nat, rebooting: set<Serial>, rows: seq<Row>,
                   rows': seq<Row>)
    requires FlagsOk(tasks, rebooting) && DebtsOk(tasks, rows) && newId !in tasks && serial !in rebooting
    requires if rid == 0 then rows' == rows else Owed(rows') == Owed(rows) + multiset{rid}
    ensures FlagsOk(tasks[newId := Rebooting(serial, rid)], rebooting + {serial})
    ensures DebtsOk(tasks[newId := Rebooting(serial, rid)], rows')
  {
    FlagTaken(tasks, newId, serial, rid, rebooting);
    DebtTaken(tasks, newId, serial, rid, rows, rows');
  }

  lemma FlagTaken(tasks: map<nat, Task>, newId: nat, serial: Serial, rid: nat, rebooting: set<Serial>)
    requires FlagsOk(tasks, rebooting) && newId !in tasks && serial !in rebooting
    ensures FlagsOk(tasks[newId := Rebooting(serial, rid)], rebooting + {serial})
  {
    var tasks', rebooting' := tasks[newId := Rebooting(serial, rid)], rebooting + {serial};
    TotalPut(tasks, Flags, newId, Rebooting(serial, rid));
    forall s ensures FlagsAt(tasks', rebooting', s) { assert FlagsAt(tasks, rebooting, s); }
  }

  lemma DebtTaken(tasks: map<nat, Task>, newId: nat, serial: Serial, rid: nat, rows: seq<Row>, rows': seq<Row>)
    requires DebtsOk(tasks, rows) && newId !in tasks
    requires if rid == 0 then rows' == rows else Owed(rows') == Owed(rows) + multiset{rid}
    ensures DebtsOk(tasks[newId := Rebooting(serial, rid)], rows')
  {
    var tasks' := tasks[newId := Rebooting(serial, rid)];
    TotalPut(tasks, Debts, newId, Rebooting(serial, rid));
    forall r ensures DebtsAt(tasks', rows', r) { assert DebtsAt(tasks, rows, r); }
  }

  lemma KeysInsert(rows: seq<Row>, lost: set<string>, reported: set<string>, key: string, serial: Serial)
    requires KeysOk(rows, lost, reported) && key !in reported
    ensures KeysOk(Insert(rows, key, serial), lost, reported + {key})
    ensures KeysOk(rows, lost + {key}, reported + {key})
    ensures Owed(Insert(rows, key, serial)) == Owed(rows) + multiset{|rows| + 1}
  {
    InsertLedger(rows, key, serial);
    assert KeysAt(rows, lost, reported, key);
    forall k ensures KeysAt(Insert(rows, key, serial), lost, reported + {key}, k)
        && KeysAt(rows, lost + {key}, reported + {key}, k) {
      assert KeysAt(rows, lost, reported, k);
    }
  }

  /** No run is updated twice. */
  predicate OnceAtMost(rows: seq<Row>)
  {
    forall i :: 0 <= i < |rows| ==> rows[i].attempts <= 1
  }

  /** A finished test is booked: its run is inserted or lost, its key is reported, its device
      flagged and its reboot task started. */
  lemma ResultBooked(tasks: map<nat, Task>, newId: nat, serial: Serial, rid: nat, rebooting: set<Serial>,
                     rows: seq<Row>, rows': seq<Row>, lost: set<string>, lost': set<string>, reported: set<string>,
                     key: string)
    requires FlagsOk(tasks, rebooting) && DebtsOk(tasks, rows) && KeysOk(rows, lost, reported) && OnceAtMost(rows)
    requires newId !in tasks && serial !in rebooting && key !in reported
    requires if rid == 0 then rows' == rows && lost' == lost + {key}
             else rid == |rows| + 1 && rows' == Insert(rows, key, serial) && lost' == lost
    ensures FlagsOk(tasks[newId := Rebooting(serial, rid)], rebooting + {serial})
    ensures DebtsOk(tasks[newId := Rebooting(serial, rid)], rows')
    ensures KeysOk(rows', lost', reported + {key}) && OnceAtMost(rows')
  {
    KeysInsert(rows, lost, reported, key, serial);
    TaskStarts(tasks, newId, serial, rid, rebooting, rows, rows');
  }

  /** While a device reboots, all its test containers have been reported. */
  predicate Exclusive(cs: map<string, Container>, rebooting: set<Serial>, reported: set<string>)
  {
    forall n :: n in cs && cs[n].managed && cs[n].role == Tests && cs[n].device in rebooting ==> cs[n].id in reported
  }
}
