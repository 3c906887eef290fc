/** The Docker-mode manager: an atomic Reconcile pass interleaved with the atomic steps of
    the reboot tasks it starts. */
module DockerManager {
  import opened AdbDevices
  import opened DockerFields
  import opened DockerFrames
  import opened DockerPass
  import opened DockerPorts
  import opened DockerSettle
  import opened DockerState
  import opened DockerTasks
  import opened Ledger
  import opened Options
  import opened RunTable

  class Manager {
    const testImage: string
    const basePort: int

    var containers: map<string, Container>
    var ids: set<string>                          // history: identifiers ever issued
    var rebooting: set<Serial>
    var reported: set<string>
    var usbCache: map<Serial, UsbInfo>
    var rows: seq<Row>
    var lost: set<string>                         // history: keys whose insert failed
    var tasks: map<nat, Task>
    var clock: nat

    var faults: nat                               // history: failed calls and refusals
    var ops: seq<Serial>                          // history: devices acted upon
    ghost var attempts: seq<Attempt>                    // history: calls of createAppium

    // ── Invariant ──

    ghost predicate Valid()
      reads this
    {
      && DockerOk(containers, ids)
      && reported <= ids
      && Exclusive(containers, rebooting, reported)
      && FlagsOk(tasks, rebooting) && DebtsOk(tasks, rows) && KeysOk(rows, lost, reported)
      && OnceAtMost(rows)
      && (forall id :: id in tasks ==> id < clock)
    }

    constructor (testImage: string, basePort: int, containers: map<string, Container>, ids: set<string>,
                 cache: map<Serial, UsbInfo>)
      requires DockerOk(containers, ids)
      ensures Valid()
      ensures this.containers == containers && usbCache == cache && this.testImage == testImage
              && this.basePort == basePort
      ensures rows == [] && attempts == []
    {
      this.testImage, this.basePort := testImage, basePort;
      this.containers, this.ids := containers, ids;
      rebooting, reported, usbCache := {}, {}, cache;
      rows, lost, tasks, clock := [], {}, map[], 0;
      faults, ops, attempts := 0, [], [];
    }

    // ── Reboot tasks ──

    /** One atomic step of a reboot task. `ok` is the outcome of the reboot itself. */
    method StepTask(id: nat) returns (ok: bool)
      requires Valid() && id in tasks
      modifies this`rebooting, this`rows, this`tasks, this`faults
      ensures Valid()
      ensures tasks == After(old(tasks), id, NextTask(old(tasks[id]), ok), clock, None)
      ensures Clears(old(tasks[id])) ==> rebooting == old(rebooting) - {old(tasks[id]).serial} && rows == old(rows)
      ensures Updates(old(tasks[id])) ==>
                rebooting == old(rebooting)
                  && rows == UpdateBoot(old(rows), old(tasks[id]).rid, old(tasks[id]).UpdateFirst?,
                                        faults == old(faults))
      ensures old(tasks[id]).Rebooting? ==> rebooting == old(rebooting) && rows == old(rows)
      ensures faults >= old(faults) && (!Updates(old(tasks[id])) ==> faults == old(faults))
      ensures Stepped(old(tasks[id]), ok, id, tasks, old(rows), rows, faults == old(faults))
    {
      ghost var tasks0, rows0 := tasks, rows;
      ok := *;
      var task := tasks[id];
      var next := NextTask(task, ok);
      NextHolds(task, ok);
      if Clears(task) {
        Clear(id, next);
      } else if Updates(task) {
        Update(id, task.rid, next, task.UpdateFirst?);
      } else {
        Advance(id, next.value);
      }
      TaskSteps(tasks0, rows0, id, clock, ok, faults == old(faults));
    }

    /** A reboot task from its start to its end, with nothing in between: the flag is cleared and
        the row holds the outcome. */
    method RunTask(id: nat) returns (ok: bool)
      requires Valid() && id in tasks && tasks[id].Rebooting?
      modifies this`rebooting, this`rows, this`tasks, this`faults
      ensures Valid() && tasks == old(tasks) - {id} && rebooting == old(rebooting) - {old(tasks[id]).serial}
      ensures faults == old(faults) ==>
                if old(tasks[id]).rid == 0 then rows == old(rows) else Stored(old(rows), rows, old(tasks[id]).rid, ok)
    {
      ok := StepTask(id);
      var second := StepTask(id);
      var third := StepTask(id);
    }

    method Clear(id: nat, next: Option<Task>)
      requires Valid() && id in tasks && Held(next, Flags) == multiset{} && Flags(tasks[id]) != multiset{}
      requires Held(next, Debts) == Debts(tasks[id])
      modifies this`rebooting, this`tasks
      ensures Valid() && rebooting == old(rebooting) - {old(tasks[id]).serial}
      ensures tasks == After(old(tasks), id, next, clock, None)
    {
      FlagsMove(tasks, id, next, clock, rebooting, rebooting - {tasks[id].serial});
      DebtsPass(tasks, id, next, clock, rows);
      rebooting := rebooting - {tasks[id].serial};
      tasks := After(tasks, id, next, clock, None);
    }

    method Advance(id: nat, next: Task)
      requires Valid() && id in tasks && Flags(next) == Flags(tasks[id]) && Debts(next) == Debts(tasks[id])
      modifies this`tasks
      ensures Valid() && tasks == After(old(tasks), id, Some(next), clock, None)
    {
      FlagsMove(tasks, id, Some(next), clock, rebooting, rebooting);
      DebtsPass(tasks, id, Some(next), clock, rows);
      tasks := After(tasks, id, Some(next), clock, None);
    }

    method Update(id: nat, rid: nat, next: Option<Task>, bootOk: bool)
      requires Valid() && id in tasks && !tasks[id].ClearLast? && tasks[id].rid == rid
      requires Held(next, Flags) == Flags(tasks[id]) && Held(next, Debts) == multiset{}
      modifies this`tasks, this`rows, this`faults
      ensures Valid() && rows == UpdateBoot(old(rows), rid, bootOk, faults == old(faults)) && faults >= old(faults)
      ensures tasks == After(old(tasks), id, next, clock, None)
    {
      var dbOk := *;
      UpdateBooked(tasks, id, next, clock, rebooting, rows, lost, reported, bootOk, dbOk);
      rows, tasks := UpdateBoot(rows, rid, bootOk, dbOk), After(tasks, id, next, clock, None);
      faults := if dbOk then faults else faults + 1;
    }

    // ── What the invariant means ──

    /** `rebooting` holds a device exactly when one reboot task has not yet cleared it, and
        then no test container of the device is unreported. */
    lemma RebootExclusive(serial: Serial)
      requires Valid()
      ensures serial in rebooting <==> exists id :: id in tasks && serial in Flags(tasks[id])
      ensures forall i, j :: i in tasks && j in tasks && serial in Flags(tasks[i]) && serial in Flags(tasks[j]) ==>
                i == j
      ensures serial in rebooting ==> forall n :: Owns(containers, n, Tests, serial) ==> containers[n].id in reported
    {
      assert FlagsAt(tasks, rebooting, serial);
      TotalHas(tasks, Flags, serial);
      forall i, j | i in tasks && j in tasks && serial in Flags(tasks[i]) && serial in Flags(tasks[j]) ensures i == j {
        TotalOnce(tasks, Flags, i, j, serial);
      }
    }

    /** Every inserted run has had its boot update or is owed it by one reboot task; no two
        runs come from one container. */
    lemma BootConservation()
      requires Valid()
      ensures |rows| == |Booted(rows)| + |Holders(tasks, Debts)| && OnceAtMost(rows)
      ensures forall i, j :: 0 <= i < j < |rows| ==> rows[i].key != rows[j].key
      ensures |reported| == |rows| + |lost|
    {
      BootedPlusOwed(rows);
      forall rid ensures Total(tasks, Debts)[rid] == Owed(rows)[rid] { assert DebtsAt(tasks, rows, rid); }
      assert Total(tasks, Debts) == Owed(rows);
      TotalCounts(tasks, Debts);
      forall i, j | 0 <= i < j < |rows| ensures rows[i].key != rows[j].key {
        assert KeysAt(rows, lost, reported, rows[i].key);
        if rows[i].key == rows[j].key {
          KeysOnce(rows, i, j);
        }
      }
      ReportedCount();
    }

    lemma ReportedCount()
      requires Valid()
      ensures |reported| == |rows| + |lost|
    {
      forall key ensures (Keys(rows) + multiset(lost))[key] == multiset(reported)[key] {
        assert KeysAt(rows, lost, reported, key);
      }
      assert Keys(rows) + multiset(lost) == multiset(reported);
      assert |Keys(rows) + multiset(lost)| == |multiset(reported)|;
      KeysSize(rows);
    }

    function Now(): Snap
      reads this
    {
      Snap(containers, ids, reported, rebooting, usbCache, tasks, faults, ops)
    }

    // ── Docker calls ──

    /** An identifier Docker has not issued before. */
    method NewId() returns (id: string)
      ensures id != "" && id !in ids
    {
      var left := ids;
      id := "c";
      while left != {}
        invariant left <= ids && |id| >= 1
        invariant forall u :: u in ids && u !in left ==> |u| < |id|
        decreases left
      {
        var u :| u in left;
        left := left - {u};
        if |u| >= |id| {
          id := u + "c";
        }
      }
    }

    /** Force-removal of a device's container by identifier. */
    method ContainerRemove(id: string, serial: Serial) returns (ok: bool)
      requires Valid()
      modifies this`containers, this`faults, this`ops
      ensures Valid()
      ensures containers == if ok then RemoveId(old(containers), id) else old(containers)
      ensures faults == if ok then old(faults) else old(faults) + 1
      ensures ops == old(ops) + [serial]
    {
      ops := ops + [serial];
      ok := *;
      if ok {
        containers := RemoveId(containers, id);
      } else {
        faults := faults + 1;
      }
    }

    /** Create and start. A taken name is refused; a failed start is followed by a removal
        that may fail too. */
    method CreateAndStart(role: Role, serial: Serial, port: int) returns (outcome: Outcome, id: string)
      requires DockerOk(containers, ids)
      modifies this`containers, this`ids, this`faults, this`ops
      ensures id != "" && id !in old(ids) && ids == old(ids) + {id}
      ensures containers == Created(old(containers), role, serial, id, port, outcome)
      ensures outcome != Reused && (NameOf(role, serial) in old(containers) ==> outcome == Refused)
      ensures faults == if outcome == Started then old(faults) else old(faults) + 1
      ensures ops == old(ops) + [serial]
      ensures DockerOk(containers, ids)
    {
      ops := ops + [serial];
      id := NewId();
      ids := ids + {id};
      var created, started, removed := *, *, *;
      var name := NameOf(role, serial);
      if name in containers || !created {
        outcome := Refused;
      } else if started {
        outcome := Started;
        containers := containers[name := Container(id, true, serial, role, port, "running")];
      } else if removed {
        outcome := StartFailed;
      } else {
        outcome := Leaked;
        containers := containers[name := Container(id, true, serial, role, port, "created")];
      }
      if outcome != Started {
        faults := faults + 1;
      }
    }

    // ── Ports ──

    /** The lowest port from `basePort` on that no record uses. */
    method NextPort(existing: map<Serial, DC>) returns (port: int)
      ensures port == FreePort(existing, basePort) && port <= basePort + |existing|
    {
      var used := FillUsed(existing);
      port := basePort;
      ghost var above := set p | p in used && p >= port;
      ghost var passed: set<int> := {};
      while port in used
        invariant port >= basePort && passed <= used && |passed| == port - basePort
        invariant forall p :: p in passed <==> basePort <= p < port
        invariant above == set p | p in used && p >= port
        decreases above
      {
        above := above - {port};
        passed := passed + {port};
        port := port + 1;
      }
      SubsetSize(passed, used);
      forall p | basePort <= p < port ensures PortTaken(existing, p) {
        assert p in passed;
      }
      LeastFreeUnique(existing, basePort, port, FreePort(existing, basePort));
    }

    /** The loop that fills `used`. */
    method FillUsed(existing: map<Serial, DC>) returns (used: set<int>)
      ensures forall p :: p in used <==> PortTaken(existing, p)
      ensures |used| <= |existing|
    {
      used := {};
      var left := existing.Keys;
      ghost var seen: set<Serial> := {};
      while left != {}
        invariant left + seen == existing.Keys && left !! seen
        invariant forall p :: p in used ==> PortTaken(existing, p)
        invariant forall s :: s in seen && existing[s].appiumPort > 0 ==> existing[s].appiumPort in used
        invariant |used| <= |seen|
        decreases left
      {
        var s :| s in left;
        if existing[s].appiumPort > 0 {
          used := used + {existing[s].appiumPort};
        }
        left, seen := left - {s}, seen + {s};
      }
      assert seen == existing.Keys;
    }

    // ── Appium ──

    /** `createAppium`: frees the port by force, then creates and starts, or reuses what it
        finds under the name. `isNew` says that the device had no port on record. */
    method CreateAppium(serial: Serial, port: int, ghost isNew: bool)
      returns (outcome: Outcome, id: string, found: string)
      requires Valid()
      modifies this`containers, this`ids, this`faults, this`ops, this`attempts
      ensures Valid()
      ensures id != "" && containers == Created(old(containers), Appium, serial, id, port, outcome)
      ensures OnlyNew(old(containers), old(ids), containers, ids)
      ensures if NameOf(Appium, serial) in old(containers) then outcome == Refused
              || (outcome == Reused && found in containers)
              else outcome != Reused
      ensures faults == if outcome == Started then old(faults) else old(faults) + 1
      ensures ops == old(ops) + [serial]
      ensures attempts == old(attempts) + [Attempt(serial, port, isNew, outcome, OtherPorts(old(containers), serial),
                                                   outcome == Reused && !Owns(containers, found, Appium, serial))]
    {
      ghost var others := OtherPorts(containers, serial);
      outcome, id := CreateAndStart(Appium, serial, port);
      found := "";
      if NameOf(Appium, serial) in containers && outcome == Refused {
        outcome, found := ReuseListed(serial);
      }
      ghost var borrowed := outcome == Reused && !Owns(containers, found, Appium, serial);
      attempts := attempts + [Attempt(serial, port, isNew, outcome, others, borrowed)];
    }

    /** After a name conflict: the first container that Docker lists for the name, if the
        listing succeeds. Docker's filter also lets through names that only begin with it, so
        any container may come first. */
    method ReuseListed(serial: Serial) returns (outcome: Outcome, found: string)
      requires NameOf(Appium, serial) in containers
      ensures outcome == Refused || (outcome == Reused && found in containers)
    {
      var conflict := *;
      found :| found in containers;
      outcome := if conflict then Reused else Refused;
    }

    /** Removes an exited Appium container before its replacement. */
    method DropExited(serial: Serial, id: string) returns (ok: bool)
      requires Valid() && Find(containers, Appium, serial).Some? && Find(containers, Appium, serial).value.id == id
      modifies this`containers, this`faults, this`ops
      ensures Valid() && SameBut(old(containers), containers, Appium, serial)
      ensures faults == (if ok then old(faults) else old(faults) + 1) && ops == old(ops) + [serial]
      ensures containers == if ok then old(containers) - {NameOf(Appium, serial)} else old(containers)
    {
      RemoveFrame(containers, ids, Appium, serial);
      ok := ContainerRemove(id, serial);
    }

    /** The port a device's new Appium gets: its own, or the lowest free one. */
    method ChoosePort(serial: Serial, existing: map<Serial, DC>) returns (port: int)
      ensures port == ChosenPort(existing, basePort, serial)
    {
      port := if serial in existing then existing[serial].appiumPort else 0;
      if port == 0 {
        port := NextPort(existing);
      }
    }

    /** Drops an exited Appium container if there is one, starts a new one and puts it on
        record: one attempt, whose outcomes are in `c`. */
    method ReplaceAppium(serial: Serial, existing: map<Serial, DC>)
      returns (up: bool, existing': map<Serial, DC>, dc: DC, ghost c: Choice)
      requires Valid() && AppiumFits(Rec(existing, serial), serial, containers)
      modifies this`containers, this`ids, this`faults, this`ops, this`attempts
      ensures Valid() && SameBut(old(containers), containers, Appium, serial)
      ensures OnlyNew(old(containers), old(ids), containers, ids)
      ensures faults >= old(faults) && |ops| > |old(ops)| && OpsFor(serial, old(ops), ops)
      ensures c.serial == serial
              && Book(existing', containers) == TryAppium(basePort, Book(existing, old(containers)), c)
      ensures attempts == old(attempts) + [AttemptOf(basePort, Book(existing, old(containers)), c)]
      ensures faults == old(faults) ==>
                AppiumFits(dc, serial, containers) && dc.appiumStatus == "running" && dc.appiumID != ""
      ensures up ==> dc.testID == Rec(existing, serial).testID && dc.testStatus == Rec(existing, serial).testStatus
      ensures faults == old(faults) ==> up
    {
      dc := Rec(existing, serial);
      ghost var cs0, dropped := containers, false;
      if dc.appiumID != "" {
        dropped := DropExited(serial, dc.appiumID);
      }
      ghost var cs1 := containers;
      var port := ChoosePort(serial, existing);
      var outcome, id, found := CreateAppium(serial, port, PortOf(existing, serial) == 0);
      CreateFrame(cs1, Appium, serial, id, port, outcome);
      c := Choice(serial, dropped, id, outcome, found);
      TryIs(basePort, Book(existing, cs0), c, cs1, port);
      up := outcome == Started || outcome == Reused;
      if outcome == Reused {
        var it := containers[found];
        dc := DC(it.id, if it.port != 0 then it.port else port, it.state, dc.testID, dc.testStatus);
      } else {
        dc := DC(id, port, "running", dc.testID, dc.testStatus);
      }
      existing' := if up then existing[serial := dc] else existing;
    }

    /** The Appium half of one iteration of the creation loop. `live` is what the USB tree
        says about the device now. */
    method EnsureAppium(serial: Serial, existing: map<Serial, DC>, configs: map<Serial, DeviceConfig>, live: UsbInfo)
      returns (up: bool, existing': map<Serial, DC>, dc: DC, ghost c: Choice, ghost made: seq<Attempt>)
      requires Valid() && Fits(Now(), Rec(existing, serial), serial)
      modifies this`containers, this`ids, this`faults, this`ops, this`attempts, this`usbCache
      ensures Valid() && AppiumHalf(serial, Rec(existing, serial), up, dc, configs, old(Now()), Now())
      ensures c.serial == serial && attempts == old(attempts) + made
      ensures Tried(basePort, c, Tries(Seen(old(Now()), Rec(existing, serial), serial, configs)),
                    Book(existing, old(containers)), Book(existing', containers), made)
      ensures usbCache == if up && serial !in existing then old(usbCache)[serial := live] else old(usbCache)
    {
      dc, existing', c, made := Rec(existing, serial), existing, Choice(serial, false, "", Refused, ""), [];
      assert attempts + [] == attempts;
      var running := serial in existing;
      if running && dc.appiumID != "" && dc.appiumStatus == "running" {
        up := true;
        return;
      }
      if !VidMatch(usbCache, serial, configs) {
        up := false;
        return;
      }
      up, existing', dc, c := BringUp(serial, existing, configs, live);
      made := [AttemptOf(basePort, Book(existing, old(containers)), c)];
    }

    /** The branch that replaces or adds Appium, and reads the USB data of a new device. */
    method BringUp(serial: Serial, existing: map<Serial, DC>, configs: map<Serial, DeviceConfig>, live: UsbInfo)
      returns (up: bool, existing': map<Serial, DC>, dc: DC, ghost c: Choice)
      requires Valid() && Fits(Now(), Rec(existing, serial), serial)
      requires Tries(Seen(Now(), Rec(existing, serial), serial, configs))
      modifies this`containers, this`ids, this`faults, this`ops, this`attempts, this`usbCache
      ensures Valid() && AppiumHalf(serial, Rec(existing, serial), up, dc, configs, old(Now()), Now())
      ensures c.serial == serial
              && Book(existing', containers) == TryAppium(basePort, Book(existing, old(containers)), c)
      ensures attempts == old(attempts) + [AttemptOf(basePort, Book(existing, old(containers)), c)]
      ensures usbCache == if up && serial !in existing then old(usbCache)[serial := live] else old(usbCache)
    {
      var running := serial in existing;
      up, existing', dc, c := ReplaceAppium(serial, existing);
      if up && !running {
        usbCache := usbCache[serial := live];
      }
      OwnNameOnly(basePort, Book(existing, old(containers)), c);
      Replaced(serial, Rec(existing, serial), up, dc, configs, old(Now()), Now());
    }

    // ── Tests ──

    /** `createTest`: removes whatever holds the name, checks the battery, creates and
        starts. A known level below 29 percent is refused: no container is made, and that
        counts as a fault here. If the removal succeeds,
        every other device keeps its containers exactly when none of them held the name. */
    method CreateTest(serial: Serial, port: int) returns (removed: bool, battery: Option<int>)
      requires Valid() && Find(containers, Tests, serial) == None && serial !in rebooting
      modifies this`containers, this`ids, this`faults, this`ops
      ensures Valid() && faults >= old(faults)
      ensures |ops| > |old(ops)| && OpsFor(serial, old(ops), ops)
      ensures TestSide(serial, old(Now()), Now())
      ensures SameBut(old(containers), containers, Tests, serial) <==>
                  NameFree(old(containers), Tests, serial) || !removed
      ensures removed && !NameFree(old(containers), Tests, serial) ==> Robbed(serial, old(containers))
      ensures battery.Some? && battery.value < 29 ==> ids == old(ids) && Find(containers, Tests, serial) == None
      ensures battery == None || battery.value >= 29 ==> ids != old(ids)
      ensures faults == old(faults) ==>
                Find(containers, Tests, serial).Some? && Find(containers, Tests, serial).value.state == "running"
    {
      removed := RemoveByName(serial);
      battery := *;
      if battery.Some? && battery.value < 29 {
        faults := faults + 1;
        ops := ops + [serial];
      } else {
        StartTest(serial);
      }
    }

    method StartTest(serial: Serial)
      requires Valid() && serial !in rebooting
      modifies this`containers, this`ids, this`faults, this`ops
      ensures Valid() && faults >= old(faults) && ops == old(ops) + [serial] && ids != old(ids)
      ensures AppiumKept(old(containers), containers) && SameBut(old(containers), containers, Tests, serial)
      ensures OnlyNew(old(containers), old(ids), containers, ids)
      ensures faults == old(faults) ==>
                Find(containers, Tests, serial).Some? && Find(containers, Tests, serial).value.state == "running"
    {
      ghost var cs0 := containers;
      var outcome, id := CreateAndStart(Tests, serial, 0);
      CreateFrame(cs0, Tests, serial, id, 0, outcome);
    }

    /** The orphan removal at the start of `createTest`; its errors are ignored. */
    method RemoveByName(serial: Serial) returns (removed: bool)
      requires Valid() && Find(containers, Tests, serial) == None
      modifies this`containers, this`ops
      ensures Valid() && ops == old(ops) + [serial]
      ensures TestSide(serial, old(Now()), Now()) && Find(containers, Tests, serial) == None
      ensures SameBut(old(containers), containers, Tests, serial) <==>
                  NameFree(old(containers), Tests, serial) || !removed
      ensures removed && !NameFree(old(containers), Tests, serial) ==> Robbed(serial, old(containers))
    {
      ops := ops + [serial];
      removed := *;
      if removed {
        NameDropped(containers, ids, serial, reported, rebooting);
        containers := containers - {NameOf(Tests, serial)};
      }
    }

    /** The device that held the name had a test container and has lost it. */
    ghost predicate Robbed(serial: Serial, cs0: map<string, Container>)
      requires NameOf(Tests, serial) in cs0
      reads this`containers
    {
      var t := cs0[NameOf(Tests, serial)].device;
      t != serial && Find(cs0, Tests, t).Some? && Find(containers, Tests, t) == None
    }

    /** A stopped, unreported test container: record its key and result, remove it, flag the
        device and start its reboot task. Inside the atomic pass the order of these does not
        show. */
    method ReportAndReboot(serial: Serial, id: string)
      requires Valid() && id in ids && id !in reported && serial !in rebooting
      requires forall n :: Owns(containers, n, Tests, serial) ==> containers[n].id == id
      modifies this`containers, this`reported, this`rows, this`lost, this`rebooting, this`tasks, this`clock,
               this`faults, this`ops
      ensures Valid() && faults >= old(faults) && ops == old(ops) + [serial]
      ensures containers == old(containers) || containers == RemoveId(old(containers), id)
      ensures reported == old(reported) + {id} && rebooting == old(rebooting) + {serial}
      ensures faults == old(faults) ==>
                containers == RemoveId(old(containers), id) && rows == Insert(old(rows), id, serial)
      ensures exists rid :: tasks == old(tasks)[old(clock) := Rebooting(serial, rid)]
    {
      BookResult(serial, id);
      var removed := ContainerRemove(id, serial);
    }

    /** `reported`, `saveTestResult`, the `rebooting` flag and the reboot goroutine. */
    method BookResult(serial: Serial, id: string)
      requires Valid() && id in ids && id !in reported && serial !in rebooting
      requires forall n :: Owns(containers, n, Tests, serial) ==> containers[n].id == id
      modifies this`reported, this`rows, this`lost, this`rebooting, this`tasks, this`clock, this`faults
      ensures Valid() && faults >= old(faults)
      ensures reported == old(reported) + {id} && rebooting == old(rebooting) + {serial}
      ensures faults == old(faults) ==> rows == Insert(old(rows), id, serial) && RowAdded(old(rows), rows, id, serial)
      ensures faults == old(faults) ==> tasks == old(tasks)[old(clock) := Rebooting(serial, |rows|)]
      ensures exists rid :: tasks == old(tasks)[old(clock) := Rebooting(serial, rid)]
    {
      var inserted := *;
      var rid := if inserted then |rows| + 1 else 0;
      var rows' := if inserted then Insert(rows, id, serial) else rows;
      var lost' := if inserted then lost else lost + {id};
      ResultBooked(tasks, clock, serial, rid, rebooting, rows, rows', lost, lost', reported, id);
      rows, lost, faults := rows', lost', if inserted then faults else faults + 1;
      reported, rebooting := reported + {id}, rebooting + {serial};
      tasks, clock := tasks[clock := Rebooting(serial, rid)], clock + 1;
    }

    /** The test half of one iteration of the creation loop. */
    method EnsureTest(serial: Serial, dc: DC)
      requires Valid() && TestFits(dc, serial, containers, ids, reported, rebooting)
      modifies this`containers, this`ids, this`reported, this`rows, this`lost, this`rebooting, this`tasks, this`clock,
               this`faults, this`ops
      ensures Valid() && TestHalf(serial, dc, testImage != "", old(Now()), Now())
              && AppiumKept(old(containers), containers)
      ensures serial in old(rebooting) ==> rows == old(rows)
    {
      ghost var m := Now();
      if testImage == "" || (dc.testID != "" && dc.testStatus == "running") {
        IdleHalf(serial, dc, testImage != "", m);
        return;
      }
      if dc.testID != "" {
        CleanUp(serial, dc);
        CleanedHalf(serial, dc, m, Now());
      } else if serial !in rebooting {
        var removed, battery := CreateTest(serial, dc.appiumPort);
        CreatedHalf(serial, dc, m, Now());
      } else {
        IdleHalf(serial, dc, testImage != "", m);
      }
    }

    /** A stopped test container: removed, and reported first unless it was already. */
    method CleanUp(serial: Serial, dc: DC)
      requires Valid() && TestFits(dc, serial, containers, ids, reported, rebooting) && dc.testID != ""
      modifies this`containers, this`reported, this`rows, this`lost, this`rebooting, this`tasks, this`clock,
               this`faults, this`ops
      ensures Valid() && faults >= old(faults) && ops == old(ops) + [serial]
      ensures TestSide(serial, old(Now()), Now()) && SameBut(old(containers), containers, Tests, serial)
      ensures dc.testID in old(reported) ==> reported == old(reported) && rebooting == old(rebooting)
      ensures dc.testID !in old(reported) ==>
                reported == old(reported) + {dc.testID} && rebooting == old(rebooting) + {serial}
      ensures LockedFor(serial, old(Now()), Now()) && (serial in old(rebooting) ==> rows == old(rows))
      ensures faults == old(faults) ==> Find(containers, Tests, serial) == None
    {
      IdDropped(containers, ids, dc, serial, reported, rebooting);
      if dc.testID in reported {
        var ok := ContainerRemove(dc.testID, serial);
      } else {
        ReportAndReboot(serial, dc.testID);
      }
    }

    // ── One device ──

    /** One iteration of the creation loop. */
    method EnsureDevice(serial: Serial, existing: map<Serial, DC>, configs: map<Serial, DeviceConfig>, live: UsbInfo)
      returns (existing': map<Serial, DC>, ghost c: Choice, ghost made: seq<Attempt>)
      requires Valid() && Fits(Now(), Rec(existing, serial), serial)
      modifies this
      ensures Valid() && c.serial == serial && attempts == old(attempts) + made
      ensures Tried(basePort, c, Tries(Seen(old(Now()), Rec(existing, serial), serial, configs)),
                    Book(existing, old(containers)), Book(existing', containers), made)
      ensures Iterated(serial, Rec(existing, serial), testImage != "", configs, old(Now()), Now())
      ensures usbCache == old(usbCache) || usbCache == old(usbCache)[serial := live]
    {
      var up, dc;
      ghost var a := Now();
      up, existing', dc, c, made := EnsureAppium(serial, existing, configs, live);
      ghost var m := Now();
      TestsNext(serial, up, dc, Rec(existing, serial), configs, a);
      TriedOn(basePort, c, Tries(Seen(a, Rec(existing, serial), serial, configs)),
              Book(existing, a.cs), Book(existing', m.cs), containers, made);
    }

    /** The test half, unless the Appium half ended the iteration. */
    method TestsNext(serial: Serial, up: bool, dc: DC, ghost rec: DC, ghost configs: map<Serial, DeviceConfig>,
                     ghost a: Snap)
      requires Valid() && DockerOk(a.cs, a.ids) && AppiumHalf(serial, rec, up, dc, configs, a, Now())
      modifies this`containers, this`ids, this`reported, this`rows, this`lost, this`rebooting, this`tasks, this`clock,
               this`faults, this`ops
      ensures Valid() && Iterated(serial, rec, testImage != "", configs, a, Now())
              && AppiumKept(old(containers), containers)
    {
      ghost var m := Now();
      if up {
        EnsureTest(serial, dc);
        BothHalves(serial, rec, dc, testImage != "", configs, a, m, Now());
      } else {
        SkippedHalf(serial, rec, dc, testImage != "", configs, a, m);
      }
    }

    /** The creation loop's invariant. */
    ghost predicate Ensuring(now: map<Serial, DC>, existing: map<Serial, DC>, ready: set<Serial>, left: set<Serial>,
                             configs: map<Serial, DeviceConfig>, s0: Snap, attempts0: seq<Attempt>, sound: bool)
      reads this
    {
      && Valid() && attempts0 <= attempts && Looping(existing, ready, left, testImage != "", configs, s0, Now())
      && Attempting(basePort, Book(now, containers), existing, ready, left, Trying(existing, ready, configs, s0),
                    attempts[|attempts0|..], sound)
    }

    /** One iteration, as the creation loop sees it. */
    method EnsureNext(serial: Serial, now: map<Serial, DC>, ghost existing: map<Serial, DC>, ghost ready: set<Serial>,
                      ghost left: set<Serial>, configs: map<Serial, DeviceConfig>, live: UsbInfo, ghost s0: Snap,
                      ghost attempts0: seq<Attempt>, ghost sound: bool)
      returns (now': map<Serial, DC>)
      requires serial in left && RecordsApart(existing)
      requires Ensuring(now, existing, ready, left, configs, s0, attempts0, sound)
      modifies this
      ensures Ensuring(now', existing, ready, left - {serial}, configs, s0, attempts0, sound)
      ensures usbCache == old(usbCache) || usbCache == old(usbCache)[serial := live]
    {
      ghost var a, before, c, made := Now(), attempts, Choice(serial, false, "", Refused, ""), [];
      LoopNext(existing, now, ready, left, serial, testImage != "", configs, s0, a);
      now', c, made := EnsureDevice(serial, now, configs, live);
      LoopStep(existing, ready, left, serial, testImage != "", configs, s0, a, Now());
      SliceOn(attempts0, before, made);
      AttemptingStep(basePort, Book(now, a.cs), Book(now', containers), existing, ready, left,
                     Trying(existing, ready, configs, s0),
                     before[|attempts0|..], made, sound, c);
    }

    /** The creation loop: every ready device once, in whatever order the map gives. From
        distinct ports, the outcomes of its attempts say exactly whether ports are distinct
        afterwards and whether another device's port was freed by force. */
    method EnsureAll(existing: map<Serial, DC>, ready: set<Serial>, configs: map<Serial, DeviceConfig>,
                     tree: map<Serial, UsbInfo>, ghost sound: bool)
      requires Valid() && (sound ==> basePort > 0 && Going(basePort, Book(existing, containers), [], {}))
      requires RecordsApart(existing) && forall s :: s in ready ==> Fits(Now(), Rec(existing, s), s)
      modifies this
      ensures Valid() && old(attempts) <= attempts
      ensures AttemptsFit(existing, ready, Trying(existing, ready, configs, old(Now())), attempts[|old(attempts)|..])
      ensures sound ==> PortsFollow(containers, attempts[|old(attempts)|..])
      ensures Looping(existing, ready, {}, testImage != "", configs, old(Now()), Now())
      ensures ReadFrom(ready, tree, old(usbCache), usbCache)
    {
      var left, now := ready, existing;
      ghost var s0, attempts0 := Now(), attempts;
      LoopStart(existing, ready, testImage != "", configs, s0);
      AttemptingStart(basePort, existing, containers, ready, Trying(existing, ready, configs, s0), sound);
      assert attempts[|attempts0|..] == [];
      while left != {}
        invariant Ensuring(now, existing, ready, left, configs, s0, attempts0, sound)
        invariant left <= ready && ReadFrom(ready, tree, s0.cache, usbCache)
        decreases left
      {
        var serial :| serial in left;
        var live := if serial in tree then tree[serial] else UsbInfo("", "", "");
        now := EnsureNext(serial, now, existing, ready, left, configs, live, s0, attempts0, sound);
        left := left - {serial};
      }
      AttemptingDone(basePort, Book(now, containers), existing, ready, Trying(existing, ready, configs, s0),
                     attempts[|attempts0|..], sound);
    }

    // ── The pass ──

    /** `listManaged`: one record per device, from the labels, in whatever order Docker lists
        the containers. */
    method ListManaged() returns (existing: map<Serial, DC>)
      requires DockerOk(containers, ids)
      ensures Reflects(existing, containers)
    {
      existing := map[];
      var left := containers.Keys;
      ghost var seen: set<string> := {};
      while left != {}
        invariant left + seen == containers.Keys && left !! seen
        invariant Reflects(existing, Listed(containers, seen))
        decreases left
      {
        var n :| n in left;
        var c := containers[n];
        ListStep(containers, ids, seen, n, existing);
        if c.managed {
          existing := existing[c.device := Noted(Rec(existing, c.device), c)];
        }
        left, seen := left - {n}, seen + {n};
      }
      assert Listed(containers, seen) == containers;
    }

    /** `removeDevice`: its test container, then its Appium container. */
    method RemoveDevice(serial: Serial, dc: DC)
      requires Valid() && dc == SlotOf(containers, serial) && InUse(containers, serial)
      modifies this`containers, this`faults, this`ops
      ensures Valid() && Gone(serial, old(Now()), Now())
    {
      ghost var a := Now();
      if dc.testID != "" {
        RemoveOne(Tests, serial, dc.testID);
      }
      ghost var m := Now();
      if dc.appiumID != "" {
        RemoveOne(Appium, serial, dc.appiumID);
      }
      BothGone(serial, a, m, Now());
    }

    method RemoveOne(role: Role, serial: Serial, id: string)
      requires Valid() && Find(containers, role, serial).Some? && Find(containers, role, serial).value.id == id
      modifies this`containers, this`faults, this`ops
      ensures Valid() && RemovedOne(role, serial, old(Now()), Now())
    {
      RemoveFrame(containers, ids, role, serial);
      var ok := ContainerRemove(id, serial);
    }

    /** The removal loop over the records of devices that are not ready. */
    method RemoveAll(existing: map<Serial, DC>, ready: set<Serial>, configs: map<Serial, DeviceConfig>)
      requires Valid() && Reflects(existing, containers)
      modifies this`containers, this`faults, this`ops
      ensures Valid() && Removed(ready, existing.Keys, configs, old(Now()), Now())
    {
      var left := existing.Keys;
      ghost var seen: set<Serial>, s0 := {}, Now();
      while left != {}
        invariant left <= existing.Keys && (forall s :: s in seen <==> s in existing && s !in left) && Valid()
        invariant Removed(ready, seen, configs, s0, Now())
        invariant forall s :: s in left ==> SlotOf(containers, s) == SlotOf(s0.cs, s)
        decreases left
      {
        var serial :| serial in left;
        ghost var a := Now();
        if serial !in ready && VidMatch(usbCache, serial, configs) {
          RemoveDevice(serial, existing[serial]);
          RemovedStep(ready, seen, configs, serial, s0, a, Now());
        } else {
          RemovedSkip(ready, seen, configs, serial, s0, a);
        }
        left, seen := left - {serial}, seen + {serial};
      }
      assert seen == existing.Keys;
    }

    /** The serials of the ready devices. */
    method ReadyOf(devices: seq<Device>) returns (ready: set<Serial>)
      ensures ready == ReadySet(devices) && forall s :: s in ready <==> Connected(devices, s)
    {
      ReadyMeans(devices);
      ready := {};
      for i := 0 to |devices|
        invariant ready == ReadySet(devices[..i])
      {
        assert devices[..i + 1] == devices[..i] + [devices[i]];
        if devices[i].state == "device" {
          ready := ready + {devices[i].serial};
        }
      }
      assert devices[..|devices|] == devices;
    }

    /** One pass. `reach` says whether the network check and the listing succeed. From
        distinct ports, the pass's own attempts to create Appium decide whether ports are
        distinct afterwards. */
    method Reconcile(devices: seq<Device>, configs: map<Serial, DeviceConfig>, tree: map<Serial, UsbInfo>, reach: bool)
      returns (ok: bool)
      requires Valid()
      modifies this
      ensures Valid() && ok == reach && old(attempts) <= attempts
      ensures Passed(ReadySet(devices), testImage != "", configs, old(Now()), Now())
      ensures basePort > 0 && old(PortsDistinct(containers)) ==> PortsFollow(containers, attempts[|old(attempts)|..])
      ensures !reach ==> SameState(old(Now()), Now()) && tasks == old(tasks) && rows == old(rows) && ops == old(ops)
      ensures !reach ==> attempts == old(attempts)
      ensures WrongModeAlone(devices, configs, old(Now()), Now())
      ensures ReadFrom(ReadySet(devices), tree, old(usbCache), usbCache)
      ensures Separate(old(Now()), ReadySet(devices)) && faults == old(faults) ==>
                AllPass(devices, testImage != "", configs, old(Now()), Now())
    {
      ghost var a := Now();
      ok := reach;
      if reach {
        ReconcileListed(devices, configs, tree);
      } else {
        FailedPass(ReadySet(devices), testImage != "", configs, Now());
        assert attempts[|attempts|..] == [];
        faults := faults + 1;
      }
      PassFields(devices, testImage != "", configs, a, Now());
    }

    /** The rest of the pass, once the calls that can end it early have succeeded. */
    method ReconcileListed(devices: seq<Device>, configs: map<Serial, DeviceConfig>, tree: map<Serial, UsbInfo>)
      requires Valid()
      modifies this
      ensures Valid() && old(attempts) <= attempts
      ensures Passed(ReadySet(devices), testImage != "", configs, old(Now()), Now())
      ensures basePort > 0 && old(PortsDistinct(containers)) ==> PortsFollow(containers, attempts[|old(attempts)|..])
      ensures ReadFrom(ReadySet(devices), tree, old(usbCache), usbCache)
    {
      ghost var s0 := Now();
      var existing := ListManaged();
      var ready := ReadyOf(devices);
      RemoveAll(existing, ready, configs);
      ghost var s1, sound := Now(), basePort > 0 && PortsDistinct(s0.cs);
      AfterRemoval(existing, ready, configs, s0, s1);
      if sound { GoingStart(basePort, existing, s0.cs, s0.ids, s1.cs); }
      EnsureAll(existing, ready, configs, tree, sound);
      WholePass(existing, ready, testImage != "", configs, s0, s1, Now());
    }

    /** Passes over one device list with nothing happening in between. */
    method ReconcileTimes(devices: seq<Device>, configs: map<Serial, DeviceConfig>, trees: seq<map<Serial, UsbInfo>>)
      returns (ghost snaps: seq<Snap>)
      requires Valid()
      modifies this
      ensures Valid() && |snaps| == |trees| + 1 && snaps[0] == old(Now()) && snaps[|trees|] == Now()
      ensures Chain(ReadySet(devices), testImage != "", configs, snaps)
      ensures |trees| >= 2 && Separate(old(Now()), ReadySet(devices)) && snaps[2].faults == old(faults) ==>
                AllSettle(devices, configs, old(Now()), Now()) && SameState(snaps[2], Now()) && ops == snaps[2].ops
                  && Settled(ReadySet(devices), testImage != "", configs, snaps[2])
    {
      snaps := [Now()];
      for i := 0 to |trees|
        invariant Valid() && |snaps| == i + 1 && snaps[0] == old(Now()) && snaps[i] == Now()
        invariant Chain(ReadySet(devices), testImage != "", configs, snaps)
      {
        var ok := Reconcile(devices, configs, trees[i], true);
        snaps := snaps + [Now()];
      }
      if |trees| >= 2 && Separate(snaps[0], ReadySet(devices)) && snaps[2].faults == snaps[0].faults {
        FixedPoint(ReadySet(devices), testImage != "", configs, snaps, |trees|);
        ChainSettles(ReadySet(devices), testImage != "", configs, snaps);
        ChainFields(devices, testImage != "", configs, snaps, Now());
      }
    }

    // ── The world outside ──

    /** `SetUSBInfo`: the USB monitor saw a device change its mode. */
    method SetUSBInfo(serial: Serial, info: UsbInfo)
      requires Valid()
      modifies this`usbCache
      ensures Valid() && usbCache == if serial == "" then old(usbCache) else old(usbCache)[serial := info]
    {
      if serial != "" {
        usbCache := usbCache[serial := info];
      }
    }

    /** A container starts, stops, or (with no new state) is removed by somebody else. */
    method ContainerEvent(name: string, state: Option<string>)
      requires Valid()
      modifies this`containers
      ensures Valid() && (old(PortsDistinct(containers)) ==> PortsDistinct(containers))
    {
      if name in containers {
        var cs := if state.None? then containers - {name}
                  else containers[name := containers[name].(state := state.value)];
        OutsideOk(containers, cs, ids, rebooting, reported);
        containers := cs;
      }
    }

    /** One event, and the attempts to create Appium that it makes. */
    method Handle(event: Event) returns (ghost made: seq<Attempt>)
      requires Valid()
      modifies this
      ensures Valid() && attempts == old(attempts) + made && (!event.Pass? ==> made == [])
      ensures basePort > 0 && old(PortsDistinct(containers)) ==> PortsFollow(containers, made)
    {
      ghost var before := attempts;
      assert before + [] == before;
      match event {
        case Pass(devices, configs, tree, reach) => var ok := Reconcile(devices, configs, tree, reach);
        case Step(id) => if id in tasks { var ok := StepTask(id); }
        case Usb(serial, info) => SetUSBInfo(serial, info);
        case Docker(name, state) => ContainerEvent(name, state);
      }
      made := attempts[|before|..];
    }

    /** Any run: passes, reboot-task steps, USB and container events in any order. From
        distinct ports, they are distinct at every moment if and only if no attempt of the
        run collides; and, when none borrows a container, if and only if no pass clashes. */
    method Run(schedule: seq<Event>) returns (ghost states: seq<map<string, Container>>, ghost made: seq<seq<Attempt>>)
      requires Valid()
      modifies this
      ensures Valid() && |made| == |schedule| == |states| - 1 && states[0] == old(containers)
              && states[|schedule|] == containers
      ensures basePort > 0 ==> PortRun(states, made)
      ensures basePort > 0 && old(PortsDistinct(containers)) ==>
                ((forall k :: 0 <= k <= |schedule| ==> PortsDistinct(states[k])) <==>
                 (forall k :: 0 <= k < |schedule| ==> NoneCollide(made[k])))
      ensures basePort > 0 && old(PortsDistinct(containers))
              && (forall k :: 0 <= k < |schedule| ==> NoneBorrow(made[k])) ==>
                ((forall k :: 0 <= k <= |schedule| ==> PortsDistinct(states[k])) <==>
                 (forall k :: 0 <= k < |schedule| ==> !Clashes(made[k])))
    {
      states, made := [containers], [];
      for i := 0 to |schedule|
        invariant Valid() && |made| == i && |states| == i + 1 && states[0] == old(containers) && states[i] == containers
        invariant basePort > 0 ==> PortRun(states, made)
      {
        ghost var ats := Handle(schedule[i]);
        states, made := states + [containers], made + [ats];
      }
      if basePort > 0 && PortsDistinct(states[0]) { DistinctAllAlong(states, made, |schedule|); }
    }
  }

  /** Containers that change their state or disappear break nothing. */
  lemma OutsideOk(cs: map<string, Container>, cs': map<string, Container>, ids: set<string>, rebooting: set<Serial>,
                  reported: set<string>)
    requires DockerOk(cs, ids) && Exclusive(cs, rebooting, reported)
    requires forall n :: n in cs' ==> n in cs && cs'[n] == cs[n].(state := cs'[n].state)
    ensures DockerOk(cs', ids) && Exclusive(cs', rebooting, reported)
    ensures PortsDistinct(cs) ==> PortsDistinct(cs')
  {
    assert forall n :: IsAppium(cs', n) ==> IsAppium(cs, n) && cs'[n].port == cs[n].port;
  }

  datatype Event =
    | Pass(devices: seq<Device>, configs: map<Serial, DeviceConfig>, tree: map<Serial, UsbInfo>, reach: bool)
    | Step(id: nat)
    | Usb(serial: Serial, info: UsbInfo)
    | Docker(name: string, state: Option<string>)

  /** `device` is adb's word for a usable device. */
  function ReadySet(devices: seq<Device>): set<Serial>
  {
    set d | d in devices && d.state == "device" :: d.serial
  }

  /** One pass on the fields. */
  lemma PassFields(devices: seq<Device>, tests: bool, configs: map<Serial, DeviceConfig>, a: Snap, b: Snap)
    requires DockerOk(a.cs, a.ids) && DockerOk(b.cs, b.ids) && Passed(ReadySet(devices), tests, configs, a, b)
    ensures WrongModeAlone(devices, configs, a, b)
    ensures Separate(a, ReadySet(devices)) && b.faults == a.faults ==> AllPass(devices, tests, configs, a, b)
  {
    ReadyMeans(devices);
    AloneMeans(devices, ReadySet(devices), tests, configs, a, b);
    if Separate(a, ReadySet(devices)) && b.faults == a.faults {
      PassesMean(devices, ReadySet(devices), tests, configs, a, b);
    }
  }

  /** Two passes on the fields, and later ones that change nothing. */
  lemma ChainFields(devices: seq<Device>, tests: bool, configs: map<Serial, DeviceConfig>, snaps: seq<Snap>, last: Snap)
    requires Chain(ReadySet(devices), tests, configs, snaps) && |snaps| > 2 && last.cs == snaps[2].cs
    requires Separate(snaps[0], ReadySet(devices)) && snaps[2].faults == snaps[0].faults
    ensures AllSettle(devices, configs, snaps[0], last)
  {
    ReadyMeans(devices);
    assert Passed(ReadySet(devices), tests, configs, snaps[0], snaps[0 + 1]);
    assert Passed(ReadySet(devices), tests, configs, snaps[1], snaps[1 + 1]);
    forall serial ensures Settles(serial, Connected(devices, serial), configs, snaps[0], last) {
      TwoPassesMean(ReadySet(devices), tests, configs, snaps[0], snaps[1], snaps[2], serial);
    }
  }

  lemma ReadyMeans(devices: seq<Device>)
    ensures forall s :: s in ReadySet(devices) <==> Connected(devices, s)
  {
    forall s | Connected(devices, s) ensures s in ReadySet(devices) {
      var i :| 0 <= i < |devices| && devices[i].serial == s && devices[i].state == "device";
      assert devices[i] in devices;
    }
  }

  lemma ListedApart(existing: map<Serial, DC>, cs: map<string, Container>, ids: set<string>)
    requires DockerOk(cs, ids) && Reflects(existing, cs)
    ensures RecordsApart(existing)
  {}

  /** After the removals the records of the ready devices still hold. */
  lemma AfterRemoval(existing: map<Serial, DC>, ready: set<Serial>, configs: map<Serial, DeviceConfig>, a: Snap,
                     m: Snap)
    requires DockerOk(a.cs, a.ids) && Reflects(existing, a.cs) && Removed(ready, existing.Keys, configs, a, m)
    ensures RecordsApart(existing)
    ensures forall s :: s in ready ==> Fits(m, Rec(existing, s), s)
  {
    ListedApart(existing, a.cs, a.ids);
    forall s | s in ready ensures Fits(m, Rec(existing, s), s) {
      assert Find(m.cs, Appium, s) == Find(a.cs, Appium, s) && Find(m.cs, Tests, s) == Find(a.cs, Tests, s);
    }
  }

  /** Removing the test container on record leaves every other container alone. */
  lemma IdDropped(cs: map<string, Container>, ids: set<string>, dc: DC, serial: Serial, reported: set<string>,
                  rebooting: set<Serial>)
    requires DockerOk(cs, ids) && TestFits(dc, serial, cs, ids, reported, rebooting) && dc.testID != ""
    ensures var cs' := RemoveId(cs, dc.testID); SameBut(cs, cs', Tests, serial) && Find(cs', Tests, serial) == None
    ensures forall n :: IsAppium(RemoveId(cs, dc.testID), n) ==> IsAppium(cs, n)
  {
    var cs' := RemoveId(cs, dc.testID);
    if Find(cs, Tests, serial).Some? {
      RemoveFrame(cs, ids, Tests, serial);
    } else {
      assert cs' == cs;
    }
  }

  /** Removing a container by the device's test name touches no Appium container and no test
      container but the one with that name. */
  lemma NameDropped(cs: map<string, Container>, ids: set<string>, serial: Serial, reported: set<string>,
                    rebooting: set<Serial>)
    requires DockerOk(cs, ids) && Exclusive(cs, rebooting, reported) && Find(cs, Tests, serial) == None
    ensures var cs' := cs - {NameOf(Tests, serial)};
            && DockerOk(cs', ids) && Exclusive(cs', rebooting, reported) && OnlyNew(cs, ids, cs', ids)
            && AppiumKept(cs, cs')
            && (forall s :: TestKept(cs, cs', reported, rebooting, s)) && Find(cs', Tests, serial) == None
            && (SameBut(cs, cs', Tests, serial) <==> NameFree(cs, Tests, serial))
            && (!NameFree(cs, Tests, serial) ==>
                  var t := cs[NameOf(Tests, serial)].device;
                  t != serial && Find(cs, Tests, t).Some? && Find(cs', Tests, t) == None)
  {
    var cs' := cs - {NameOf(Tests, serial)};
    forall s ensures Find(cs', Appium, s) == Find(cs, Appium, s) { RolesApart(s, serial); }
    RemovalHarmless(cs, ids, serial);
  }

  lemma SubsetSize<T>(a: set<T>, b: set<T>)
    requires a <= b
    ensures |a| <= |b|
  {
    assert b == a + (b - a);
    assert |a + (b - a)| == |a| + |b - a|;
  }
}
