/** Snapshots of the Docker-mode manager, and what one iteration of the creation loop does to
    a snapshot. The loop's invariants and their step lemmas are here, free of the heap. */
module DockerFrames {
  import opened AdbDevices
  import opened DockerPass
  import opened DockerState
  import opened DockerTasks
  import opened Options

  datatype Snap = Snap(cs: map<string, Container>, ids: set<string>, reported: set<string>, rebooting: set<Serial>,
                       cache: map<Serial, UsbInfo>, tasks: map<nat, Task>, faults: nat, ops: seq<Serial>)

  function FoldChar(c: char): char
  {
    if 'A' <= c <= 'Z' then c - 'A' + 'a' else c
  }

  predicate EqualFold(a: string, b: string)
  {
    |a| == |b| && forall i :: 0 <= i < |a| ==> FoldChar(a[i]) == FoldChar(b[i])
  }

  /** `vidPidOK`: no filter configured, or the cached IDs match it in any letter case. */
  predicate VidMatch(cache: map<Serial, UsbInfo>, serial: Serial, configs: map<Serial, DeviceConfig>)
  {
    serial !in configs || configs[serial].testVID == ""
    || (serial in cache
        && EqualFold(cache[serial].vid, configs[serial].testVID)
        && EqualFold(cache[serial].pid, configs[serial].testPID))
  }

  /** A device as one record has it, and as its containers have it. */
  function Seen(a: Snap, dc: DC, serial: Serial, configs: map<Serial, DeviceConfig>): View
  {
    ViewOf(dc, a.reported, serial in a.rebooting, VidMatch(a.cache, serial, configs))
  }

  function SeenNow(a: Snap, serial: Serial, configs: map<Serial, DeviceConfig>): View
  {
    Seen(a, SlotOf(a.cs, serial), serial, configs)
  }

  /** The devices for which the creation loop tries to create Appium. */
  function Trying(existing: map<Serial, DC>, ready: set<Serial>, configs: map<Serial, DeviceConfig>,
                  s0: Snap): set<Serial>
  {
    set s | s in ready && Tries(Seen(s0, Rec(existing, s), s, configs))
  }

  /** All that the loop may rely on about a record it has not used yet. */
  ghost predicate Fits(a: Snap, dc: DC, serial: Serial)
  {
    AppiumFits(dc, serial, a.cs) && TestFits(dc, serial, a.cs, a.ids, a.reported, a.rebooting)
  }

  /** The record says what the containers say, and nobody else holds the test name. */
  predicate Plain(a: Snap, dc: DC, serial: Serial)
  {
    SlotOf(a.cs, serial) == dc && NameFree(a.cs, Tests, serial)
  }

  /** The containers of all other devices are as before. */
  ghost predicate OthersSame(serial: Serial, a: Snap, b: Snap)
  {
    forall r, s :: s != serial ==> Find(b.cs, r, s) == Find(a.cs, r, s)
  }

  /** What one iteration for `serial` with record `dc` does. */
  ghost predicate Moved(serial: Serial, dc: DC, a: Snap, b: Snap)
  {
    && DockerOk(a.cs, a.ids) && DockerOk(b.cs, b.ids) && OnlyNew(a.cs, a.ids, b.cs, b.ids) && a.faults <= b.faults
    && (forall s :: s != serial ==> Find(b.cs, Appium, s) == Find(a.cs, Appium, s))
    && (forall s :: s != serial ==> TestKept(a.cs, b.cs, b.reported, b.rebooting, s))
    && (b.reported == a.reported || (dc.testID != "" && b.reported == a.reported + {dc.testID}))
    && (b.rebooting == a.rebooting || b.rebooting == a.rebooting + {serial})
    && (forall s :: s != serial ==> (s in b.cache <==> s in a.cache) && (s in a.cache ==> b.cache[s] == a.cache[s]))
  }

  /** What the Appium half of an iteration does; `up` says that the iteration goes on with the
      tests, and `dc` is then the record they work on. Its Appium container runs, unless a
      name conflict made the device reuse another one. */
  ghost predicate AppiumHalf(serial: Serial, rec: DC, up: bool, dc: DC, configs: map<Serial, DeviceConfig>, a: Snap,
                             m: Snap)
  {
    var v0 := Seen(a, rec, serial, configs);
    && SameBut(a.cs, m.cs, Appium, serial) && OnlyNew(a.cs, a.ids, m.cs, m.ids) && a.faults <= m.faults
    && (NameFree(a.cs, Tests, serial) ==> NameFree(m.cs, Tests, serial))
    && OpsFor(serial, a.ops, m.ops) && m.reported == a.reported && m.rebooting == a.rebooting && m.tasks == a.tasks
    && (m.cache == a.cache || Connects(true, v0))
    && (forall s :: s != serial ==> (s in m.cache <==> s in a.cache) && (s in a.cache ==> m.cache[s] == a.cache[s]))
    && (up ==> TestFits(dc, serial, m.cs, m.ids, m.reported, m.rebooting))
    && (up ==> dc.testID == rec.testID && dc.testStatus == rec.testStatus)
    && (up && m.faults == a.faults ==>
        AppiumFits(dc, serial, m.cs) && dc.appiumStatus == "running" && dc.appiumID != "")
    && (v0.appium == Up || Skipped(v0) ==> up == !Skipped(v0) && m.cs == a.cs && m.ops == a.ops && m.cache == a.cache)
    && (m.faults == a.faults ==> up == !Skipped(v0))
  }

  /** What the test half does, with the record `dc`. */
  ghost predicate TestHalf(serial: Serial, dc: DC, tests: bool, m: Snap, b: Snap)
  {
    var v1 := ViewOf(dc, m.reported, serial in m.rebooting, true);
    var now := ViewOf(SlotOf(b.cs, serial), b.reported, serial in b.rebooting, true);
    && OnlyNew(m.cs, m.ids, b.cs, b.ids) && m.faults <= b.faults && OpsFor(serial, m.ops, b.ops) && b.cache == m.cache
    && (forall s :: Find(b.cs, Appium, s) == Find(m.cs, Appium, s))
    && (forall s :: s != serial ==> TestKept(m.cs, b.cs, b.reported, b.rebooting, s))
    && (NameFree(m.cs, Tests, serial) ==> SameBut(m.cs, b.cs, Tests, serial))
    && (b.reported == m.reported || (dc.testID != "" && b.reported == m.reported + {dc.testID}))
    && (b.rebooting == m.rebooting || b.rebooting == m.rebooting + {serial})
    && LockedFor(serial, m, b)
    && (!Acts(true, tests, v1.(appium := Up)) ==> SameState(m, b) && b.ops == m.ops)
    && (b.faults == m.faults && (dc.testID == "" || Find(m.cs, Tests, serial).Some?) ==>
          now.test == TestPass(tests, v1).test && now.rebooting == TestPass(tests, v1).rebooting)
  }

  /** What a test-side step may do to containers: Appium containers stay, every device but
      this one keeps its test container unless it lost it by name, and nothing old comes
      back. */
  ghost predicate TestSide(serial: Serial, m: Snap, b: Snap)
  {
    && AppiumKept(m.cs, b.cs) && OnlyNew(m.cs, m.ids, b.cs, b.ids)
    && forall s :: s != serial ==> TestKept(m.cs, b.cs, b.reported, b.rebooting, s)
  }

  /** Nothing to do: tests are off, or the test container runs, or there is none and the
      device reboots. */
  lemma IdleHalf(serial: Serial, dc: DC, tests: bool, m: Snap)
    requires DockerOk(m.cs, m.ids) && TestFits(dc, serial, m.cs, m.ids, m.reported, m.rebooting)
    requires !Acts(true, tests, ViewOf(dc, m.reported, serial in m.rebooting, true).(appium := Up))
    ensures TestHalf(serial, dc, tests, m, m)
  {}

  lemma CleanedHalf(serial: Serial, dc: DC, m: Snap, b: Snap)
    requires dc.testID != "" && dc.testStatus != "running" && TestFits(dc, serial, m.cs, m.ids, m.reported, m.rebooting)
    requires TestSide(serial, m, b) && SameBut(m.cs, b.cs, Tests, serial) && LockedFor(serial, m, b)
    requires m.faults <= b.faults && OpsFor(serial, m.ops, b.ops) && b.cache == m.cache
    requires if dc.testID in m.reported then b.reported == m.reported && b.rebooting == m.rebooting
             else b.reported == m.reported + {dc.testID} && b.rebooting == m.rebooting + {serial}
    requires b.faults == m.faults ==> Find(b.cs, Tests, serial) == None
    ensures TestHalf(serial, dc, true, m, b)
  {}

  lemma CreatedHalf(serial: Serial, dc: DC, m: Snap, b: Snap)
    requires dc.testID == "" && serial !in m.rebooting && TestFits(dc, serial, m.cs, m.ids, m.reported, m.rebooting)
    requires TestSide(serial, m, b) && (NameFree(m.cs, Tests, serial) ==> SameBut(m.cs, b.cs, Tests, serial))
    requires m.faults <= b.faults && OpsFor(serial, m.ops, b.ops) && b.cache == m.cache && b.tasks == m.tasks
    requires b.reported == m.reported && b.rebooting == m.rebooting && DockerOk(m.cs, m.ids) && DockerOk(b.cs, b.ids)
    requires b.faults == m.faults ==>
              Find(b.cs, Tests, serial).Some? && Find(b.cs, Tests, serial).value.state == "running"
    ensures TestHalf(serial, dc, true, m, b)
  {}

  /** What a whole iteration does to the device itself. */
  ghost predicate Iterated(serial: Serial, rec: DC, tests: bool, configs: map<Serial, DeviceConfig>, a: Snap, b: Snap)
  {
    var v0 := Seen(a, rec, serial, configs);
    && Moved(serial, rec, a, b) && LockedFor(serial, a, b) && OpsFor(serial, a.ops, b.ops)
    && (!Acts(true, tests, v0) ==> SameState(a, b) && b.ops == a.ops)
    && (Plain(a, rec, serial) ==> OthersSame(serial, a, b))
    && (Plain(a, rec, serial) && b.faults == a.faults ==> Next(true, tests, v0, SeenNow(b, serial, configs)))
  }

  /** A branch that touched only the device's Appium container, and its USB data if it is new,
      is an Appium half. */
  lemma Replaced(serial: Serial, rec: DC, up: bool, dc: DC, configs: map<Serial, DeviceConfig>, a: Snap, b: Snap)
    requires DockerOk(a.cs, a.ids) && Fits(a, rec, serial) && SameBut(a.cs, b.cs, Appium, serial)
             && OnlyNew(a.cs, a.ids, b.cs, b.ids)
    requires forall n :: n != NameOf(Appium, serial) ==>
              (n in b.cs <==> n in a.cs) && (n in b.cs ==> b.cs[n] == a.cs[n])
    requires a.faults <= b.faults && OpsFor(serial, a.ops, b.ops) && b.reported == a.reported
             && b.rebooting == a.rebooting && b.tasks == a.tasks
    requires Seen(a, rec, serial, configs).appium != Up && !Skipped(Seen(a, rec, serial, configs))
             && (b.faults == a.faults ==> up)
    requires b.cache == a.cache || Connects(true, Seen(a, rec, serial, configs))
    requires forall s :: s != serial ==> (s in b.cache <==> s in a.cache) && (s in a.cache ==> b.cache[s] == a.cache[s])
    requires up ==> dc.testID == rec.testID && dc.testStatus == rec.testStatus
    requires b.faults == a.faults ==> AppiumFits(dc, serial, b.cs) && dc.appiumStatus == "running" && dc.appiumID != ""
    ensures AppiumHalf(serial, rec, up, dc, configs, a, b)
  {
    RolesApart(serial, serial);
    assert Find(b.cs, Tests, serial) == Find(a.cs, Tests, serial);
    FitsOn(rec, serial, a.cs, a.ids, a.reported, a.rebooting, b.cs, b.ids, b.reported, b.rebooting);
  }

  lemma SkippedHalf(serial: Serial, rec: DC, dc: DC, tests: bool, configs: map<Serial, DeviceConfig>, a: Snap, b: Snap)
    requires DockerOk(a.cs, a.ids) && DockerOk(b.cs, b.ids) && AppiumHalf(serial, rec, false, dc, configs, a, b)
    ensures Iterated(serial, rec, tests, configs, a, b)
  {}

  lemma BothHalves(serial: Serial, rec: DC, dc: DC, tests: bool, configs: map<Serial, DeviceConfig>, a: Snap, m: Snap,
                   b: Snap)
    requires DockerOk(a.cs, a.ids) && DockerOk(b.cs, b.ids)
    requires AppiumHalf(serial, rec, true, dc, configs, a, m) && TestHalf(serial, dc, tests, m, b)
    ensures Iterated(serial, rec, tests, configs, a, b)
  {
    BothMoved(serial, rec, dc, tests, configs, a, m, b);
    OpsForOn(serial, a.ops, m.ops, b.ops);
    if Plain(a, rec, serial) && b.faults == a.faults {
      BothNext(serial, rec, dc, tests, configs, a, m, b);
    }
  }

  lemma BothNext(serial: Serial, rec: DC, dc: DC, tests: bool, configs: map<Serial, DeviceConfig>, a: Snap, m: Snap,
                 b: Snap)
    requires DockerOk(b.cs, b.ids) && Plain(a, rec, serial) && b.faults == a.faults
    requires AppiumHalf(serial, rec, true, dc, configs, a, m) && TestHalf(serial, dc, tests, m, b)
    ensures Next(true, tests, Seen(a, rec, serial, configs), SeenNow(b, serial, configs))
  {
    var v0, v1 := Seen(a, rec, serial, configs), ViewOf(dc, m.reported, serial in m.rebooting, true);
    assert Find(m.cs, Tests, serial) == Find(a.cs, Tests, serial);
    assert v1 == v0.(appium := Up, vidOk := true);
    NextUp(tests, v0, v1, SeenNow(b, serial, configs));
  }

  lemma BothMoved(serial: Serial, rec: DC, dc: DC, tests: bool, configs: map<Serial, DeviceConfig>, a: Snap, m: Snap,
                  b: Snap)
    requires DockerOk(a.cs, a.ids) && DockerOk(b.cs, b.ids)
    requires AppiumHalf(serial, rec, true, dc, configs, a, m) && TestHalf(serial, dc, tests, m, b)
    ensures Moved(serial, rec, a, b) && LockedFor(serial, a, b)
  {
    forall s | s != serial ensures TestKept(a.cs, b.cs, b.reported, b.rebooting, s) {
      assert TestKept(m.cs, b.cs, b.reported, b.rebooting, s) && Find(m.cs, Tests, s) == Find(a.cs, Tests, s);
    }
    assert Find(m.cs, Tests, serial) == Find(a.cs, Tests, serial);
  }

  lemma NextUp(tests: bool, v0: View, v1: View, now: View)
    requires !Skipped(v0) && v1 == v0.(appium := Up, vidOk := true)
    requires now.test == TestPass(tests, v1).test && now.rebooting == TestPass(tests, v1).rebooting && now.appium == Up
    requires now.vidOk != v0.vidOk ==> Connects(true, v0)
    ensures Next(true, tests, v0, now)
  {}

  lemma FitsStep(serial: Serial, dc: DC, a: Snap, b: Snap, other: Serial, dc': DC)
    requires Moved(serial, dc, a, b) && other != serial && Fits(a, dc', other)
    ensures Fits(b, dc', other)
  {
    FitsOn(dc', other, a.cs, a.ids, a.reported, a.rebooting, b.cs, b.ids, b.reported, b.rebooting);
  }

  lemma SeenStep(serial: Serial, dc: DC, a: Snap, b: Snap, other: Serial, dc': DC, configs: map<Serial, DeviceConfig>)
    requires Moved(serial, dc, a, b) && other != serial && (dc'.testID == dc.testID ==> dc.testID == "")
    ensures Seen(b, dc', other, configs) == Seen(a, dc', other, configs)
  {}

  lemma PlainStep(serial: Serial, dc: DC, a: Snap, b: Snap, other: Serial, configs: map<Serial, DeviceConfig>)
    requires Moved(serial, dc, a, b) && other != serial && SlotOf(a.cs, serial) == dc && OthersSame(serial, a, b)
    ensures SlotOf(b.cs, other) == SlotOf(a.cs, other)
    ensures SeenNow(b, other, configs) == SeenNow(a, other, configs)
    ensures NameOf(Tests, other) != NameOf(Tests, serial) && NameFree(a.cs, Tests, other) ==>
              NameFree(b.cs, Tests, other)
  {
    var dc' := SlotOf(a.cs, other);
    SeenStep(serial, dc, a, b, other, dc', configs);
    var n := NameOf(Tests, other);
    if n in b.cs && b.cs[n].managed && n != NameOf(Tests, serial) {
      var t := b.cs[n].device;
      RolesApart(t, other);
      assert n == NameOf(b.cs[n].role, t);
      assert Find(b.cs, Tests, t) == Some(b.cs[n]) && t != serial;
      assert Find(a.cs, Tests, t) == Some(b.cs[n]);
    }
  }

  // ── Loop invariants ──

  /** No two devices have the same test container on record. */
  ghost predicate RecordsApart(existing: map<Serial, DC>)
  {
    forall s, t :: s != t && Rec(existing, s).testID == Rec(existing, t).testID ==> Rec(existing, s).testID == ""
  }

  predicate NamesApart(ready: set<Serial>)
  {
    forall s, t :: s in ready && t in ready && NameOf(Tests, s) == NameOf(Tests, t) ==> s == t
  }

  /** The devices still to come have usable records and look as they did at the start. */
  ghost predicate Waiting(existing: map<Serial, DC>, left: set<Serial>, configs: map<Serial, DeviceConfig>, s0: Snap,
                          b: Snap)
  {
    forall s :: s in left ==>
        Fits(b, Rec(existing, s), s) && Seen(b, Rec(existing, s), s, configs) == Seen(s0, Rec(existing, s), s, configs)
  }

  lemma WaitingStep(existing: map<Serial, DC>, left: set<Serial>, serial: Serial, configs: map<Serial, DeviceConfig>,
                    s0: Snap, a: Snap, b: Snap)
    requires Waiting(existing, left, configs, s0, a) && Moved(serial, Rec(existing, serial), a, b)
             && RecordsApart(existing)
    ensures Waiting(existing, left - {serial}, configs, s0, b)
  {
    forall s | s in left - {serial}
        ensures Fits(b, Rec(existing, s), s)
                && Seen(b, Rec(existing, s), s, configs) == Seen(s0, Rec(existing, s), s, configs) {
      FitsStep(serial, Rec(existing, serial), a, b, s, Rec(existing, s));
      SeenStep(serial, Rec(existing, serial), a, b, s, Rec(existing, s), configs);
    }
  }

  /** No device that was rebooting gets a new test container or a second reboot task. */
  ghost predicate LockedOut(s0: Snap, b: Snap)
  {
    && s0.rebooting <= b.rebooting
    && (forall s :: s in s0.rebooting ==> Find(b.cs, Tests, s) == None || Find(b.cs, Tests, s) == Find(s0.cs, Tests, s))
    && (forall id :: id in s0.tasks ==> id in b.tasks && b.tasks[id] == s0.tasks[id])
    && (forall id :: id in b.tasks && id !in s0.tasks ==> b.tasks[id].Rebooting? && b.tasks[id].serial !in s0.rebooting)
  }

  /** The same for one iteration: only `serial` can get a task, and not while it reboots. */
  ghost predicate LockedFor(serial: Serial, a: Snap, b: Snap)
  {
    && (serial in a.rebooting ==>
        Find(b.cs, Tests, serial) == None || Find(b.cs, Tests, serial) == Find(a.cs, Tests, serial))
    && (forall id :: id in a.tasks ==> id in b.tasks && b.tasks[id] == a.tasks[id])
    && (forall id :: id in b.tasks && id !in a.tasks ==>
        b.tasks[id].Rebooting? && b.tasks[id].serial == serial && serial !in a.rebooting)
  }

  lemma LockedStep(serial: Serial, dc: DC, s0: Snap, a: Snap, b: Snap)
    requires LockedOut(s0, a) && LockedFor(serial, a, b) && Moved(serial, dc, a, b)
    ensures LockedOut(s0, b)
  {
    forall s | s in s0.rebooting ensures Find(b.cs, Tests, s) == None || Find(b.cs, Tests, s) == Find(s0.cs, Tests, s) {
      if s != serial { assert TestKept(a.cs, b.cs, b.reported, b.rebooting, s); }
    }
  }

  /** Only devices that need something are acted upon; if none does, nothing changes. */
  ghost predicate Acted(existing: map<Serial, DC>, ready: set<Serial>, tests: bool, configs: map<Serial, DeviceConfig>,
                        s0: Snap, b: Snap)
  {
    && s0.ops <= b.ops
    && (forall i :: |s0.ops| <= i < |b.ops| ==>
        b.ops[i] in ready && Acts(true, tests, Seen(s0, Rec(existing, b.ops[i]), b.ops[i], configs)))
    && ((forall s :: s in ready ==> !Acts(true, tests, Seen(s0, Rec(existing, s), s, configs))) ==> SameState(s0, b))
  }

  predicate SameState(a: Snap, b: Snap)
  {
    a.cs == b.cs && a.reported == b.reported && a.rebooting == b.rebooting && a.cache == b.cache
  }

  predicate OpsFor(serial: Serial, ops0: seq<Serial>, ops: seq<Serial>)
  {
    ops0 <= ops && forall i :: |ops0| <= i < |ops| ==> ops[i] == serial
  }

  lemma OpsForOn(serial: Serial, ops0: seq<Serial>, ops1: seq<Serial>, ops: seq<Serial>)
    requires OpsFor(serial, ops0, ops1) && OpsFor(serial, ops1, ops)
    ensures OpsFor(serial, ops0, ops)
  {}

  lemma ActedStep(existing: map<Serial, DC>, ready: set<Serial>, tests: bool, configs: map<Serial, DeviceConfig>,
                  serial: Serial, s0: Snap, a: Snap, b: Snap)
    requires Acted(existing, ready, tests, configs, s0, a) && serial in ready && OpsFor(serial, a.ops, b.ops)
    requires !Acts(true, tests, Seen(s0, Rec(existing, serial), serial, configs)) ==> SameState(a, b) && a.ops == b.ops
    ensures Acted(existing, ready, tests, configs, s0, b)
  {}

  /** Where names do not collide and no call has failed, every device done so far is where
      one pass should bring it and every other device is untouched. */
  ghost predicate Done(existing: map<Serial, DC>, ready: set<Serial>, left: set<Serial>, tests: bool,
                       configs: map<Serial, DeviceConfig>, s0: Snap, b: Snap)
  {
    && (forall s :: s in left ==> Plain(b, Rec(existing, s), s))
    && (forall s :: s !in ready ==> SeenNow(b, s, configs) == SeenNow(s0, s, configs))
    && (b.faults == s0.faults ==> forall s :: s in ready - left ==>
        Next(true, tests, Seen(s0, Rec(existing, s), s, configs), SeenNow(b, s, configs)))
  }

  lemma DoneStep(existing: map<Serial, DC>, ready: set<Serial>, left: set<Serial>, serial: Serial, tests: bool,
                 configs: map<Serial, DeviceConfig>, s0: Snap, a: Snap, b: Snap)
    requires Done(existing, ready, left, tests, configs, s0, a) && serial in left && left <= ready && NamesApart(ready)
             && s0.faults <= a.faults
    requires Moved(serial, Rec(existing, serial), a, b) && OthersSame(serial, a, b)
    requires b.faults == a.faults ==>
              Next(true, tests, Seen(s0, Rec(existing, serial), serial, configs), SeenNow(b, serial, configs))
    ensures Done(existing, ready, left - {serial}, tests, configs, s0, b)
  {
    forall s | s != serial
      ensures SlotOf(b.cs, s) == SlotOf(a.cs, s) && SeenNow(b, s, configs) == SeenNow(a, s, configs)
      ensures NameOf(Tests, s) != NameOf(Tests, serial) && NameFree(a.cs, Tests, s) ==> NameFree(b.cs, Tests, s)
    {
      PlainStep(serial, Rec(existing, serial), a, b, s, configs);
    }
  }

  /** Names do not collide and every record is plain at the start. */
  ghost predicate Clean(existing: map<Serial, DC>, ready: set<Serial>, s0: Snap)
  {
    NamesApart(ready) && forall s :: s in ready ==> Plain(s0, Rec(existing, s), s)
  }

  /** The whole invariant of the creation loop. */
  ghost predicate Looping(existing: map<Serial, DC>, ready: set<Serial>, left: set<Serial>, tests: bool,
                          configs: map<Serial, DeviceConfig>, s0: Snap, b: Snap)
  {
    && left <= ready && s0.faults <= b.faults && Waiting(existing, left, configs, s0, b)
    && Acted(existing, ready, tests, configs, s0, b) && LockedOut(s0, b)
    && (Clean(existing, ready, s0) ==> Done(existing, ready, left, tests, configs, s0, b))
  }

  lemma LoopStart(existing: map<Serial, DC>, ready: set<Serial>, tests: bool, configs: map<Serial, DeviceConfig>,
                  s0: Snap)
    requires forall s :: s in ready ==> Fits(s0, Rec(existing, s), s)
    ensures Looping(existing, ready, ready, tests, configs, s0, s0)
  {}

  /** What the loop knows about the device it takes next. */
  lemma LoopNext(existing: map<Serial, DC>, now: map<Serial, DC>, ready: set<Serial>, left: set<Serial>, serial: Serial,
                 tests: bool, configs: map<Serial, DeviceConfig>, s0: Snap, a: Snap)
    requires Looping(existing, ready, left, tests, configs, s0, a) && serial in left
             && Rec(now, serial) == Rec(existing, serial)
    ensures Fits(a, Rec(now, serial), serial)
    ensures Tries(Seen(a, Rec(now, serial), serial, configs)) <==> serial in Trying(existing, ready, configs, s0)
  {}

  lemma LoopStep(existing: map<Serial, DC>, ready: set<Serial>, left: set<Serial>, serial: Serial, tests: bool,
                 configs: map<Serial, DeviceConfig>, s0: Snap, a: Snap, b: Snap)
    requires Looping(existing, ready, left, tests, configs, s0, a) && serial in left && RecordsApart(existing)
    requires Iterated(serial, Rec(existing, serial), tests, configs, a, b)
    ensures Looping(existing, ready, left - {serial}, tests, configs, s0, b)
  {
    WaitingStep(existing, left, serial, configs, s0, a, b);
    ActedStep(existing, ready, tests, configs, serial, s0, a, b);
    LockedStep(serial, Rec(existing, serial), s0, a, b);
    if Clean(existing, ready, s0) { DoneStep(existing, ready, left, serial, tests, configs, s0, a, b); }
  }
}
