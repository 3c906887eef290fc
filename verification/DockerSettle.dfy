/** What a whole Reconcile pass does to a snapshot, and what a sequence of passes over an
    unchanging device list comes to. */
module DockerSettle {
  import opened AdbDevices
  import opened DockerFrames
  import opened DockerPass
  import opened DockerState
  import opened DockerTasks
  import opened Options

  /** A device the removal loop removes. */
  predicate Condemned(a: Snap, ready: set<Serial>, configs: map<Serial, DeviceConfig>, serial: Serial)
  {
    serial !in ready && VidMatch(a.cache, serial, configs) && InUse(a.cs, serial)
  }

  /** The removal loop so far: containers only disappear, and only those of disconnected
      devices in the right USB mode; without faults, all of those seen so far are gone. */
  ghost predicate Removed(ready: set<Serial>, seen: set<Serial>, configs: map<Serial, DeviceConfig>, a: Snap, b: Snap)
  {
    && b.ids == a.ids && b.reported == a.reported && b.rebooting == a.rebooting && b.cache == a.cache
    && b.tasks == a.tasks
    && a.faults <= b.faults && a.ops <= b.ops && (b.ops == a.ops ==> b.cs == a.cs)
    && (forall i :: |a.ops| <= i < |b.ops| ==> Condemned(a, ready, configs, b.ops[i]))
    && (forall n :: n in b.cs ==> n in a.cs && b.cs[n] == a.cs[n])
    && (forall r, s ::
          Find(b.cs, r, s) == Find(a.cs, r, s) || (Find(b.cs, r, s) == None && Condemned(a, ready, configs, s)))
    && (b.faults == a.faults ==> forall s :: s in seen && Condemned(a, ready, configs, s) ==> !InUse(b.cs, s))
  }

  /** Both containers of one device have been asked to go. */
  ghost predicate Gone(serial: Serial, a: Snap, b: Snap)
  {
    && b.ids == a.ids && b.reported == a.reported && b.rebooting == a.rebooting && b.cache == a.cache
    && b.tasks == a.tasks
    && a.faults <= b.faults && OpsFor(serial, a.ops, b.ops) && |b.ops| > |a.ops|
    && (forall n :: n in b.cs ==> n in a.cs && b.cs[n] == a.cs[n])
    && (forall r, s :: Find(b.cs, r, s) == Find(a.cs, r, s) || (Find(b.cs, r, s) == None && s == serial))
    && (b.faults == a.faults ==> !InUse(b.cs, serial))
  }

  /** One container of the device has been asked to go. */
  ghost predicate RemovedOne(role: Role, serial: Serial, a: Snap, b: Snap)
  {
    && b.ids == a.ids && b.reported == a.reported && b.rebooting == a.rebooting && b.cache == a.cache
    && b.tasks == a.tasks
    && a.faults <= b.faults && b.ops == a.ops + [serial] && SameBut(a.cs, b.cs, role, serial)
    && (b.cs == a.cs || (b.cs == a.cs - {NameOf(role, serial)} && Find(b.cs, role, serial) == None))
    && (b.faults == a.faults ==> Find(b.cs, role, serial) == None)
  }

  lemma BothGone(serial: Serial, a: Snap, m: Snap, b: Snap)
    requires InUse(a.cs, serial)
    requires if Find(a.cs, Tests, serial).Some? then RemovedOne(Tests, serial, a, m) else m == a
    requires if Find(a.cs, Appium, serial).Some? then RemovedOne(Appium, serial, m, b) else b == m
    ensures Gone(serial, a, b)
  {
    assert Find(m.cs, Appium, serial) == Find(a.cs, Appium, serial)
           && Find(b.cs, Tests, serial) == Find(m.cs, Tests, serial);
  }

  lemma RemovedStep(ready: set<Serial>, seen: set<Serial>, configs: map<Serial, DeviceConfig>, serial: Serial, s0: Snap,
                    a: Snap, b: Snap)
    requires Removed(ready, seen, configs, s0, a) && Condemned(s0, ready, configs, serial) && Gone(serial, a, b)
    ensures Removed(ready, seen + {serial}, configs, s0, b)
    ensures forall s :: s != serial ==> SlotOf(b.cs, s) == SlotOf(a.cs, s)
  {
    forall s | s != serial ensures SlotOf(b.cs, s) == SlotOf(a.cs, s) {
      assert Find(b.cs, Appium, s) == Find(a.cs, Appium, s) && Find(b.cs, Tests, s) == Find(a.cs, Tests, s);
    }
    forall r, s ensures Find(b.cs, r, s) == Find(s0.cs, r, s)
        || (Find(b.cs, r, s) == None && Condemned(s0, ready, configs, s)) {
      assert Find(b.cs, r, s) == Find(a.cs, r, s) || (Find(b.cs, r, s) == None && s == serial);
    }
    if b.faults == s0.faults {
      forall s | s in seen + {serial} && Condemned(s0, ready, configs, s) ensures !InUse(b.cs, s) {
        if s != serial { assert !InUse(a.cs, s); }
      }
    }
  }

  lemma RemovedSkip(ready: set<Serial>, seen: set<Serial>, configs: map<Serial, DeviceConfig>, serial: Serial, s0: Snap,
                    a: Snap)
    requires Removed(ready, seen, configs, s0, a) && !Condemned(s0, ready, configs, serial)
    ensures Removed(ready, seen + {serial}, configs, s0, a)
  {}

  // ── A whole pass ──

  /** No ready device shares its test container's name with another device that is ready or
      has containers. */
  ghost predicate Separate(a: Snap, ready: set<Serial>)
  {
    forall s, t :: s in ready && (t in ready || InUse(a.cs, t)) && NameOf(Tests, s) == NameOf(Tests, t) ==> s == t
  }

  /** Only devices that need something are acted upon; if none does, nothing changes; no
      rebooting device gets a test container or a second task; and with separate names and
      no failing call every device goes where `Next` says. */
  ghost predicate Passed(ready: set<Serial>, tests: bool, configs: map<Serial, DeviceConfig>, a: Snap, b: Snap)
  {
    && a.faults <= b.faults && a.ops <= b.ops && LockedOut(a, b)
    && (forall i :: |a.ops| <= i < |b.ops| ==> Needs(ready, tests, configs, a, b.ops[i]))
    && ((forall s :: !Needs(ready, tests, configs, a, s)) ==> SameState(a, b))
    && (Separate(a, ready) && b.faults == a.faults ==>
          forall s :: Next(s in ready, tests, SeenNow(a, s, configs), SeenNow(b, s, configs)))
  }

  /** A pass that ends early. */
  lemma FailedPass(ready: set<Serial>, tests: bool, configs: map<Serial, DeviceConfig>, a: Snap)
    ensures Passed(ready, tests, configs, a, a.(faults := a.faults + 1))
  {}

  predicate Needs(ready: set<Serial>, tests: bool, configs: map<Serial, DeviceConfig>, a: Snap, serial: Serial)
  {
    Acts(serial in ready, tests, SeenNow(a, serial, configs))
  }

  lemma CondemnedNeeds(ready: set<Serial>, tests: bool, configs: map<Serial, DeviceConfig>, a: Snap, serial: Serial)
    requires DockerOk(a.cs, a.ids) && serial !in ready
    ensures Condemned(a, ready, configs, serial) <==> Needs(ready, tests, configs, a, serial)
  {}

  /** Both loops make one pass. */
  lemma WholePass(existing: map<Serial, DC>, ready: set<Serial>, tests: bool, configs: map<Serial, DeviceConfig>,
                  a: Snap, m: Snap, b: Snap)
    requires DockerOk(a.cs, a.ids) && DockerOk(m.cs, m.ids) && DockerOk(b.cs, b.ids) && Reflects(existing, a.cs)
    requires Removed(ready, existing.Keys, configs, a, m) && Looping(existing, ready, {}, tests, configs, m, b)
    ensures Passed(ready, tests, configs, a, b)
  {
    forall s | s in ready ensures Rec(existing, s) == SlotOf(a.cs, s) == SlotOf(m.cs, s) {
      assert Find(m.cs, Appium, s) == Find(a.cs, Appium, s) && Find(m.cs, Tests, s) == Find(a.cs, Tests, s);
    }
    forall s | s !in ready ensures Condemned(a, ready, configs, s) <==> Needs(ready, tests, configs, a, s) {
      CondemnedNeeds(ready, tests, configs, a, s);
    }
    PassLocked(a, m, b);
    PassOps(existing, ready, tests, configs, a, m, b);
    if forall s :: !Needs(ready, tests, configs, a, s) {
      PassQuiet(existing, ready, tests, configs, a, m, b);
    }
    if Separate(a, ready) && b.faults == a.faults {
      PassNext(existing, ready, tests, configs, a, m, b);
    }
  }

  lemma PassOps(existing: map<Serial, DC>, ready: set<Serial>, tests: bool, configs: map<Serial, DeviceConfig>, a: Snap,
                m: Snap, b: Snap)
    requires Removed(ready, existing.Keys, configs, a, m) && Acted(existing, ready, tests, configs, m, b)
    requires forall s :: s in ready ==> Rec(existing, s) == SlotOf(a.cs, s) == SlotOf(m.cs, s)
    requires forall s :: s !in ready ==> (Condemned(a, ready, configs, s) <==> Needs(ready, tests, configs, a, s))
    ensures a.ops <= b.ops
    ensures forall i :: |a.ops| <= i < |b.ops| ==> Needs(ready, tests, configs, a, b.ops[i])
  {
    forall i | |a.ops| <= i < |b.ops| ensures Needs(ready, tests, configs, a, b.ops[i]) {
      if i < |m.ops| {
        assert b.ops[i] == m.ops[i] && Condemned(a, ready, configs, m.ops[i]);
      }
    }
  }

  lemma SomeCondemned(ready: set<Serial>, seen: set<Serial>, configs: map<Serial, DeviceConfig>, a: Snap, m: Snap)
    requires Removed(ready, seen, configs, a, m) && |m.ops| > |a.ops|
    ensures exists s :: s !in ready && Condemned(a, ready, configs, s)
  {
    assert Condemned(a, ready, configs, m.ops[|a.ops|]);
  }

  lemma PassQuiet(existing: map<Serial, DC>, ready: set<Serial>, tests: bool, configs: map<Serial, DeviceConfig>,
                  a: Snap, m: Snap, b: Snap)
    requires Removed(ready, existing.Keys, configs, a, m) && Acted(existing, ready, tests, configs, m, b)
    requires forall s :: s in ready ==> Rec(existing, s) == SlotOf(a.cs, s) == SlotOf(m.cs, s)
    requires forall s :: s !in ready ==> (Condemned(a, ready, configs, s) <==> Needs(ready, tests, configs, a, s))
    requires forall s :: !Needs(ready, tests, configs, a, s)
    ensures SameState(a, b)
  {
    if |m.ops| > |a.ops| {
      SomeCondemned(ready, existing.Keys, configs, a, m);
    }
    assert m.ops == a.ops;
    forall s | s in ready ensures !Acts(true, tests, Seen(m, Rec(existing, s), s, configs)) {
      assert !Needs(ready, tests, configs, a, s);
    }
  }

  lemma PassLocked(a: Snap, m: Snap, b: Snap)
    requires m.rebooting == a.rebooting && m.tasks == a.tasks && LockedOut(m, b)
    requires forall r, s :: Find(m.cs, r, s) == Find(a.cs, r, s) || Find(m.cs, r, s) == None
    ensures LockedOut(a, b)
  {
    forall s | s in a.rebooting ensures Find(b.cs, Tests, s) == None || Find(b.cs, Tests, s) == Find(a.cs, Tests, s) {
      assert Find(m.cs, Tests, s) == Find(a.cs, Tests, s) || Find(m.cs, Tests, s) == None;
    }
  }

  lemma PassNext(existing: map<Serial, DC>, ready: set<Serial>, tests: bool, configs: map<Serial, DeviceConfig>,
                 a: Snap, m: Snap, b: Snap)
    requires DockerOk(a.cs, a.ids) && DockerOk(m.cs, m.ids) && Reflects(existing, a.cs) && Separate(a, ready)
             && b.faults == a.faults
    requires Removed(ready, existing.Keys, configs, a, m) && Looping(existing, ready, {}, tests, configs, m, b)
    requires forall s :: s in ready ==> Rec(existing, s) == SlotOf(a.cs, s) == SlotOf(m.cs, s)
    ensures forall s :: Next(s in ready, tests, SeenNow(a, s, configs), SeenNow(b, s, configs))
  {
    forall s | s in ready ensures NameFree(m.cs, Tests, s) {
      var n := NameOf(Tests, s);
      if n in m.cs && m.cs[n].managed {
        RolesApart(m.cs[n].device, s);
        assert n == NameOf(m.cs[n].role, m.cs[n].device);
        assert Find(a.cs, Tests, m.cs[n].device).Some?;
      }
    }
    assert Clean(existing, ready, m);
    forall s ensures Next(s in ready, tests, SeenNow(a, s, configs), SeenNow(b, s, configs)) {
      if s !in ready {
        assert SeenNow(b, s, configs) == SeenNow(m, s, configs);
        Unready(existing, ready, configs, a, m, s);
      }
    }
  }

  lemma Unready(existing: map<Serial, DC>, ready: set<Serial>, configs: map<Serial, DeviceConfig>, a: Snap, m: Snap,
                s: Serial)
    requires DockerOk(a.cs, a.ids) && Reflects(existing, a.cs) && s !in ready && m.faults == a.faults
    requires Removed(ready, existing.Keys, configs, a, m)
    ensures Next(false, true, SeenNow(a, s, configs), SeenNow(m, s, configs))
            && Next(false, false, SeenNow(a, s, configs), SeenNow(m, s, configs))
  {
    if Condemned(a, ready, configs, s) {
      assert !InUse(m.cs, s);
    } else {
      assert Find(m.cs, Appium, s) == Find(a.cs, Appium, s) && Find(m.cs, Tests, s) == Find(a.cs, Tests, s);
    }
  }

  // ── Many passes over the same device list ──

  /** `snaps` are the states before, between and after passes over one device list. */
  ghost predicate Chain(ready: set<Serial>, tests: bool, configs: map<Serial, DeviceConfig>, snaps: seq<Snap>)
  {
    && (forall k :: 0 <= k < |snaps| ==> DockerOk(snaps[k].cs, snaps[k].ids))
    && (forall k :: 0 <= k < |snaps| - 1 ==> Passed(ready, tests, configs, snaps[k], snaps[k + 1]))
  }

  lemma StaysSeparate(ready: set<Serial>, tests: bool, configs: map<Serial, DeviceConfig>, a: Snap, b: Snap)
    requires DockerOk(a.cs, a.ids) && DockerOk(b.cs, b.ids) && Passed(ready, tests, configs, a, b) && Separate(a, ready)
             && b.faults == a.faults
    ensures Separate(b, ready)
  {
    forall t | InUse(b.cs, t) && t !in ready ensures InUse(a.cs, t) {
      NoneNew(tests, configs, a, b, t);
    }
  }

  /** A pass gives a disconnected device no container. */
  lemma NoneNew(tests: bool, configs: map<Serial, DeviceConfig>, a: Snap, b: Snap, t: Serial)
    requires DockerOk(a.cs, a.ids) && DockerOk(b.cs, b.ids)
    requires Next(false, tests, SeenNow(a, t, configs), SeenNow(b, t, configs)) && InUse(b.cs, t)
    ensures InUse(a.cs, t)
  {}

  /** The device needs nothing more; if it is ready and in the right USB mode its Appium
      runs, if it is disconnected and in the right mode it has no container. */
  predicate SettledAt(ready: set<Serial>, tests: bool, configs: map<Serial, DeviceConfig>, c: Snap, serial: Serial)
  {
    && !Needs(ready, tests, configs, c, serial)
    && (serial in ready && VidMatch(c.cache, serial, configs) ==>
          Find(c.cs, Appium, serial).Some? && Find(c.cs, Appium, serial).value.state == "running")
    && (serial !in ready && VidMatch(c.cache, serial, configs) ==> !InUse(c.cs, serial))
  }

  ghost predicate Settled(ready: set<Serial>, tests: bool, configs: map<Serial, DeviceConfig>, c: Snap)
  {
    forall serial :: SettledAt(ready, tests, configs, c, serial)
  }

  /** Two passes without a failing call settle every device. */
  lemma TwoPassesEnough(ready: set<Serial>, tests: bool, configs: map<Serial, DeviceConfig>, a: Snap, b: Snap, c: Snap,
                        serial: Serial)
    requires DockerOk(a.cs, a.ids) && DockerOk(b.cs, b.ids) && DockerOk(c.cs, c.ids)
    requires Passed(ready, tests, configs, a, b) && Passed(ready, tests, configs, b, c)
    requires Separate(a, ready) && c.faults == a.faults
    ensures SettledAt(ready, tests, configs, c, serial)
  {
    StaysSeparate(ready, tests, configs, a, b);
    TwoPassesSettle(serial in ready, tests, SeenNow(a, serial, configs), SeenNow(b, serial, configs),
                    SeenNow(c, serial, configs));
    ViewSettled(ready, tests, configs, c, serial, SeenNow(c, serial, configs));
  }

  lemma ViewSettled(ready: set<Serial>, tests: bool, configs: map<Serial, DeviceConfig>, c: Snap, serial: Serial,
                    v: View)
    requires DockerOk(c.cs, c.ids) && v == SeenNow(c, serial, configs) && !Acts(serial in ready, tests, v)
    requires serial in ready && v.vidOk ==> v.appium == Up
    requires serial !in ready && v.vidOk ==> v.appium == NoAppium && v.test == NoTest
    ensures SettledAt(ready, tests, configs, c, serial)
  {}

  lemma SomeNeeds(ready: set<Serial>, tests: bool, configs: map<Serial, DeviceConfig>, a: Snap, b: Snap)
    requires Passed(ready, tests, configs, a, b) && |b.ops| > |a.ops|
    ensures exists s :: Needs(ready, tests, configs, a, s)
  {
    assert Needs(ready, tests, configs, a, b.ops[|a.ops|]);
  }

  lemma QuietPass(ready: set<Serial>, tests: bool, configs: map<Serial, DeviceConfig>, a: Snap, b: Snap)
    requires Passed(ready, tests, configs, a, b) && forall s :: !Needs(ready, tests, configs, a, s)
    ensures SameState(a, b) && b.ops == a.ops
  {
    if |b.ops| > |a.ops| {
      SomeNeeds(ready, tests, configs, a, b);
    }
  }

  /** From the second pass on, no pass creates, removes or reports anything, whether or not
      calls would fail. */
  lemma {:induction false} FixedPoint(ready: set<Serial>, tests: bool, configs: map<Serial, DeviceConfig>,
                                      snaps: seq<Snap>, k: nat)
    requires Chain(ready, tests, configs, snaps) && 2 <= k < |snaps|
    requires Separate(snaps[0], ready) && snaps[2].faults == snaps[0].faults
    ensures SameState(snaps[2], snaps[k]) && snaps[k].ops == snaps[2].ops
  {
    assert Passed(ready, tests, configs, snaps[0], snaps[0 + 1])
           && Passed(ready, tests, configs, snaps[1], snaps[1 + 1]);
    if k > 2 {
      FixedPoint(ready, tests, configs, snaps, k - 1);
      var c, p, q := snaps[2], snaps[k - 1], snaps[k];
      assert Passed(ready, tests, configs, p, q) by { assert q == snaps[k - 1 + 1]; }
      forall s ensures !Needs(ready, tests, configs, p, s) {
        TwoPassesEnough(ready, tests, configs, snaps[0], snaps[1], c, s);
        assert SeenNow(p, s, configs) == SeenNow(c, s, configs);
      }
      QuietPass(ready, tests, configs, p, q);
    }
  }

  lemma ChainSettles(ready: set<Serial>, tests: bool, configs: map<Serial, DeviceConfig>, snaps: seq<Snap>)
    requires Chain(ready, tests, configs, snaps) && |snaps| > 2
    requires Separate(snaps[0], ready) && snaps[2].faults == snaps[0].faults
    ensures Settled(ready, tests, configs, snaps[2])
  {
    assert Passed(ready, tests, configs, snaps[0], snaps[0 + 1])
           && Passed(ready, tests, configs, snaps[1], snaps[1 + 1]);
    forall s ensures SettledAt(ready, tests, configs, snaps[2], s) {
      TwoPassesEnough(ready, tests, configs, snaps[0], snaps[1], snaps[2], s);
    }
  }
}
