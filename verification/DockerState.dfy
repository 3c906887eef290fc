/** Docker-mode state: containers by name, the per-device records a Reconcile pass works
    on, and what a pass is meant to do to one device. */
module DockerState {
  import opened AdbDevices
  import opened Options

  datatype Role = Appium | Tests

  /** `managed`, `device`, `role` and `port` are labels. `state` is Docker's word for it. */
  datatype Container = Container(id: string, managed: bool, device: Serial, role: Role, port: int, state: string)

  /** `deviceContainers`, with the source's empty strings and zero for "none". */
  datatype DC = DC(appiumID: string, appiumPort: int, appiumStatus: string, testID: string, testStatus: string)

  const NO_DC := DC("", 0, "", "", "")

  datatype UsbInfo = UsbInfo(path: string, vid: string, pid: string)

  datatype DeviceConfig = DeviceConfig(testVID: string, testPID: string)

  /** Docker-mode `sanitize`: everything but letters, digits, '-' and '.' becomes '-'. */
  function Sanitize(s: string): (r: string)
    ensures |r| == |s|
  {
    seq(|s|, i requires 0 <= i < |s| =>
      var c := s[i];
      if 'a' <= c <= 'z' || 'A' <= c <= 'Z' || '0' <= c <= '9' || c == '-' || c == '.' then c else '-')
  }

  function NameOf(role: Role, serial: Serial): string
  {
    (if role == Appium then "appium-" else "tests-") + Sanitize(serial)
  }

  lemma RolesApart(s: Serial, t: Serial)
    ensures NameOf(Appium, s) != NameOf(Tests, t)
  {
    assert NameOf(Appium, s)[0] == 'a' && NameOf(Tests, t)[0] == 't';
  }

  // ── Which container is whose ──

  predicate Owns(cs: map<string, Container>, n: string, role: Role, serial: Serial)
  {
    n in cs && cs[n].managed && cs[n].role == role && cs[n].device == serial
  }

  function Find(cs: map<string, Container>, role: Role, serial: Serial): Option<Container>
  {
    var n := NameOf(role, serial);
    if Owns(cs, n, role, serial) then Some(cs[n]) else None
  }

  /** The record `listManaged` builds for one device. */
  function SlotOf(cs: map<string, Container>, serial: Serial): DC
  {
    var a, t := Find(cs, Appium, serial), Find(cs, Tests, serial);
    DC(if a.Some? then a.value.id else "",
       if a.Some? then a.value.port else 0,
       if a.Some? then a.value.state else "",
       if t.Some? then t.value.id else "",
       if t.Some? then t.value.state else "")
  }

  predicate InUse(cs: map<string, Container>, serial: Serial)
  {
    Find(cs, Appium, serial).Some? || Find(cs, Tests, serial).Some?
  }

  /** Names of managed containers follow the naming rule; identifiers are unique. */
  predicate DockerOk(cs: map<string, Container>, ids: set<string>)
  {
    && (forall n :: n in cs && cs[n].managed ==> n == NameOf(cs[n].role, cs[n].device))
    && (forall n :: n in cs ==> cs[n].id != "" && cs[n].id in ids)
    && (forall n, k :: n in cs && k in cs && cs[n].id == cs[k].id ==> n == k)
  }

  /** The `existing` map is exactly what the containers say. */
  ghost predicate Reflects(existing: map<Serial, DC>, cs: map<string, Container>)
  {
    && (forall s :: s in existing <==> InUse(cs, s))
    && (forall s :: s in existing ==> existing[s] == SlotOf(cs, s))
  }

  // ── Building the records ──

  /** The containers listed so far. */
  function Listed(cs: map<string, Container>, seen: set<string>): map<string, Container>
  {
    map n | n in cs && n in seen :: cs[n]
  }

  /** One container's contribution to its device's record. */
  function Noted(dc: DC, c: Container): DC
  {
    if c.role == Appium then dc.(appiumID := c.id, appiumPort := c.port, appiumStatus := c.state)
    else dc.(testID := c.id, testStatus := c.state)
  }

  lemma ListFind(cs: map<string, Container>, ids: set<string>, seen: set<string>, n: string, r: Role, s: Serial)
    requires DockerOk(cs, ids) && n in cs && n !in seen
    ensures Find(Listed(cs, seen + {n}), r, s) ==
              if cs[n].managed && r == cs[n].role && s == cs[n].device then Some(cs[n])
              else Find(Listed(cs, seen), r, s)
  {}

  /** The slots after one more container: only its own device's slot changes. */
  lemma ListSlots(cs: map<string, Container>, ids: set<string>, seen: set<string>, n: string)
    requires DockerOk(cs, ids) && n in cs && n !in seen
    ensures var a, b, c := Listed(cs, seen), Listed(cs, seen + {n}), cs[n];
            && (forall s :: s != c.device || !c.managed ==> SlotOf(b, s) == SlotOf(a, s) && InUse(b, s) == InUse(a, s))
            && (c.managed ==> SlotOf(b, c.device) == Noted(SlotOf(a, c.device), c) && InUse(b, c.device))
  {
    var a, b, c := Listed(cs, seen), Listed(cs, seen + {n}), cs[n];
    forall r, s ensures Find(b, r, s) == if c.managed && r == c.role && s == c.device then Some(c) else Find(a, r, s) {
      ListFind(cs, ids, seen, n, r, s);
    }
    forall s | s != c.device || !c.managed ensures SlotOf(b, s) == SlotOf(a, s) && InUse(b, s) == InUse(a, s) {
      assert Find(b, Appium, s) == Find(a, Appium, s) && Find(b, Tests, s) == Find(a, Tests, s);
    }
  }

  lemma ListStep(cs: map<string, Container>, ids: set<string>, seen: set<string>, n: string, existing: map<Serial, DC>)
    requires DockerOk(cs, ids) && n in cs && n !in seen && Reflects(existing, Listed(cs, seen))
    ensures !cs[n].managed ==> Reflects(existing, Listed(cs, seen + {n}))
    ensures cs[n].managed ==>
              var d := cs[n].device;
              Reflects(existing[d := Noted(if d in existing then existing[d] else NO_DC, cs[n])],
                       Listed(cs, seen + {n}))
  {
    ListSlots(cs, ids, seen, n);
    var a, d := Listed(cs, seen), cs[n].device;
    assert !InUse(a, d) ==> SlotOf(a, d) == NO_DC;
  }

  function RemoveId(cs: map<string, Container>, id: string): map<string, Container>
  {
    map n | n in cs && cs[n].id != id :: cs[n]
  }

  predicate IsAppium(cs: map<string, Container>, n: string)
  {
    n in cs && cs[n].managed && cs[n].role == Appium
  }

  /** How one container creation can end. `Leaked`: created, not started, not removed.
      `Reused`: the name was taken, and a container that Docker lists for it is used. */
  datatype Outcome = Refused | Started | StartFailed | Leaked | Reused

  function Created(cs: map<string, Container>, role: Role, serial: Serial, id: string, port: int,
                   outcome: Outcome): map<string, Container>
  {
    match outcome
    case Refused => cs
    case Started => cs[NameOf(role, serial) := Container(id, true, serial, role, port, "running")]
    case StartFailed | Reused => cs
    case Leaked => cs[NameOf(role, serial) := Container(id, true, serial, role, port, "created")]
  }

  function Rec(existing: map<Serial, DC>, serial: Serial): DC
  {
    if serial in existing then existing[serial] else NO_DC
  }

  function PortOf(existing: map<Serial, DC>, serial: Serial): int
  {
    if serial in existing then existing[serial].appiumPort else 0
  }

  // ── Frames ──

  /** Every device's containers are as before, except `serial`'s container of one role. */
  ghost predicate SameBut(cs: map<string, Container>, cs': map<string, Container>, role: Role, serial: Serial)
  {
    forall r, s :: (r != role || s != serial) ==> Find(cs', r, s) == Find(cs, r, s)
  }

  /** No Appium container comes, goes or changes its owner, except such as nobody owned. */
  ghost predicate AppiumKept(cs: map<string, Container>, cs': map<string, Container>)
  {
    && (forall n :: IsAppium(cs', n) ==> IsAppium(cs, n) && cs'[n] == cs[n])
    && (forall s :: Find(cs', Appium, s) == Find(cs, Appium, s))
  }

  lemma RemoveFrame(cs: map<string, Container>, ids: set<string>, role: Role, serial: Serial)
    requires DockerOk(cs, ids) && Find(cs, role, serial).Some?
    ensures var cs' := RemoveId(cs, Find(cs, role, serial).value.id);
            cs' == cs - {NameOf(role, serial)} && SameBut(cs, cs', role, serial) && Find(cs', role, serial) == None
  {
    var n := NameOf(role, serial);
    var cs' := RemoveId(cs, cs[n].id);
    forall r, s | r != role || s != serial ensures Find(cs', r, s) == Find(cs, r, s) {
      if NameOf(r, s) in cs && NameOf(r, s) == n {
        assert cs[n].role == role && cs[n].device == serial;
      }
    }
  }

  lemma CreateFrame(cs: map<string, Container>, role: Role, serial: Serial, id: string, port: int, outcome: Outcome)
    requires NameOf(role, serial) !in cs || outcome == Refused || outcome == Reused
    ensures SameBut(cs, Created(cs, role, serial, id, port, outcome), role, serial)
    ensures outcome == Started ==>
              Find(Created(cs, role, serial, id, port, outcome), role, serial)
                == Some(Container(id, true, serial, role, port, "running"))
  {
    var cs' := Created(cs, role, serial, id, port, outcome);
    var n := NameOf(role, serial);
    forall r, s | r != role || s != serial ensures Find(cs', r, s) == Find(cs, r, s) {
      if NameOf(r, s) == n && n in cs' && n !in cs {
        assert cs'[n].role == role && cs'[n].device == serial;
      }
    }
  }

  /** No other device's container holds the name. */
  predicate NameFree(cs: map<string, Container>, role: Role, serial: Serial)
  {
    var n := NameOf(role, serial);
    n in cs && cs[n].managed ==> Owns(cs, n, role, serial)
  }

  /** For a device without a test container: removing whatever has its test name leaves
      every device's test container alone if and only if no other device holds that name. */
  lemma RemovalHarmless(cs: map<string, Container>, ids: set<string>, serial: Serial)
    requires DockerOk(cs, ids) && Find(cs, Tests, serial) == None
    ensures var name := NameOf(Tests, serial);
            && (NameFree(cs, Tests, serial) <==> forall s :: Find(cs - {name}, Tests, s) == Find(cs, Tests, s))
            && (!NameFree(cs, Tests, serial) ==>
                  var t := cs[name].device;
                  t != serial && Find(cs, Tests, t) == Some(cs[name]) && Find(cs - {name}, Tests, t) == None)
  {
    var name := NameOf(Tests, serial);
    if !NameFree(cs, Tests, serial) {
      var t := cs[name].device;
      RolesApart(t, serial);
      assert Find(cs, Tests, t) == Some(cs[name]) && Find(cs - {name}, Tests, t) == None;
    }
  }

  /** Two serials with one container name, and a running test container of the first. */
  const SHARED := map["tests-a-b" := Container("c0", true, "a_b", Tests, 0, "running")]

  /** Making room for the second device's test container costs the first one its own. */
  lemma RemovalHarms()
    ensures DockerOk(SHARED, {"c0"}) && Find(SHARED, Tests, "a:b") == None && Find(SHARED, Tests, "a_b").Some?
    ensures Find(SHARED - {NameOf(Tests, "a:b")}, Tests, "a_b") == None
  {
    assert Sanitize("a_b") == "a-b" && Sanitize("a:b") == "a-b";
    assert NameOf(Tests, "a_b") == "tests-a-b" && NameOf(Tests, "a:b") == "tests-a-b";
  }

  // ── Records that outlive their container ──

  /** Every container with an identifier issued before is still what it was. */
  ghost predicate OnlyNew(cs0: map<string, Container>, ids0: set<string>, cs: map<string, Container>, ids: set<string>)
  {
    ids0 <= ids && forall n :: n in cs && cs[n].id in ids0 ==> n in cs0 && cs[n] == cs0[n]
  }

  /** The device's test container is as before, or it was removed, and then it has been
      reported or its device is not rebooting. */
  predicate TestKept(cs0: map<string, Container>, cs: map<string, Container>, reported: set<string>,
                     rebooting: set<Serial>, serial: Serial)
  {
    var t0, t := Find(cs0, Tests, serial), Find(cs, Tests, serial);
    t == t0 || (t0.Some? && t == None && (t0.value.id in reported || serial !in rebooting))
  }

  /** The test half of a record is current; or no container has its identifier any more,
      because another device took the name. */
  ghost predicate TestFits(dc: DC, serial: Serial, cs: map<string, Container>, ids: set<string>, reported: set<string>,
                           rebooting: set<Serial>)
  {
    var t := Find(cs, Tests, serial);
    if t.Some? then dc.testID == t.value.id && dc.testStatus == t.value.state
    else dc.testID != "" ==>
           && dc.testID in ids && (forall n :: n in cs ==> cs[n].id != dc.testID)
           && (dc.testID in reported || serial !in rebooting)
  }

  /** The Appium half of a record is current. */
  predicate AppiumFits(dc: DC, serial: Serial, cs: map<string, Container>)
  {
    var slot := SlotOf(cs, serial);
    dc.appiumID == slot.appiumID && dc.appiumPort == slot.appiumPort && dc.appiumStatus == slot.appiumStatus
  }

  lemma FitsOn(dc: DC, serial: Serial, cs0: map<string, Container>, ids0: set<string>, reported0: set<string>,
               rebooting0: set<Serial>, cs: map<string, Container>, ids: set<string>, reported: set<string>,
               rebooting: set<Serial>)
    requires DockerOk(cs0, ids0) && TestFits(dc, serial, cs0, ids0, reported0, rebooting0)
    requires OnlyNew(cs0, ids0, cs, ids) && TestKept(cs0, cs, reported, rebooting, serial)
    requires reported0 <= reported && (serial in rebooting ==> serial in rebooting0)
    ensures TestFits(dc, serial, cs, ids, reported, rebooting)
  {
    if Find(cs, Tests, serial) == None && dc.testID != "" {
      assert dc.testID in ids0;
      forall n | n in cs ensures cs[n].id != dc.testID {
        assert cs[n].id in ids0 ==> n in cs0 && cs[n] == cs0[n];
      }
    }
  }
}
