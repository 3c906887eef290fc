/** What a Reconcile pass of the Docker-mode manager does to one device, in terms of the labels
    and states of containers, the cached USB data and the configured test mode. */
module DockerFields {
  import opened AdbDevices
  import opened DockerFrames
  import opened DockerPass
  import opened DockerSettle
  import opened DockerState
  import opened Options

  // ── Names ──

  /** A letter, a digit or a full stop, by code point. */
  predicate Plain(c: char)
  {
    97 <= c as int <= 122 || 65 <= c as int <= 90 || 48 <= c as int <= 57 || c as int == 46
  }

  /** Two devices share a container name exactly when their serials agree wherever either has a
      letter, a digit or a full stop. */
  lemma NamesClash(role: Role, s: Serial, t: Serial)
    ensures NameOf(role, s) == NameOf(role, t) <==>
            |s| == |t| && forall i :: 0 <= i < |s| ==> s[i] == t[i] || (!Plain(s[i]) && !Plain(t[i]))
  {
    var a, b := Sanitize(s), Sanitize(t);
    var prefix := if role == Appium then "appium-" else "tests-";
    assert NameOf(role, s)[|prefix|..] == a && NameOf(role, t)[|prefix|..] == b;
    if |s| == |t| {
      forall i | 0 <= i < |s| ensures a[i] == b[i] <==> s[i] == t[i] || (!Plain(s[i]) && !Plain(t[i])) {
        assert Plain(s[i]) ==> a[i] == s[i];
      }
    }
  }

  /** A container's name, letter by letter. */
  lemma NameMeans(role: Role, s: Serial)
    ensures var name, k := NameOf(role, s), if role == Appium then 7 else 6;
            && |name| == k + |s| && name[..k] == (if role == Appium then "appium-" else "tests-")
            && forall i :: k <= i < |name| ==> name[i] == if Plain(s[i - k]) then s[i - k] else '-'
  {
    var name, k := NameOf(role, s), if role == Appium then 7 else 6;
    assert name[..k] == if role == Appium then "appium-" else "tests-";
    forall i | k <= i < |name| ensures name[i] == if Plain(s[i - k]) then s[i - k] else '-' {
      assert name[i] == Sanitize(s)[i - k];
    }
  }

  // ── The test mode ──

  /** An upper-case letter and its lower case. */
  predicate LetterPair(c: char, d: char)
  {
    'A' <= c <= 'Z' && d as int == c as int + 32
  }

  /** The same string, up to the case of letters. */
  predicate SameButCase(a: string, b: string)
  {
    |a| == |b| && forall i :: 0 <= i < |a| ==> a[i] == b[i] || LetterPair(a[i], b[i]) || LetterPair(b[i], a[i])
  }

  /** No test VID is configured for the device; or its cached VID and PID are the configured VID
      and PID, up to letter case. */
  predicate ModeOk(cache: map<Serial, UsbInfo>, configs: map<Serial, DeviceConfig>, serial: Serial)
  {
    serial in configs && configs[serial].testVID != "" ==>
      && serial in cache
      && SameButCase(cache[serial].vid, configs[serial].testVID)
      && SameButCase(cache[serial].pid, configs[serial].testPID)
  }

  lemma FoldMeans(a: string, b: string)
    ensures EqualFold(a, b) <==> SameButCase(a, b)
  {
    if |a| == |b| {
      forall i | 0 <= i < |a|
        ensures FoldChar(a[i]) == FoldChar(b[i]) <==>
                  (a[i] == b[i] || LetterPair(a[i], b[i]) || LetterPair(b[i], a[i]))
      {
        FoldCharMeans(a[i], b[i]);
      }
    }
  }

  lemma FoldCharMeans(c: char, d: char)
    ensures FoldChar(c) == FoldChar(d) <==> (c == d || LetterPair(c, d) || LetterPair(d, c))
  {}

  lemma ModeMeans(cache: map<Serial, UsbInfo>, configs: map<Serial, DeviceConfig>, serial: Serial)
    ensures VidMatch(cache, serial, configs) <==> ModeOk(cache, configs, serial)
  {
    if serial in configs && serial in cache {
      FoldMeans(cache[serial].vid, configs[serial].testVID);
      FoldMeans(cache[serial].pid, configs[serial].testPID);
    }
  }

  // ── Containers ──

  predicate Has(cs: map<string, Container>, role: Role, serial: Serial)
  {
    exists n :: n in cs && cs[n].managed && cs[n].role == role && cs[n].device == serial
  }

  predicate Running(cs: map<string, Container>, role: Role, serial: Serial)
  {
    exists n :: n in cs && cs[n].managed && cs[n].role == role && cs[n].device == serial && cs[n].state == "running"
  }

  /** Some test container of the device has not been reported. */
  predicate Unreported(a: Snap, serial: Serial)
  {
    exists n :: n in a.cs && a.cs[n].managed && a.cs[n].role == Tests && a.cs[n].device == serial
             && a.cs[n].id !in a.reported
  }

  lemma FoundIs(cs: map<string, Container>, ids: set<string>, role: Role, serial: Serial)
    requires DockerOk(cs, ids)
    ensures Has(cs, role, serial) <==> Find(cs, role, serial).Some?
    ensures Running(cs, role, serial) <==>
              Find(cs, role, serial).Some? && Find(cs, role, serial).value.state == "running"
    ensures forall n :: n in cs && cs[n].managed && cs[n].role == role && cs[n].device == serial ==>
              Find(cs, role, serial) == Some(cs[n])
  {}

  /** What a pass sees of a device is what its containers are. */
  lemma ViewMeans(a: Snap, serial: Serial, configs: map<Serial, DeviceConfig>)
    requires DockerOk(a.cs, a.ids)
    ensures var v := SeenNow(a, serial, configs);
            && (v.vidOk <==> ModeOk(a.cache, configs, serial)) && (v.rebooting <==> serial in a.rebooting)
            && (v.appium == Up <==> Running(a.cs, Appium, serial))
            && (v.appium != NoAppium <==> Has(a.cs, Appium, serial))
            && (v.test == TestState.Running <==> Running(a.cs, Tests, serial))
            && (v.test != NoTest <==> Has(a.cs, Tests, serial))
            && (v.test == Fresh ==> Unreported(a, serial)) && (v.test == Stale ==> !Unreported(a, serial))
  {
    ModeMeans(a.cache, configs, serial);
    FoundIs(a.cs, a.ids, Appium, serial);
    FoundIs(a.cs, a.ids, Tests, serial);
    var t := Find(a.cs, Tests, serial);
    if t.Some? { assert Owns(a.cs, NameOf(Tests, serial), Tests, serial); }
  }

  // ── One pass ──

  /** The device is in the list, and usable in adb's words. */
  predicate Connected(devices: seq<Device>, serial: Serial)
  {
    exists i :: 0 <= i < |devices| && devices[i].serial == serial && devices[i].state == "device"
  }

  /** The tests of a ready device whose Appium half went through: a running container stays, a
      stopped one goes, with a reboot if it was not reported yet, and where there is none one
      is started unless the device is rebooting. */
  predicate TestsFollow(serial: Serial, tests: bool, a: Snap, b: Snap)
  {
    if !tests then
      (Has(b.cs, Tests, serial) <==> Has(a.cs, Tests, serial))
        && (Running(b.cs, Tests, serial) <==> Running(a.cs, Tests, serial))
    else
      && (Running(a.cs, Tests, serial) ==> Running(b.cs, Tests, serial))
      && (Has(a.cs, Tests, serial) && !Running(a.cs, Tests, serial) ==>
            !Has(b.cs, Tests, serial) && (Unreported(a, serial) ==> serial in b.rebooting))
      && (!Has(a.cs, Tests, serial) && serial in a.rebooting ==> !Has(b.cs, Tests, serial))
      && (!Has(a.cs, Tests, serial) && serial !in a.rebooting ==> Running(b.cs, Tests, serial))
  }

  /** What a pass without faults does to one device, `ready` or not. */
  ghost predicate Passes(serial: Serial, ready: bool, tests: bool, configs: map<Serial, DeviceConfig>, a: Snap, b: Snap)
  {
    && (ready && (ModeOk(a.cache, configs, serial) || Running(a.cs, Appium, serial)) ==>
          Running(b.cs, Appium, serial) && TestsFollow(serial, tests, a, b))
    && (!ready && ModeOk(a.cache, configs, serial) ==> !Has(b.cs, Appium, serial) && !Has(b.cs, Tests, serial))
    && (!ModeOk(a.cache, configs, serial) && !(ready && Running(a.cs, Appium, serial)) ==>
          && (Has(b.cs, Appium, serial) <==> Has(a.cs, Appium, serial))
          && (Has(b.cs, Tests, serial) <==> Has(a.cs, Tests, serial))
          && (Running(b.cs, Appium, serial) <==> Running(a.cs, Appium, serial)))
    && (ModeOk(b.cache, configs, serial) != ModeOk(a.cache, configs, serial) ==>
        ready && ModeOk(a.cache, configs, serial))
  }

  lemma PassMeans(ready: set<Serial>, tests: bool, configs: map<Serial, DeviceConfig>, a: Snap, b: Snap, serial: Serial)
    requires DockerOk(a.cs, a.ids) && DockerOk(b.cs, b.ids) && Passed(ready, tests, configs, a, b)
    requires Separate(a, ready) && b.faults == a.faults
    ensures Passes(serial, serial in ready, tests, configs, a, b)
  {
    ViewMeans(a, serial, configs);
    ViewMeans(b, serial, configs);
    assert Next(serial in ready, tests, SeenNow(a, serial, configs), SeenNow(b, serial, configs));
  }

  ghost predicate AllPass(devices: seq<Device>, tests: bool, configs: map<Serial, DeviceConfig>, a: Snap, b: Snap)
  {
    forall serial :: Passes(serial, Connected(devices, serial), tests, configs, a, b)
  }

  lemma PassesMean(devices: seq<Device>, ready: set<Serial>, tests: bool, configs: map<Serial, DeviceConfig>, a: Snap,
                   b: Snap)
    requires DockerOk(a.cs, a.ids) && DockerOk(b.cs, b.ids) && Passed(ready, tests, configs, a, b)
    requires Separate(a, ready) && b.faults == a.faults && forall s :: s in ready <==> Connected(devices, s)
    ensures AllPass(devices, tests, configs, a, b)
  {
    forall serial ensures Passes(serial, Connected(devices, serial), tests, configs, a, b) {
      PassMeans(ready, tests, configs, a, b, serial);
    }
  }

  /** Whether or not calls fail, a pass makes no Docker call for a device in the wrong mode,
      unless it is ready and its Appium runs. */
  ghost predicate WrongModeAlone(devices: seq<Device>, configs: map<Serial, DeviceConfig>, a: Snap, b: Snap)
  {
    a.ops <= b.ops && forall i :: |a.ops| <= i < |b.ops| ==>
      ModeOk(a.cache, configs, b.ops[i]) || (Connected(devices, b.ops[i]) && Running(a.cs, Appium, b.ops[i]))
  }

  lemma AloneMeans(devices: seq<Device>, ready: set<Serial>, tests: bool, configs: map<Serial, DeviceConfig>, a: Snap,
                   b: Snap)
    requires DockerOk(a.cs, a.ids) && Passed(ready, tests, configs, a, b)
    requires forall s :: s in ready <==> Connected(devices, s)
    ensures WrongModeAlone(devices, configs, a, b)
  {
    forall i | |a.ops| <= i < |b.ops|
      ensures ModeOk(a.cache, configs, b.ops[i]) || (Connected(devices, b.ops[i]) && Running(a.cs, Appium, b.ops[i]))
    {
      ViewMeans(a, b.ops[i], configs);
      assert Needs(ready, tests, configs, a, b.ops[i]);
    }
  }

  /** The cached USB data after a pass: as before, or read off the USB tree for a ready device, and
      blank when the tree does not show it. */
  ghost predicate ReadFrom(ready: set<Serial>, tree: map<Serial, UsbInfo>, was: map<Serial, UsbInfo>,
                           now: map<Serial, UsbInfo>)
  {
    && (forall s :: s in was ==> s in now)
    && forall s :: s in now ==>
        || (s in was && now[s] == was[s])
        || (s in ready && now[s] == if s in tree then tree[s] else UsbInfo("", "", ""))
  }

  // ── Many passes ──

  /** What passes come to after two of them without faults: in the right mode a ready device has
      its Appium running and a disconnected one no container; in the wrong mode, and without
      Appium running, a device has the containers it had. */
  predicate Settles(serial: Serial, ready: bool, configs: map<Serial, DeviceConfig>, a: Snap, c: Snap)
  {
    && (ready && ModeOk(a.cache, configs, serial) ==> Running(c.cs, Appium, serial))
    && (!ready && ModeOk(a.cache, configs, serial) ==> !Has(c.cs, Appium, serial) && !Has(c.cs, Tests, serial))
    && (!ModeOk(a.cache, configs, serial) && !Running(a.cs, Appium, serial) ==>
          && (Has(c.cs, Appium, serial) <==> Has(a.cs, Appium, serial))
          && (Has(c.cs, Tests, serial) <==> Has(a.cs, Tests, serial)))
  }

  ghost predicate AllSettle(devices: seq<Device>, configs: map<Serial, DeviceConfig>, a: Snap, c: Snap)
  {
    forall serial :: Settles(serial, Connected(devices, serial), configs, a, c)
  }

  lemma TwoPassesMean(ready: set<Serial>, tests: bool, configs: map<Serial, DeviceConfig>, a: Snap, b: Snap, c: Snap,
                      serial: Serial)
    requires DockerOk(a.cs, a.ids) && DockerOk(b.cs, b.ids) && DockerOk(c.cs, c.ids)
    requires Passed(ready, tests, configs, a, b) && Passed(ready, tests, configs, b, c)
    requires Separate(a, ready) && c.faults == a.faults
    ensures Settles(serial, serial in ready, configs, a, c)
  {
    StaysSeparate(ready, tests, configs, a, b);
    PassMeans(ready, tests, configs, a, b, serial);
    PassMeans(ready, tests, configs, b, c, serial);
  }
}
