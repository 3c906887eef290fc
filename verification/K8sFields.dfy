/** What the passes and handlers of the hub-mode manager promise, in terms of the phases and
    statuses of pods, the states and platforms of devices, and the images configured. */
module K8sFields {
  import opened AdbDevices
  import opened K8sInvariants
  import opened K8sPasses
  import opened K8sState
  import opened K8sTheorems
  import opened Naming
  import opened Options
  import opened RunTable

  // ── Finished pods ──

  /** The first container called "tests" has terminated. */
  predicate FirstTestsEnded(statuses: seq<ContainerStatus>)
  {
    exists i :: 0 <= i < |statuses| && statuses[i].name == "tests" && statuses[i].terminated
             && forall j :: 0 <= j < i ==> statuses[j].name != "tests"
  }

  lemma {:induction false} EndedByIndex(statuses: seq<ContainerStatus>)
    ensures TestsContainerDone(statuses) <==> FirstTestsEnded(statuses)
  {
    if statuses != [] {
      var rest := statuses[1..];
      EndedByIndex(rest);
      if statuses[0].name != "tests" && FirstTestsEnded(rest) {
        var i :| 0 <= i < |rest| && rest[i].name == "tests" && rest[i].terminated
                 && forall j :: 0 <= j < i ==> rest[j].name != "tests";
        assert statuses[i + 1] == rest[i];
        forall j | 0 <= j < i + 1 ensures statuses[j].name != "tests" { assert j > 0 ==> statuses[j] == rest[j - 1]; }
      }
      if statuses[0].name != "tests" && FirstTestsEnded(statuses) {
        var i :| 0 <= i < |statuses| && statuses[i].name == "tests" && statuses[i].terminated
                 && forall j :: 0 <= j < i ==> statuses[j].name != "tests";
        assert rest[i - 1] == statuses[i];
        forall j | 0 <= j < i - 1 ensures rest[j].name != "tests" { assert rest[j] == statuses[j + 1]; }
      }
    }
  }

  lemma FinishedByPhase(p: Pod)
    ensures p.phase.Succeeded? || p.phase.Failed? ==> Finished(p)
    ensures p.phase.Running? ==> (Finished(p) <==> FirstTestsEnded(p.statuses))
    ensures p.phase.Pending? || p.phase.Unknown? ==> !Finished(p)
  {
    EndedByIndex(p.statuses);
  }

  // ── CheckPods ──

  /** What a pass of `CheckPods` leaves of the pods it started from: a labelled pod that has
      succeeded or failed is gone and reported, and if it was not reported before, it has a
      run; a running one is gone exactly if its tests have ended; all others stay. */
  ghost predicate Swept(pods0: map<string, Pod>, pods: map<string, Pod>, reported0: set<string>, reported: set<string>,
                        rows0: seq<Row>, rows: seq<Row>)
  {
    forall n :: n in pods0 ==>
      if pods0[n].managed && pods0[n].device != "" then
        && (pods0[n].phase.Succeeded? || pods0[n].phase.Failed? ==> n !in pods)
        && (pods0[n].phase.Running? ==> (n !in pods <==> FirstTestsEnded(pods0[n].statuses)))
        && (pods0[n].phase.Pending? || pods0[n].phase.Unknown? ==> n in pods)
        && (n in pods ==> pods[n] == pods0[n])
        && (n !in pods ==> pods0[n].uid in reported)
        && (n !in pods && pods0[n].uid !in reported0 ==> HasRun(rows0, rows, pods0[n].uid))
      else n in pods && pods[n] == pods0[n]
  }

  /** One of the runs added since is for the pod with this UID. */
  predicate HasRun(rows0: seq<Row>, rows: seq<Row>, uid: string)
  {
    exists i :: |rows0| <= i < |rows| && rows[i].key == uid
  }

  lemma CheckSweeps(pods0: map<string, Pod>, owner: map<string, Serial>, pods: map<string, Pod>, a: Books, b: Books)
    requires ClusterOk(pods0, owner) && pods == map n | n in pods0 && !Due(pods0[n]) :: pods0[n]
    requires Collected(DuePodKeys(pods0), a, b, false)
    ensures Swept(pods0, pods, a.reported, b.reported, a.rows, b.rows)
  {
    forall n | n in pods0 ensures PodKey(pods0[n]) == pods0[n].uid {
      FinishedByPhase(pods0[n]);
    }
    forall n | n in pods0 && Due(pods0[n]) && PodKey(pods0[n]) !in a.reported
      ensures HasRun(a.rows, b.rows, PodKey(pods0[n]))
    {
      assert PodKey(pods0[n]) in NewKeys(b.rows, |a.rows|);
    }
    forall n | n in pods0
      ensures pods0[n].phase.Succeeded? || pods0[n].phase.Failed? ==> Finished(pods0[n])
      ensures pods0[n].phase.Running? ==> (Finished(pods0[n]) <==> FirstTestsEnded(pods0[n].statuses))
      ensures pods0[n].phase.Pending? || pods0[n].phase.Unknown? ==> !Finished(pods0[n])
    {
      FinishedByPhase(pods0[n]);
    }
  }

  // ── Reconcile ──

  /** The last entry of the list in which the device is ready. */
  predicate LastReady(devs: seq<HubDevice>, i: int, serial: Serial)
  {
    && 0 <= i < |devs| && devs[i].serial == serial && devs[i].state == "device"
    && forall j :: i < j < |devs| && devs[j].serial == serial ==> devs[j].state != "device"
  }

  lemma LastReadySnoc(front: seq<HubDevice>, d: HubDevice, i: int, serial: Serial)
    ensures LastReady(front + [d], i, serial) <==>
              if d.serial == serial && d.state == "device" then i == |front| else LastReady(front, i, serial)
  {
    var devs := front + [d];
    assert devs[|front|] == d;
    forall j | 0 <= j < |front| ensures devs[j] == front[j] {}
  }

  lemma {:induction false} ReadyByIndex(devs: seq<HubDevice>, serial: Serial)
    ensures serial in ReadyMap(devs) <==> exists i :: LastReady(devs, i, serial)
    ensures forall i :: LastReady(devs, i, serial) ==> serial in ReadyMap(devs) && ReadyMap(devs)[serial] == devs[i]
  {
    if devs != [] {
      var front, d := devs[..|devs| - 1], devs[|devs| - 1];
      assert front + [d] == devs;
      ReadyByIndex(front, serial);
      forall i
        ensures LastReady(devs, i, serial) <==>
                  if d.serial == serial && d.state == "device" then i == |front| else LastReady(front, i, serial)
      {
        LastReadySnoc(front, d, i, serial);
      }
      if d.serial == serial && d.state == "device" {
        assert LastReady(devs, |front|, serial);
      } else {
        assert serial in ReadyMap(devs) <==> serial in ReadyMap(front);
      }
    }
  }

  /** The last pod of the list that carries the device's label. */
  predicate LastLabelled(list: seq<Pod>, i: int, serial: Serial)
  {
    && 0 <= i < |list| && list[i].device == serial && serial != ""
    && forall j :: i < j < |list| ==> list[j].device != serial
  }

  predicate LabelledIn(list: seq<Pod>, serial: Serial)
  {
    serial != "" && exists i :: 0 <= i < |list| && list[i].device == serial
  }

  /** The index has the last pod listed for each device, and skips pods without a label. */
  lemma {:induction false} IndexedByLabel(list: seq<Pod>, serial: Serial)
    ensures serial in BySerial(list) <==> LabelledIn(list, serial)
    ensures forall i :: LastLabelled(list, i, serial) ==> serial in BySerial(list) && BySerial(list)[serial] == list[i]
  {
    if list != [] {
      var front, p := list[..|list| - 1], list[|list| - 1];
      assert front + [p] == list;
      IndexedByLabel(front, serial);
      if i :| 0 <= i < |front| && front[i].device == serial { assert list[i].device == serial; }
      forall i | LastLabelled(list, i, serial) && i < |front| ensures LastLabelled(front, i, serial) {
        assert p == list[|front|];
        forall j | i < j < |front| ensures front[j].device != serial { assert front[j] == list[j]; }
      }
    }
  }

  /** The test image for the device's platform is configured. */
  predicate ImageSet(cfg: Config, dev: HubDevice)
  {
    (dev.platform == "ios" ==> cfg.iosTestImage != "") && (dev.platform != "ios" ==> cfg.testImage != "")
  }

  lemma ImageByPlatform(cfg: Config, dev: HubDevice)
    ensures HasImage(cfg, dev) <==> ImageSet(cfg, dev)
  {}

  /** The device is ready and its platform has an image. */
  predicate Testable(cfg: Config, devs: seq<HubDevice>, serial: Serial)
  {
    exists i :: 0 <= i < |devs| && LastReady(devs, i, serial) && ImageSet(cfg, devs[i])
  }

  predicate ReadyNow(devs: seq<HubDevice>, serial: Serial)
  {
    exists i :: 0 <= i < |devs| && LastReady(devs, i, serial)
  }

  lemma TestableIs(cfg: Config, devs: seq<HubDevice>, serial: Serial)
    ensures ReadyNow(devs, serial) <==> serial in ReadyMap(devs)
    ensures Testable(cfg, devs, serial) <==> serial in ReadyMap(devs) && HasImage(cfg, ReadyMap(devs)[serial])
  {
    ReadyByIndex(devs, serial);
    if i :| LastReady(devs, i, serial) { ImageByPlatform(cfg, devs[i]); }
  }

  /** What a Reconcile pass makes of one labelled pod it started from. */
  predicate PodFollows(cfg: Config, devs: seq<HubDevice>, p: Pod, pods: map<string, Pod>, reported: set<string>)
  {
    if !ReadyNow(devs, p.device) then !StillThere(pods, p)
    else if !Testable(cfg, devs, p.device) then StillThere(pods, p)
    else
      && (p.phase.Succeeded? || p.phase.Failed? ==> !StillThere(pods, p))
      && (p.phase.Running? ==> (!StillThere(pods, p) <==> FirstTestsEnded(p.statuses)))
      && (p.phase.Pending? || p.phase.Unknown? ==> StillThere(pods, p))
      && (!StillThere(pods, p) ==> p.uid in reported)
  }

  /** What a Reconcile pass does, pod by pod and device by device: labelled pods follow their
      phase, their tests container and their device; no other pod is touched; exactly the
      testable devices without a pod, and not rebooting, are asked for; and where the ready
      devices have names of their own, every testable device without a pod has one now, or
      settles, unless a pod that no list call selects holds its name. */
  ghost predicate Brought(cfg: Config, devs: seq<HubDevice>, pods0: map<string, Pod>, pods: map<string, Pod>,
                          reported: set<string>, rebooting0: set<Serial>, stabilizing: set<Serial>, asked: seq<Request>)
  {
    && (forall n :: n in pods && pods[n].managed && pods[n].device != "" ==> ReadyNow(devs, pods[n].device))
    && (forall n :: n in pods0 && pods0[n].managed && pods0[n].device != "" ==>
          PodFollows(cfg, devs, pods0[n], pods, reported))
    && (forall n :: n in pods0 && (!pods0[n].managed || pods0[n].device == "") ==> n in pods && pods[n] == pods0[n])
    && (forall s :: Asked(asked, s) <==> Testable(cfg, devs, s) && s !in rebooting0 && !Labelled(pods0, s))
    && (OwnNames(devs) ==>
          forall s :: Testable(cfg, devs, s) && !Labelled(pods0, s) && !NameHeld(pods0, s) ==>
            s in stabilizing || IsPodOf(pods, PodName(s), s))
  }

  ghost predicate OwnNames(devs: seq<HubDevice>)
  {
    forall s, t :: ReadyNow(devs, s) && ReadyNow(devs, t) && PodName(s) == PodName(t) ==> s == t
  }

  predicate Asked(asked: seq<Request>, serial: Serial)
  {
    exists i :: 0 <= i < |asked| && asked[i].serial == serial
  }

  /** Some managed pod carries the device's label. */
  predicate Labelled(pods: map<string, Pod>, serial: Serial)
  {
    serial != "" && exists n :: n in pods && pods[n].managed && pods[n].device == serial
  }

  lemma FollowsFrom(cfg: Config, devs: seq<HubDevice>, bySerial: map<Serial, Pod>, pods0: map<string, Pod>,
                    owner: map<string, Serial>, pods: map<string, Pod>, reported: set<string>, n: string)
    requires ClusterOk(pods0, owner) && Indexes(bySerial, pods0) && PodsReconciled(cfg, ReadyMap(devs), pods0, pods)
    requires Emptied(cfg, ReadyMap(devs), bySerial, ReadyMap(devs).Keys, pods)
    requires FinishedKeys(cfg, ReadyMap(devs), bySerial, ReadyMap(devs).Keys) <= reported
    requires n in pods0 && pods0[n].managed && pods0[n].device != ""
    ensures PodFollows(cfg, devs, pods0[n], pods, reported)
  {
    var p := pods0[n];
    TestableIs(cfg, devs, p.device);
    FinishedByPhase(p);
    assert bySerial[p.device] == p && PodKey(p) == p.uid && p.name == n;
    if p.device in ReadyMap(devs) && (!Finished(p) || !HasImage(cfg, ReadyMap(devs)[p.device])) {
      assert Untouched(cfg, ReadyMap(devs), p);
    }
  }

  lemma AskedFrom(cfg: Config, devs: seq<HubDevice>, bySerial: map<Serial, Pod>, pods0: map<string, Pod>,
                  rebooting0: set<Serial>, battery: map<Serial, int>, asked: seq<Request>, s: Serial)
    requires Indexes(bySerial, pods0)
    requires AskedFor(cfg, ReadyMap(devs), bySerial, rebooting0, battery, ReadyMap(devs).Keys, asked)
    ensures Asked(asked, s) <==> Testable(cfg, devs, s) && s !in rebooting0 && !Labelled(pods0, s)
  {
    TestableIs(cfg, devs, s);
    assert s in bySerial <==> Labelled(pods0, s);
    var r := Request(s, false, LevelIn(battery, s));
    if i :| 0 <= i < |asked| && asked[i].serial == s { assert asked[i] in asked && asked[i] == r; }
    assert r in asked ==> Asked(asked, s);
  }

  lemma PlacedFrom(cfg: Config, devs: seq<HubDevice>, bySerial: map<Serial, Pod>, pods0: map<string, Pod>,
                   pods: map<string, Pod>, stabilizing: set<Serial>, s: Serial)
    requires Indexes(bySerial, pods0) && Testable(cfg, devs, s) && !Labelled(pods0, s) && !NameHeld(pods0, s)
    requires DistinctNames(ReadyMap(devs).Keys)
    requires DevicesReconciled(cfg, ReadyMap(devs), bySerial, ReadyMap(devs).Keys, pods0, pods, stabilizing)
    ensures s in stabilizing || IsPodOf(pods, PodName(s), s)
  {
    TestableIs(cfg, devs, s);
    assert s !in bySerial;
    assert DevicePlaced(cfg, ReadyMap(devs)[s], bySerial, pods0, pods, stabilizing);
  }

  /** Pods are requested at a level of 30 or less exactly for devices at such a level. */
  ghost predicate LowRequests(asked: seq<Request>, battery: map<Serial, int>)
  {
    (exists r :: r in asked && 0 <= r.level <= 30) <==>
      exists s :: Asked(asked, s) && s in battery && 0 <= battery[s] <= 30
  }

  /** A pod is asked for at a level the gate would refuse, exactly when some device asked for is
      at such a level. */
  lemma AskedLow(cfg: Config, ready: map<Serial, HubDevice>, bySerial: map<Serial, Pod>, rebooting: set<Serial>,
                 battery: map<Serial, int>, done: set<Serial>, asked: seq<Request>)
    requires AskedFor(cfg, ready, bySerial, rebooting, battery, done, asked)
    ensures LowRequests(asked, battery)
  {
    forall i | 0 <= i < |asked| ensures asked[i].level == LevelIn(battery, asked[i].serial) {
      assert asked[i] in asked;
    }
    if r :| r in asked && 0 <= r.level <= 30 {
      var i :| 0 <= i < |asked| && asked[i] == r;
      assert Asked(asked, r.serial);
    }
    if s :| Asked(asked, s) && s in battery && 0 <= battery[s] <= 30 {
      var i :| 0 <= i < |asked| && asked[i].serial == s;
      assert asked[i] in asked;
    }
  }

  lemma ReconcileBrings(cfg: Config, devs: seq<HubDevice>, bySerial: map<Serial, Pod>, pods0: map<string, Pod>,
                        owner: map<string, Serial>, pods: map<string, Pod>, stabilizing: set<Serial>,
                        battery: map<Serial, int>, a: Books, b: Books, asked: seq<Request>)
    requires ClusterOk(pods0, owner) && Indexes(bySerial, pods0)
    requires Reconciled(cfg, ReadyMap(devs), bySerial, ReadyMap(devs).Keys, pods0, pods, stabilizing, battery, a, b,
                        asked)
    ensures Brought(cfg, devs, pods0, pods, b.reported, a.rebooting, stabilizing, asked)
    ensures LowRequests(asked, battery)
  {
    AskedLow(cfg, ReadyMap(devs), bySerial, a.rebooting, battery, ReadyMap(devs).Keys, asked);
    forall s ensures ReadyNow(devs, s) <==> s in ReadyMap(devs) { TestableIs(cfg, devs, s); }
    if OwnNames(devs) {
      assert DistinctNames(ReadyMap(devs).Keys);
      forall s | Testable(cfg, devs, s) && !Labelled(pods0, s) && !NameHeld(pods0, s)
        ensures s in stabilizing || IsPodOf(pods, PodName(s), s)
      {
        PlacedFrom(cfg, devs, bySerial, pods0, pods, stabilizing, s);
      }
    }
    forall n | n in pods0 && pods0[n].managed && pods0[n].device != ""
      ensures PodFollows(cfg, devs, pods0[n], pods, b.reported)
    {
      FollowsFrom(cfg, devs, bySerial, pods0, owner, pods, b.reported, n);
    }
    forall s ensures Asked(asked, s) <==> Testable(cfg, devs, s) && s !in a.rebooting && !Labelled(pods0, s) {
      AskedFrom(cfg, devs, bySerial, pods0, a.rebooting, battery, asked, s);
    }
  }
}
