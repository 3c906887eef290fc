/** What the collecting passes of the hub-mode manager do to its books, and what a Reconcile
    pass does to pods and requests. Free of the heap. */
module K8sPasses {
  import opened AdbDevices
  import opened K8sInvariants
  import opened K8sState
  import opened K8sTheorems
  import opened Ledger
  import opened Naming
  import opened Options
  import opened RunTable

  /** A pod request: for which device, through which gate, at which last known level. */
  datatype Request = Request(serial: Serial, gated: bool, level: int)

  /** A battery that allows tests: unknown, or above the pause threshold. */
  predicate Charged(level: int)
  {
    level < 0 || level > 30
  }

  lemma OneAsked(asked: seq<Request>, r: Request)
    requires asked == [] || asked == [r]
    ensures (exists q :: q in asked && 0 <= q.level <= 30) <==> asked != [] && 0 <= r.level <= 30
  {
    if asked == [r] { assert r in asked; }
  }

  // ── The books ──

  /** What collecting a pod changes besides the cluster. */
  datatype Books = Books(reported: set<string>, rows: seq<Row>, rebooting: set<Serial>, goroutines: map<nat, Task>)

  /** One more goroutine, under an identifier that was not in use. */
  ghost predicate Spawned(before: map<nat, Task>, after: map<nat, Task>, task: Task)
  {
    exists id: nat :: id !in before && after == before[id := task]
  }

  /** A finished pod's key is claimed; if it is new, it gets a run, its device is flagged, and
      a reboot goroutine is started for that run. */
  ghost predicate KeyCollected(p: Pod, a: Books, b: Books)
  {
    && b.reported == a.reported + {PodKey(p)}
    && if PodKey(p) in a.reported then b == a
       else
         && b.rows == Insert(a.rows, PodKey(p), p.device) && b.rebooting == a.rebooting + {p.device}
         && Spawned(a.goroutines, b.goroutines, Task(Rebooting(p.device, |b.rows|), NoRest))
  }

  /** A settle goroutine is started, or nothing happens. */
  ghost predicate SettleOnly(a: Books, b: Books)
  {
    && b.reported == a.reported && b.rows == a.rows && b.rebooting == a.rebooting
    && (b.goroutines == a.goroutines || exists dev :: Spawned(a.goroutines, b.goroutines, Task(Sleeping(dev), NoRest)))
  }

  function NewSerials(rows: seq<Row>, n: nat): set<Serial>
  {
    set i | n <= i < |rows| :: rows[i].serial
  }

  /** The task that reboots the device of row `i` and owes that row its boot result. */
  function RebootOf(rows: seq<Row>, i: nat): Task
    requires i < |rows|
  {
    Task(Rebooting(rows[i].serial, i + 1), NoRest)
  }

  ghost predicate HasTask(goroutines: map<nat, Task>, before: map<nat, Task>, task: Task)
  {
    exists id :: id in goroutines && id !in before && goroutines[id] == task
  }

  /** Every row since `a` has its reboot goroutine, and besides settle goroutines, if those
      are allowed, no other was started. */
  ghost predicate RebootsStarted(a: Books, b: Books, settles: bool)
  {
    && a.rows <= b.rows
    && (forall id :: id in a.goroutines ==> id in b.goroutines && b.goroutines[id] == a.goroutines[id])
    && (forall i :: |a.rows| <= i < |b.rows| ==> HasTask(b.goroutines, a.goroutines, RebootOf(b.rows, i)))
    && (forall id :: id in b.goroutines && id !in a.goroutines ==> NewTask(a, b, b.goroutines[id], settles))
  }

  ghost predicate NewTask(a: Books, b: Books, task: Task, settles: bool)
  {
    (settles && task.pc.Sleeping?) || exists i :: |a.rows| <= i < |b.rows| && task == RebootOf(b.rows, i)
  }

  /** From `a` to `b` exactly these keys were claimed: the new ones got runs, their devices
      are flagged, and each new run has a reboot goroutine. */
  ghost predicate Collected(keys: set<string>, a: Books, b: Books, settles: bool)
  {
    && b.reported == a.reported + keys && RebootsStarted(a, b, settles)
    && NewKeys(b.rows, |a.rows|) == keys - a.reported
    && b.rebooting == a.rebooting + NewSerials(b.rows, |a.rows|)
  }

  lemma CollectedNone(a: Books, settles: bool)
    ensures Collected({}, a, a, settles)
  {}

  lemma CollectedOne(p: Pod, keys: set<string>, a: Books, m: Books, b: Books, settles: bool)
    requires Collected(keys, a, m, settles) && KeyCollected(p, m, b)
    ensures Collected(keys + {PodKey(p)}, a, b, settles)
    ensures NewSerials(b.rows, |a.rows|) <= NewSerials(m.rows, |a.rows|) + {p.device}
  {
    if PodKey(p) !in m.reported {
      NewKeysInsert(m.rows, |a.rows|, PodKey(p), p.device);
      RebootsInsert(p, a, m, b, settles);
    }
  }

  lemma RebootsInsert(p: Pod, a: Books, m: Books, b: Books, settles: bool)
    requires RebootsStarted(a, m, settles) && KeyCollected(p, m, b) && PodKey(p) !in m.reported
    ensures RebootsStarted(a, b, settles)
  {
    var task := Task(Rebooting(p.device, |b.rows|), NoRest);
    var id: nat :| id !in m.goroutines && b.goroutines == m.goroutines[id := task];
    assert b.goroutines[id] == RebootOf(b.rows, |m.rows|);
    forall i | |a.rows| <= i < |b.rows| ensures HasTask(b.goroutines, a.goroutines, RebootOf(b.rows, i)) {
      if i < |m.rows| { TaskKept(a, m, b, i); }
    }
    forall k | k in m.goroutines && k !in a.goroutines ensures NewTask(a, b, b.goroutines[k], settles) {
      NewTaskKept(a, m, b, m.goroutines[k], settles);
    }
    assert NewTask(a, b, task, settles);
  }

  lemma TaskKept(a: Books, m: Books, b: Books, i: nat)
    requires i < |m.rows| && m.rows <= b.rows && HasTask(m.goroutines, a.goroutines, RebootOf(m.rows, i))
    requires forall k :: k in m.goroutines ==> k in b.goroutines && b.goroutines[k] == m.goroutines[k]
    ensures HasTask(b.goroutines, a.goroutines, RebootOf(b.rows, i))
  {
    var k: nat :| k in m.goroutines && k !in a.goroutines && m.goroutines[k] == RebootOf(m.rows, i);
    assert b.goroutines[k] == RebootOf(b.rows, i);
  }

  lemma NewTaskKept(a: Books, m: Books, b: Books, task: Task, settles: bool)
    requires NewTask(a, m, task, settles) && m.rows <= b.rows
    ensures NewTask(a, b, task, settles)
  {
    if !(settles && task.pc.Sleeping?) {
      var i :| |a.rows| <= i < |m.rows| && task == RebootOf(m.rows, i);
      assert task == RebootOf(b.rows, i);
    }
  }

  lemma CollectedSettle(keys: set<string>, a: Books, m: Books, b: Books)
    requires Collected(keys, a, m, true) && SettleOnly(m, b)
    ensures Collected(keys, a, b, true)
  {
    forall i | |a.rows| <= i < |b.rows| ensures HasTask(b.goroutines, a.goroutines, RebootOf(b.rows, i)) {
      TaskKept(a, m, b, i);
    }
    forall k | k in m.goroutines && k !in a.goroutines ensures NewTask(a, b, b.goroutines[k], true) {
      NewTaskKept(a, m, b, m.goroutines[k], true);
    }
  }

  // ── CheckPods ──

  /** One listed pod is collected if it is due. */
  ghost predicate Checked(p: Pod, pods: map<string, Pod>, pods': map<string, Pod>, a: Books, b: Books)
  {
    if Due(p) then pods' == pods - {p.name} && KeyCollected(p, a, b) else pods' == pods && b == a
  }

  lemma CheckedStep(list: seq<Pod>, i: nat, pods0: map<string, Pod>, pods1: map<string, Pod>, pods2: map<string, Pod>,
                    a: Books, m: Books, b: Books)
    requires i < |list| && pods1 == pods0 - DueNames(list[..i]) && Collected(DueKeys(list[..i]), a, m, false)
    requires Checked(list[i], pods1, pods2, m, b)
    ensures pods2 == pods0 - DueNames(list[..i + 1]) && Collected(DueKeys(list[..i + 1]), a, b, false)
  {
    DueStep(list, i);
    if Due(list[i]) {
      CollectedOne(list[i], DueKeys(list[..i]), a, m, b, false);
    }
  }

  /** A pod a `CheckPods` pass must collect. */
  predicate Due(p: Pod)
  {
    p.managed && p.device != "" && Finished(p)
  }

  function DueNames(ps: seq<Pod>): set<string>
  {
    set i | 0 <= i < |ps| && Due(ps[i]) :: ps[i].name
  }

  function DueKeys(ps: seq<Pod>): set<string>
  {
    set i | 0 <= i < |ps| && Due(ps[i]) :: PodKey(ps[i])
  }

  function DuePodKeys(pods: map<string, Pod>): set<string>
  {
    set n | n in pods && Due(pods[n]) :: PodKey(pods[n])
  }

  /** Keys of the rows added since the table had `n` rows. */
  function NewKeys(rows: seq<Row>, n: nat): set<string>
  {
    set i | n <= i < |rows| :: rows[i].key
  }

  function Without(pods: map<string, Pod>, names: seq<string>): map<string, Pod>
  {
    map n | n in pods && n !in names :: pods[n]
  }

  lemma WithoutStep(pods0: map<string, Pod>, pods1: map<string, Pod>, pods2: map<string, Pod>, names: seq<string>,
                    i: nat)
    requires i < |names| && pods1 == Without(pods0, names[..i]) && pods2 == pods1 - {names[i]}
    ensures pods2 == Without(pods0, names[..i + 1])
  {
    assert names[..i + 1] == names[..i] + [names[i]];
  }

  lemma NewKeysInsert(rows: seq<Row>, n: nat, key: string, serial: Serial)
    requires n <= |rows|
    ensures NewKeys(Insert(rows, key, serial), n) == NewKeys(rows, n) + {key}
    ensures NewSerials(Insert(rows, key, serial), n) == NewSerials(rows, n) + {serial}
  {
    var rows' := Insert(rows, key, serial);
    assert rows'[|rows|] == Row(key, serial, 0, None);
    forall i | 0 <= i < |rows| ensures rows'[i] == rows[i] {}
  }

  lemma DueStep(list: seq<Pod>, i: nat)
    requires i < |list|
    ensures DueNames(list[..i + 1]) == DueNames(list[..i]) + if Due(list[i]) then {list[i].name} else {}
    ensures DueKeys(list[..i + 1]) == DueKeys(list[..i]) + if Due(list[i]) then {PodKey(list[i])} else {}
  {
    var a, b := list[..i], list[..i + 1];
    assert b == a + [list[i]];
    assert b[i] == list[i];
    forall k | 0 <= k < i ensures b[k] == a[k] {}
  }

  /** What a full listing says about the due pods is what the cluster says. */
  lemma DueListing(pods: map<string, Pod>, list: seq<Pod>)
    requires IsListing(pods, None, list) && forall n :: n in pods ==> pods[n].name == n
    ensures DueKeys(list) == DuePodKeys(pods)
    ensures pods - DueNames(list) == map n | n in pods && !Due(pods[n]) :: pods[n]
  {
    forall n | n in pods && Due(pods[n]) ensures PodKey(pods[n]) in DueKeys(list) && n in DueNames(list) {
      var i :| 0 <= i < |list| && list[i] == pods[n];
    }
  }

  /** The pods after a request for `serial`: a free name gets the device's pod, pending, if the call
      succeeds; otherwise nothing changes. */
  predicate Posted(serial: Serial, ok: bool, pods0: map<string, Pod>, pods: map<string, Pod>)
  {
    && (ok && PodName(serial) !in pods0 ==> IsPodOf(pods, PodName(serial), serial))
    && (!ok || PodName(serial) in pods0 ==> pods == pods0)
    && (forall n :: n in pods0 ==> n in pods && pods[n] == pods0[n])
    && (forall n :: n in pods && n !in pods0 ==>
          n == PodName(serial) && IsPodOf(pods, n, serial) && pods[n].phase == Pending)
  }

  /** `bySerial` holds the one pod of each labelled device. */
  predicate Indexes(bySerial: map<Serial, Pod>, pods: map<string, Pod>)
  {
    && (forall s :: s in bySerial ==>
        s != "" && bySerial[s].device == s && bySerial[s].name in pods && pods[bySerial[s].name] == bySerial[s]
          && bySerial[s].managed)
    && (forall n :: n in pods && pods[n].managed && pods[n].device != "" ==>
          pods[n].device in bySerial && bySerial[pods[n].device] == pods[n] && pods[n].name == n)
  }

  lemma {:induction false} BySerialHas(list: seq<Pod>, i: nat)
    requires i < |list| && list[i].device != ""
    ensures list[i].device in BySerial(list)
  {
    if i < |list| - 1 {
      assert list[..|list| - 1][i] == list[i];
      BySerialHas(list[..|list| - 1], i);
    }
  }

  lemma ListingIndex(pods: map<string, Pod>, owner: map<string, Serial>, list: seq<Pod>)
    requires IsListing(pods, None, list) && ClusterOk(pods, owner)
    ensures Indexes(BySerial(list), pods)
  {
    forall n | n in pods && pods[n].managed && pods[n].device != ""
      ensures pods[n].device in BySerial(list) && BySerial(list)[pods[n].device] == pods[n]
    {
      var i :| 0 <= i < |list| && list[i] == pods[n];
      BySerialHas(list, i);
    }
  }

  /** The naming rule, for the pods a list call selects. */
  predicate RuleNames(pods: map<string, Pod>)
  {
    forall n :: n in pods && pods[n].managed ==> n == PodName(pods[n].device)
  }

  function PodNames(bySerial: map<Serial, Pod>, serials: set<Serial>): set<string>
  {
    set s | s in serials && s in bySerial :: bySerial[s].name
  }

  lemma PodNamesPlus(bySerial: map<Serial, Pod>, serials: set<Serial>, serial: Serial)
    requires serial in bySerial
    ensures PodNames(bySerial, serials + {serial}) == PodNames(bySerial, serials) + {bySerial[serial].name}
  {}

  /** Every labelled pod belongs to a ready device; pods that no list call selects, of ready
      devices without an image, or whose tests are still going on, are untouched. `p0` are the
      pods the pass started from. */
  predicate PodsReconciled(cfg: Config, ready: map<Serial, HubDevice>, p0: map<string, Pod>, pods: map<string, Pod>)
  {
    && (forall n :: n in pods && pods[n].managed && pods[n].device != "" ==> pods[n].device in ready)
    && (forall n :: n in p0 && Untouched(cfg, ready, p0[n]) ==> n in pods && pods[n] == p0[n])
  }

  predicate Untouched(cfg: Config, ready: map<Serial, HubDevice>, p: Pod)
  {
    || !p.managed || p.device == ""
    || (p.device in ready && (!Finished(p) || !HasImage(cfg, ready[p.device])))
  }

  /** The finished pods of the handled devices are gone. */
  predicate Emptied(cfg: Config, ready: map<Serial, HubDevice>, bySerial: map<Serial, Pod>, done: set<Serial>,
                    pods: map<string, Pod>)
    requires done <= ready.Keys
  {
    forall s :: s in done && s in bySerial && HasImage(cfg, ready[s]) && Finished(bySerial[s]) ==>
      !StillThere(pods, bySerial[s])
  }

  predicate StillThere(pods: map<string, Pod>, p: Pod)
  {
    p.name in pods && pods[p.name] == p
  }

  predicate DistinctNames(serials: set<Serial>)
  {
    forall s, t :: s in serials && t in serials && PodName(s) == PodName(t) ==> s == t
  }

  /** Pods the pass created are pods of devices it has handled. */
  predicate CreatedFor(done: set<Serial>, p0: map<string, Pod>, pods: map<string, Pod>)
  {
    forall n :: n in pods ==> (n in p0 && pods[n] == p0[n]) || CreatedPod(done, pods, n)
  }

  predicate CreatedPod(done: set<Serial>, pods: map<string, Pod>, n: string)
    requires n in pods
  {
    pods[n].managed && pods[n].device in done && n == PodName(pods[n].device)
  }

  // ── Reconcile ──

  /** Somebody else's pod has the device's pod name: one no list call selects. */
  predicate NameHeld(pods: map<string, Pod>, serial: Serial)
  {
    var n := PodName(serial);
    n in pods && (!pods[n].managed || pods[n].device == "")
  }

  /** A handled device that had no pod has one now or waits to settle. */
  predicate DevicePlaced(cfg: Config, dev: HubDevice, bySerial: map<Serial, Pod>, p0: map<string, Pod>,
                         pods: map<string, Pod>, stabilizing: set<Serial>)
  {
    HasImage(cfg, dev) && dev.serial !in bySerial && !NameHeld(p0, dev.serial) ==>
      dev.serial in stabilizing || IsPodOf(pods, PodName(dev.serial), dev.serial)
  }

  ghost predicate DevicesReconciled(cfg: Config, ready: map<Serial, HubDevice>, bySerial: map<Serial, Pod>,
                                    done: set<Serial>, p0: map<string, Pod>, pods: map<string, Pod>,
                                    stabilizing: set<Serial>)
    requires done <= ready.Keys
  {
    && CreatedFor(done, p0, pods)
    && (DistinctNames(ready.Keys) ==> forall s :: s in done ==>
        DevicePlaced(cfg, ready[s], bySerial, p0, pods, stabilizing))
  }

  function LevelIn(battery: map<Serial, int>, serial: Serial): int
  {
    if serial in battery then battery[serial] else -1
  }

  /** One iteration of the creation loop when no call fails: the cluster. */
  predicate PodsMoved(cfg: Config, dev: HubDevice, bySerial: map<Serial, Pod>, before: map<string, Pod>,
                      after: map<string, Pod>, stabilizing: set<Serial>)
  {
    if !HasImage(cfg, dev) then after == before
    else if dev.serial in bySerial then
      after == if Finished(bySerial[dev.serial]) then before - {bySerial[dev.serial].name} else before
    else
      && Added(dev.serial, before, after)
      && (PodName(dev.serial) !in before ==>
          dev.serial in stabilizing || IsPodOf(after, PodName(dev.serial), dev.serial))
  }

  /** The devices to come and the devices done. */
  predicate Splits(ready: map<Serial, HubDevice>, left: map<Serial, HubDevice>, done: set<Serial>)
  {
    left.Keys + done == ready.Keys && left.Keys !! done && forall s :: s in left ==> left[s] == ready[s]
  }

  lemma SplitsStep(ready: map<Serial, HubDevice>, left: map<Serial, HubDevice>, done: set<Serial>, serial: Serial)
    requires Splits(ready, left, done) && serial in left
    ensures Splits(ready, left - {serial}, done + {serial})
  {}

  /** And the books, with the requests made. */
  ghost predicate BooksMoved(cfg: Config, dev: HubDevice, bySerial: map<Serial, Pod>, battery: map<Serial, int>,
                             a: Books, b: Books, asked: seq<Request>)
  {
    if HasImage(cfg, dev) && dev.serial !in bySerial then
      && SettleOnly(a, b)
      && asked == if dev.serial in a.rebooting then [] else [Request(dev.serial, false, LevelIn(battery, dev.serial))]
    else
      && asked == []
      && if HasImage(cfg, dev)
      && Finished(bySerial[dev.serial]) then KeyCollected(bySerial[dev.serial], a, b) else b == a
  }

  /** No pod goes, and at most the device's own comes. */
  predicate Added(serial: Serial, before: map<string, Pod>, after: map<string, Pod>)
  {
    && (forall n :: n in before ==> n in after && after[n] == before[n])
    && (forall n :: n in after && n !in before ==>
          n == PodName(serial) && IsPodOf(after, n, serial) && after[n].phase == Pending)
  }

  /** Keys of the finished pods of the handled devices. */
  function FinishedKeys(cfg: Config, ready: map<Serial, HubDevice>, bySerial: map<Serial, Pod>,
                        done: set<Serial>): set<string>
  {
    set s | s in done && s in ready && HasImage(cfg, ready[s]) && s in bySerial
      && Finished(bySerial[s]) :: PodKey(bySerial[s])
  }

  /** Reconcile asks for a pod: the device has none and is not rebooting. */
  predicate Asks(cfg: Config, ready: map<Serial, HubDevice>, bySerial: map<Serial, Pod>, rebooting: set<Serial>,
                 serial: Serial)
  {
    serial in ready && HasImage(cfg, ready[serial]) && serial !in bySerial && serial !in rebooting
  }

  /** The requests made for the handled devices: one each for those, at whatever level. */
  ghost predicate AskedFor(cfg: Config, ready: map<Serial, HubDevice>, bySerial: map<Serial, Pod>,
                           rebooting: set<Serial>, battery: map<Serial, int>, done: set<Serial>, asked: seq<Request>)
  {
    && (forall r :: r in asked ==> r == Request(r.serial, false, LevelIn(battery, r.serial)))
    && (forall i, j :: 0 <= i < j < |asked| ==> asked[i].serial != asked[j].serial)
    && (forall s :: Request(s, false, LevelIn(battery, s)) in asked <==>
        s in done && Asks(cfg, ready, bySerial, rebooting, s))
  }

  /** Books and requests of the creation loop so far. */
  ghost predicate Booked(cfg: Config, ready: map<Serial, HubDevice>, bySerial: map<Serial, Pod>, done: set<Serial>,
                         battery: map<Serial, int>, a: Books, b: Books, asked: seq<Request>)
  {
    && Collected(FinishedKeys(cfg, ready, bySerial, done), a, b, true)
    && NewSerials(b.rows, |a.rows|) <= bySerial.Keys
    && AskedFor(cfg, ready, bySerial, a.rebooting, battery, done, asked)
  }

  lemma BookedStart(cfg: Config, ready: map<Serial, HubDevice>, bySerial: map<Serial, Pod>, battery: map<Serial, int>,
                    a: Books)
    ensures Booked(cfg, ready, bySerial, {}, battery, a, a, [])
  {
    CollectedNone(a, true);
    assert FinishedKeys(cfg, ready, bySerial, {}) == {};
  }

  lemma KeysStep(cfg: Config, ready: map<Serial, HubDevice>, bySerial: map<Serial, Pod>, done: set<Serial>,
                 serial: Serial)
    requires serial in ready
    ensures FinishedKeys(cfg, ready, bySerial, done + {serial}) ==
              FinishedKeys(cfg, ready, bySerial, done)
              + if HasImage(cfg, ready[serial]) && serial in bySerial
                && Finished(bySerial[serial]) then {PodKey(bySerial[serial])} else {}
  {}

  lemma AskedStep(cfg: Config, ready: map<Serial, HubDevice>, bySerial: map<Serial, Pod>, rebooting: set<Serial>,
                  battery: map<Serial, int>, done: set<Serial>, asked: seq<Request>, serial: Serial)
    requires AskedFor(cfg, ready, bySerial, rebooting, battery, done, asked) && serial !in done
    ensures AskedFor(cfg, ready, bySerial, rebooting, battery, done + {serial},
                     asked + if Asks(cfg, ready, bySerial, rebooting, serial)
                       then [Request(serial, false, LevelIn(battery, serial))] else [])
  {
    if Asks(cfg, ready, bySerial, rebooting, serial) {
      var all := asked + [Request(serial, false, LevelIn(battery, serial))];
      forall r ensures r in all <==> r in asked || r == Request(serial, false, LevelIn(battery, serial)) {}
    } else {
      assert asked + [] == asked;
    }
  }

  lemma BookedStep(cfg: Config, ready: map<Serial, HubDevice>, bySerial: map<Serial, Pod>, done: set<Serial>,
                   serial: Serial, battery: map<Serial, int>, a: Books, m: Books, b: Books, asked: seq<Request>,
                   more: seq<Request>)
    requires serial in ready && ready[serial].serial == serial && serial !in done
    requires forall s :: s in bySerial ==> bySerial[s].device == s
    requires Booked(cfg, ready, bySerial, done, battery, a, m, asked)
    requires BooksMoved(cfg, ready[serial], bySerial, battery, m, b, more)
    ensures Booked(cfg, ready, bySerial, done + {serial}, battery, a, b, asked + more)
  {
    KeysStep(cfg, ready, bySerial, done, serial);
    AskedStep(cfg, ready, bySerial, a.rebooting, battery, done, asked, serial);
    var keys := FinishedKeys(cfg, ready, bySerial, done);
    if HasImage(cfg, ready[serial]) && serial !in bySerial {
      CollectedSettle(keys, a, m, b);
    } else if HasImage(cfg, ready[serial]) && Finished(bySerial[serial]) {
      CollectedOne(bySerial[serial], keys, a, m, b, true);
    }
  }

  lemma PodNamesHas(bySerial: map<Serial, Pod>, ss: set<Serial>, s: Serial)
    requires s in ss && s in bySerial
    ensures bySerial[s].name in PodNames(bySerial, ss)
  {}

  lemma PodsStart(cfg: Config, ready: map<Serial, HubDevice>, bySerial: map<Serial, Pod>, p0: map<string, Pod>)
    requires Indexes(bySerial, p0)
    ensures PodsReconciled(cfg, ready, p0, p0 - PodNames(bySerial, bySerial.Keys - ready.Keys))
  {
    var names := PodNames(bySerial, bySerial.Keys - ready.Keys);
    forall n | n in p0 && Untouched(cfg, ready, p0[n]) ensures n !in names {}
    forall n | n in p0 && n !in names && p0[n].managed && p0[n].device != "" ensures p0[n].device in ready {
      var device := p0[n].device;
      if device !in ready {
        PodNamesHas(bySerial, bySerial.Keys - ready.Keys, device);
      }
    }
  }

  lemma PodsStep(cfg: Config, serial: Serial, ready: map<Serial, HubDevice>, bySerial: map<Serial, Pod>,
                 p0: map<string, Pod>, before: map<string, Pod>, after: map<string, Pod>, stabilizing: set<Serial>)
    requires serial in ready && ready[serial].serial == serial && Indexes(bySerial, p0)
    requires PodsReconciled(cfg, ready, p0, before)
             && PodsMoved(cfg, ready[serial], bySerial, before, after, stabilizing)
    ensures PodsReconciled(cfg, ready, p0, after)
  {
    forall n | n in after && after[n].managed && after[n].device != "" ensures after[n].device in ready {
      MovedPod(cfg, ready[serial], bySerial, before, after, stabilizing, n);
    }
    forall n | n in p0 && Untouched(cfg, ready, p0[n]) ensures n in after && after[n] == p0[n] {
      UntouchedStays(cfg, ready[serial], ready, bySerial, p0, before, after, stabilizing, n);
    }
  }

  lemma UntouchedStays(cfg: Config, dev: HubDevice, ready: map<Serial, HubDevice>, bySerial: map<Serial, Pod>,
                       p0: map<string, Pod>, before: map<string, Pod>, after: map<string, Pod>,
                       stabilizing: set<Serial>, n: string)
    requires Indexes(bySerial, p0) && PodsMoved(cfg, dev, bySerial, before, after, stabilizing)
    requires dev.serial in ready && ready[dev.serial] == dev
    requires n in p0 && Untouched(cfg, ready, p0[n]) && n in before && before[n] == p0[n]
    ensures n in after && after[n] == p0[n]
  {}

  lemma CreatedStep(cfg: Config, dev: HubDevice, bySerial: map<Serial, Pod>, done: set<Serial>, p0: map<string, Pod>,
                    before: map<string, Pod>, after: map<string, Pod>, stabilizing: set<Serial>)
    requires CreatedFor(done, p0, before) && PodsMoved(cfg, dev, bySerial, before, after, stabilizing)
    ensures CreatedFor(done + {dev.serial}, p0, after)
  {
    forall n | n in after ensures (n in p0 && after[n] == p0[n]) || CreatedPod(done + {dev.serial}, after, n) {
      MovedPod(cfg, dev, bySerial, before, after, stabilizing, n);
    }
  }

  /** A pod after an iteration was there before, or the iteration created it. */
  lemma MovedPod(cfg: Config, dev: HubDevice, bySerial: map<Serial, Pod>, before: map<string, Pod>,
                 after: map<string, Pod>, stabilizing: set<Serial>, n: string)
    requires PodsMoved(cfg, dev, bySerial, before, after, stabilizing) && n in after
    ensures (n in before && after[n] == before[n]) || (n !in before && CreatedPod({dev.serial}, after, n))
  {}

  /** Handling another device takes nothing away from one that is already placed. */
  lemma PlacedStays(cfg: Config, ready: map<Serial, HubDevice>, serial: Serial, other: Serial,
                    bySerial: map<Serial, Pod>, p0: map<string, Pod>, before: map<string, Pod>, after: map<string, Pod>,
                    stabilizing: set<Serial>, stabilizing': set<Serial>)
    requires Indexes(bySerial, p0) && RuleNames(p0) && stabilizing <= stabilizing' && DistinctNames(ready.Keys)
    requires serial in ready && other in ready && ready[serial].serial == serial && ready[other].serial == other
    requires DevicePlaced(cfg, ready[other], bySerial, p0, before, stabilizing)
    requires PodsMoved(cfg, ready[serial], bySerial, before, after, stabilizing')
    ensures DevicePlaced(cfg, ready[other], bySerial, p0, after, stabilizing')
  {
    var n := PodName(other);
    if other !in bySerial && n in before && IsPodOf(before, n, other) {
      OtherName(ready, serial, other, bySerial, p0);
      PodStays(cfg, ready[serial], bySerial, before, after, stabilizing', n);
    }
  }

  lemma OtherName(ready: map<Serial, HubDevice>, serial: Serial, other: Serial, bySerial: map<Serial, Pod>,
                  p0: map<string, Pod>)
    requires Indexes(bySerial, p0) && RuleNames(p0) && DistinctNames(ready.Keys)
    requires serial in ready && other in ready && other !in bySerial
    ensures serial in bySerial ==> bySerial[serial].name != PodName(other)
  {}

  lemma PodStays(cfg: Config, dev: HubDevice, bySerial: map<Serial, Pod>, before: map<string, Pod>,
                 after: map<string, Pod>, stabilizing: set<Serial>, n: string)
    requires PodsMoved(cfg, dev, bySerial, before, after, stabilizing) && n in before
    requires dev.serial in bySerial ==> bySerial[dev.serial].name != n
    ensures n in after && after[n] == before[n]
  {}

  /** When a device's turn comes, its pod name is free unless an unlisted pod holds it. */
  lemma NameFreed(ready: map<Serial, HubDevice>, serial: Serial, bySerial: map<Serial, Pod>, done: set<Serial>,
                  p0: map<string, Pod>, before: map<string, Pod>, cfg: Config)
    requires serial in ready && serial !in done && done <= ready.Keys && serial !in bySerial && !NameHeld(p0, serial)
    requires DistinctNames(ready.Keys) && Indexes(bySerial, p0) && RuleNames(p0) && CreatedFor(done, p0, before)
             && PodsReconciled(cfg, ready, p0, before)
    ensures PodName(serial) !in before
  {}

  lemma PlacedNow(cfg: Config, serial: Serial, ready: map<Serial, HubDevice>, bySerial: map<Serial, Pod>,
                  done: set<Serial>, p0: map<string, Pod>, before: map<string, Pod>, after: map<string, Pod>,
                  stabilizing: set<Serial>)
    requires done <= ready.Keys && serial in ready && serial !in done && ready[serial].serial == serial
    requires Indexes(bySerial, p0) && RuleNames(p0) && DistinctNames(ready.Keys)
    requires CreatedFor(done, p0, before) && PodsReconciled(cfg, ready, p0, before)
    requires PodsMoved(cfg, ready[serial], bySerial, before, after, stabilizing)
    ensures DevicePlaced(cfg, ready[serial], bySerial, p0, after, stabilizing)
  {
    if serial !in bySerial && !NameHeld(p0, serial) {
      NameFreed(ready, serial, bySerial, done, p0, before, cfg);
    }
  }

  lemma PlacedStep(cfg: Config, serial: Serial, ready: map<Serial, HubDevice>, bySerial: map<Serial, Pod>,
                   done: set<Serial>, p0: map<string, Pod>, before: map<string, Pod>, after: map<string, Pod>,
                   stabilizing: set<Serial>, stabilizing': set<Serial>)
    requires done <= ready.Keys && serial in ready && serial !in done && Indexes(bySerial, p0) && RuleNames(p0)
    requires forall s :: s in ready ==> ready[s].serial == s
    requires stabilizing <= stabilizing' && DistinctNames(ready.Keys) && CreatedFor(done, p0, before)
             && PodsReconciled(cfg, ready, p0, before)
    requires forall s :: s in done ==> DevicePlaced(cfg, ready[s], bySerial, p0, before, stabilizing)
    requires PodsMoved(cfg, ready[serial], bySerial, before, after, stabilizing')
    ensures forall s :: s in done + {serial} ==> DevicePlaced(cfg, ready[s], bySerial, p0, after, stabilizing')
  {
    PlacedNow(cfg, serial, ready, bySerial, done, p0, before, after, stabilizing');
    forall s | s in done ensures DevicePlaced(cfg, ready[s], bySerial, p0, after, stabilizing') {
      PlacedStays(cfg, ready, serial, s, bySerial, p0, before, after, stabilizing, stabilizing');
    }
  }

  lemma EmptiedStep(cfg: Config, serial: Serial, ready: map<Serial, HubDevice>, bySerial: map<Serial, Pod>,
                    done: set<Serial>, before: map<string, Pod>, after: map<string, Pod>, stabilizing: set<Serial>)
    requires done <= ready.Keys && serial in ready && ready[serial].serial == serial && serial !in done
    requires forall s :: s in bySerial ==> bySerial[s].device == s
    requires Emptied(cfg, ready, bySerial, done, before)
    requires PodsMoved(cfg, ready[serial], bySerial, before, after, stabilizing)
    ensures Emptied(cfg, ready, bySerial, done + {serial}, after)
  {
    forall s | s in done && s in bySerial && !StillThere(before, bySerial[s]) ensures !StillThere(after, bySerial[s]) {
      if bySerial[s].name in after {
        MovedPod(cfg, ready[serial], bySerial, before, after, stabilizing, bySerial[s].name);
      }
    }
  }

  /** Everything a Reconcile pass promises about the devices handled so far, when no call has
      failed. `p0` are the pods the pass started from, `a` its books then. */
  ghost predicate Reconciled(cfg: Config, ready: map<Serial, HubDevice>, bySerial: map<Serial, Pod>, done: set<Serial>,
                             p0: map<string, Pod>, pods: map<string, Pod>, stabilizing: set<Serial>,
                             battery: map<Serial, int>, a: Books, b: Books, asked: seq<Request>)
    requires done <= ready.Keys
  {
    && PodsReconciled(cfg, ready, p0, pods) && DevicesReconciled(cfg, ready, bySerial, done, p0, pods, stabilizing)
    && Booked(cfg, ready, bySerial, done, battery, a, b, asked) && Emptied(cfg, ready, bySerial, done, pods)
  }

  lemma ReconciledStart(cfg: Config, ready: map<Serial, HubDevice>, bySerial: map<Serial, Pod>, p0: map<string, Pod>,
                        pods: map<string, Pod>, clean: bool, stabilizing: set<Serial>, battery: map<Serial, int>,
                        a: Books)
    requires Indexes(bySerial, p0) && (clean ==> pods == p0 - PodNames(bySerial, bySerial.Keys - ready.Keys))
    ensures clean ==> Reconciled(cfg, ready, bySerial, {}, p0, pods, stabilizing, battery, a, a, [])
  {
    PodsStart(cfg, ready, bySerial, p0);
    BookedStart(cfg, ready, bySerial, battery, a);
  }

  lemma ReconciledStep(cfg: Config, serial: Serial, ready: map<Serial, HubDevice>, bySerial: map<Serial, Pod>,
                       done: set<Serial>, p0: map<string, Pod>, before: map<string, Pod>, after: map<string, Pod>,
                       stabilizing: set<Serial>, stabilizing': set<Serial>, battery: map<Serial, int>, a: Books,
                       m: Books, b: Books, asked: seq<Request>, more: seq<Request>)
    requires done <= ready.Keys && serial in ready && serial !in done && Indexes(bySerial, p0) && RuleNames(p0)
    requires (forall s :: s in ready ==> ready[s].serial == s) && stabilizing <= stabilizing'
    requires Reconciled(cfg, ready, bySerial, done, p0, before, stabilizing, battery, a, m, asked)
    requires PodsMoved(cfg, ready[serial], bySerial, before, after, stabilizing')
             && BooksMoved(cfg, ready[serial], bySerial, battery, m, b, more)
    ensures Reconciled(cfg, ready, bySerial, done + {serial}, p0, after, stabilizing', battery, a, b, asked + more)
  {
    BookedStep(cfg, ready, bySerial, done, serial, battery, a, m, b, asked, more);
    PodsStep(cfg, serial, ready, bySerial, p0, before, after, stabilizing');
    CreatedStep(cfg, ready[serial], bySerial, done, p0, before, after, stabilizing');
    EmptiedStep(cfg, serial, ready, bySerial, done, before, after, stabilizing');
    if DistinctNames(ready.Keys) {
      PlacedStep(cfg, serial, ready, bySerial, done, p0, before, after, stabilizing, stabilizing');
    }
  }
}
