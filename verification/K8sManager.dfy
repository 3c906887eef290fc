/** The hub-mode manager as an object whose handlers run one at a time.

    Each method does what the handler of the same name does, on the same fields, and is
    shown step by step to be a run of the transition system: the interleaving model and
    the sequential code are two views of one thing. What the handlers achieve when
    nothing interferes is stated on the fields. */
module K8sManager {
  import opened AdbDevices
  import opened K8sFields
  import opened K8sInvariants
  import opened K8sPasses
  import opened K8sRuns
  import opened K8sState
  import opened K8sTheorems
  import opened Ledger
  import opened Naming
  import opened Options
  import opened RunTable

  /** One step of task `t`, from state `g` to state `g'`, as part of a run from `s0`. */
  lemma Go(s0: State, g: State, t: nat, c: Choice, f: Effect, g': State)
    requires Runs(s0, g) && t in g.tasks && c.id !in g.tasks
    requires Local(g.cfg, g.sh, g.tasks[t], c) == f
    requires g' == State(g.cfg, f.sh, After(g.tasks, t, f.next, c.id, f.spawn))
    ensures Runs(s0, g')
  {
    RunsStep(s0, g, Step(t, c));
  }

  lemma Enter(s0: State, g: State, t: nat, act: Activity, g': State)
    requires Runs(s0, g) && t !in g.tasks && g' == State(g.cfg, g.sh, g.tasks[t := Entry(act)])
    ensures Runs(s0, g')
  {
    RunsStep(s0, g, Begin(t, act));
  }

  /** Loops that have nothing left to do. */
  predicate Ends(rest: Rest)
  {
    match rest
    case NoRest => true
    case CheckRest(todo) => todo == []
    case DeleteRest(names) => names == []
    case ReconRest(gone, ready, _) => gone == {} && ready == map[]
  }

  /** The last step of a handler: its task disappears. */
  lemma Leave(s0: State, g: State, t: nat, id: nat, g': State)
    requires Runs(s0, g) && t in g.tasks && id !in g.tasks
    requires g.tasks[t].pc == Idle && Ends(g.tasks[t].rest)
    requires g' == State(g.cfg, g.sh, g.tasks - {t})
    ensures Runs(s0, g')
  {
    Go(s0, g, t, Plainly(id), Effect(g.sh, None, None), g');
  }

  /** The names in a listing are exactly the device's pods. */
  lemma ListingNames(pods: map<string, Pod>, serial: Serial, list: seq<Pod>)
    requires IsListing(pods, Some(serial), list) && forall n :: n in pods ==> pods[n].name == n
    ensures forall n :: n in pods ==> (n in Names(list) <==> IsPodOf(pods, n, serial))
  {
    forall n | n in pods ensures n in Names(list) <==> IsPodOf(pods, n, serial) {
      if IsPodOf(pods, n, serial) {
        var k :| 0 <= k < |list| && list[k] == pods[n];
        assert Names(list)[k] == n;
      }
    }
  }

  lemma EmptyListing(pods: map<string, Pod>, serial: Serial, list: seq<Pod>)
    requires IsListing(pods, Some(serial), list)
    ensures list == [] <==> !HasPod(pods, serial)
  {
    if list != [] {
      assert list[0].name in pods;
    }
  }

  class Manager {
    const cfg: Config

    // The cluster.
    var pods: map<string, Pod>
    var owner: map<string, Serial>

    // The manager's maps.
    var rebooting: set<Serial>
    var stabilizing: set<Serial>
    var reported: set<string>
    var devices: map<Serial, HubDevice>
    var battery: map<Serial, int>
    var lowBattery: map<Serial, HubDevice>

    // The run table.
    var rows: seq<Row>
    var lost: set<string>

    // Goroutines started and not finished, and the next unused identifier.
    var goroutines: map<nat, Task>
    var clock: nat

    // History: failed API and database calls, and pod requests made.
    var faults: nat
    var requests: seq<Request>

    function Sh(): Shared
      reads this
    {
      Shared(pods, owner, rebooting, stabilizing, reported, devices, battery, lowBattery, rows, lost)
    }

    function View(): State
      reads this
    {
      State(cfg, Sh(), goroutines)
    }

    /** The state seen while the handler with task `t` is running. */
    function Busy(t: nat, task: Task): State
      reads this
    {
      State(cfg, Sh(), goroutines[t := task])
    }

    function Level(serial: Serial): int
      reads this`battery
    {
      LevelIn(battery, serial)
    }

    /** What collecting a pod changes besides the cluster. */
    function Tally(): Books
      reads this
    {
      Books(reported, rows, rebooting, goroutines)
    }

    /** Between handlers only sleeping or rebooting goroutines are left. */
    predicate IdsOk()
      reads this`goroutines, this`clock
    {
      forall id :: id in goroutines ==>
        && id < clock && goroutines[id].rest == NoRest
        && (goroutines[id].pc.Sleeping? || goroutines[id].pc.Rebooting? || goroutines[id].pc.RetrySleep?)
    }

    predicate RequestsOk()
      reads this`requests
    {
      forall i :: 0 <= i < |requests| && requests[i].gated ==> Charged(requests[i].level)
    }

    ghost predicate Valid()
      reads this
    {
      Inv(View()) && IdsOk() && RequestsOk()
    }

    /** What holds inside a handler: the moves so far are a run that has brought task
        `t` to `task`. */
    ghost predicate At(s0: State, t: nat, task: Task)
      reads this
    {
      Runs(s0, Busy(t, task)) && t !in goroutines && t < clock && IdsOk()
    }

    /** A step of the handler's task that changes nothing but its own place. */
    lemma Jump(s0: State, t: nat, task: Task, c: Choice, pc: PC, rest: Rest)
      requires At(s0, t, task) && c.id == clock && Local(cfg, Sh(), task, c) == Goto(Sh(), pc, rest)
      ensures At(s0, t, Task(pc, rest))
    {
      Go(s0, Busy(t, task), t, c, Goto(Sh(), pc, rest), Busy(t, Task(pc, rest)));
    }

    constructor (cfg: Config, pods: map<string, Pod>, owner: map<string, Serial>)
      requires ClusterOk(pods, owner)
      ensures Valid() && Init(View())
    {
      this.cfg := cfg;
      this.pods, this.owner := pods, owner;
      rebooting, stabilizing, reported := {}, {}, {};
      devices, battery, lowBattery := map[], map[], map[];
      rows, lost := [], {};
      goroutines, clock := map[], 0;
      faults, requests := 0, [];
      new;
      InitInv(View());
    }

    /** A handler starts: its task enters the transition system. */
    method Start(act: Activity) returns (ghost s0: State, ghost t: nat)
      requires Valid()
      modifies this`clock
      ensures s0 == old(View()) && Inv(s0) && At(s0, t, Entry(act))
    {
      s0 := View();
      t := clock;
      clock := clock + 1;
      RunsRefl(s0);
      Enter(s0, View(), t, act, Busy(t, Entry(act)));
    }

    /** A handler that has reached its end has made a run, and a run keeps the invariant. */
    lemma Finish(s0: State, t: nat, rest: Rest)
      requires At(s0, t, Task(Idle, rest)) && Ends(rest) && Inv(s0) && RequestsOk()
      ensures Valid() && Runs(s0, View()) && Later(s0.sh, Sh())
    {
      Leave(s0, Busy(t, Task(Idle, rest)), t, clock, View());
      RunsInv(s0, View());
    }

    // ── The Kubernetes API ──

    /** Lists managed pods, of one device or of all, in any order; or fails. */
    method ListPods(serial: Option<Serial>) returns (r: Option<seq<Pod>>)
      requires forall n :: n in pods ==> pods[n].name == n
      modifies this`faults
      ensures r.Some? ==> IsListing(pods, serial, r.value) && faults == old(faults)
      ensures r.None? ==> faults > old(faults)
    {
      var ok := *;
      if !ok {
        faults := faults + 1;
        return None;
      }
      var left := pods.Keys;
      var list: seq<Pod> := [];
      while left != {}
        invariant left <= pods.Keys
        invariant forall i :: 0 <= i < |list| ==>
                    list[i].name in pods.Keys - left && pods[list[i].name] == list[i] && list[i].managed
                    && (serial.Some? ==> list[i].device == serial.value)
        invariant forall n ::
                    n in pods && n !in left && pods[n].managed && (serial.Some? ==> pods[n].device == serial.value) ==>
                      pods[n] in list
        invariant forall i, j :: 0 <= i < j < |list| ==> list[i].name != list[j].name
        decreases left
      {
        var n :| n in left;
        left := left - {n};
        if pods[n].managed && (serial.None? || pods[n].device == serial.value) {
          list := list + [pods[n]];
        }
      }
      r := Some(list);
    }

    method DeleteByName(name: string) returns (ok: bool)
      modifies this`pods, this`faults
      ensures pods == DeletePod(old(pods), name, ok)
      ensures faults == if ok then old(faults) else old(faults) + 1
    {
      ok := *;
      if ok {
        pods := pods - {name};
      } else {
        faults := faults + 1;
      }
    }

    /** A UID nobody has been given yet. */
    method NewUid() returns (uid: string)
      ensures uid != "" && uid !in owner
    {
      var left := owner.Keys;
      uid := "u";
      while left != {}
        invariant left <= owner.Keys && |uid| >= 1
        invariant forall u :: u in owner && u !in left ==> |u| < |uid|
        decreases left
      {
        var u :| u in left;
        left := left - {u};
        if |u| >= |uid| {
          uid := u + "u";
        }
      }
    }

    /** POST of the builder's pod; a taken name is a conflict, not a fault. */
    method Post(serial: Serial, gated: bool) returns (ok: bool, uid: string)
      modifies this`pods, this`owner, this`faults, this`requests
      ensures Sh() == CreatePod(old(Sh()), serial, ok, uid)
      ensures faults == if ok then old(faults) else old(faults) + 1
      ensures uid != "" && uid !in old(owner)
      ensures requests == old(requests) + [Request(serial, gated, Level(serial))]
      ensures Posted(serial, ok, old(pods), pods)
    {
      requests := requests + [Request(serial, gated, Level(serial))];
      uid := NewUid();
      ok := *;
      if ok {
        Accept(serial, uid);
      } else {
        faults := faults + 1;
      }
    }

    /** The API server's side of the call. */
    method Accept(serial: Serial, uid: string)
      requires uid != "" && uid !in owner
      modifies this`pods, this`owner
      ensures Sh() == CreatePod(old(Sh()), serial, true, uid)
    {
      var name := PodName(serial);
      if name !in pods {
        pods := pods[name := NewPod(serial, uid)];
        owner := owner[uid := serial];
      }
    }

    // ── Pod creation ──

    /** `createPod`, called by a handler whose task is at `Create`. */
    method Build(dev: HubDevice, gated: bool, ghost s0: State, ghost t: nat, ghost rest: Rest)
      requires At(s0, t, Task(Create(dev), rest)) && RequestsOk() && (gated ==> Charged(Level(dev.serial)))
      modifies this`pods, this`owner, this`faults, this`requests
      ensures At(s0, t, Task(Idle, rest)) && RequestsOk()
      ensures requests == old(requests) + [Request(dev.serial, gated, old(Level(dev.serial)))]
      ensures faults >= old(faults)
      ensures Posted(dev.serial, faults == old(faults), old(pods), pods)
    {
      ghost var g := Busy(t, Task(Create(dev), rest));
      var ok, uid := Post(dev.serial, gated);
      Go(s0, g, t, Choice(ok, true, uid, clock, "", []), Goto(Sh(), Idle, rest), Busy(t, Task(Idle, rest)));
    }

    /** The device would need a pod, and somebody else's pod has its name. */
    predicate Refused(serial: Serial)
      reads this`pods, this`lowBattery, this`battery
    {
      Squatted(serial) && serial !in lowBattery && Charged(Level(serial))
    }

    /** The API name of the device's pod is taken by something that is not its pod. */
    predicate Squatted(serial: Serial)
      reads this`pods
    {
      PodName(serial) in pods && !HasPod(pods, serial)
    }

    method StoreDeferred(dev: HubDevice, ghost s0: State, ghost t: nat, ghost rest: Rest)
      requires At(s0, t, Task(Defer(dev), rest))
      modifies this`lowBattery
      ensures At(s0, t, Task(Idle, rest)) && lowBattery == old(lowBattery)[dev.serial := dev]
    {
      ghost var g := Busy(t, Task(Defer(dev), rest));
      lowBattery := lowBattery[dev.serial := dev];
      Go(s0, g, t, Plainly(clock), Goto(Sh(), Idle, rest), Busy(t, Task(Idle, rest)));
    }

    /** `maybeCreatePod`: defer on a low battery, request the pod otherwise. */
    method MaybeCreatePod(dev: HubDevice, ghost s0: State, ghost t: nat, ghost rest: Rest)
      requires At(s0, t, Task(Gate(dev), rest)) && RequestsOk()
      modifies this`pods, this`owner, this`faults, this`requests, this`lowBattery
      ensures At(s0, t, Task(Idle, rest)) && RequestsOk() && faults >= old(faults)
      ensures dev.serial in battery && 0 <= battery[dev.serial] <= 30 ==>
                lowBattery == old(lowBattery)[dev.serial := dev] && pods == old(pods) && requests == old(requests)
                  && faults == old(faults)
      ensures dev.serial !in battery || battery[dev.serial] < 0 || battery[dev.serial] > 30 ==>
                && lowBattery == old(lowBattery)
                && requests == old(requests) + [Request(dev.serial, true, old(Level(dev.serial)))]
                && (faults == old(faults) && PodName(dev.serial) !in old(pods) ==>
                    IsPodOf(pods, PodName(dev.serial), dev.serial))
                && (PodName(dev.serial) in old(pods) ==> pods == old(pods))
      ensures forall n :: n in pods && n !in old(pods) ==> pods[n].phase == Pending
      ensures Squatted(dev.serial) ==> old(Squatted(dev.serial))
    {
      var pct := Level(dev.serial);
      if pct >= 0 && pct <= BATTERY_MIN {
        Jump(s0, t, Task(Gate(dev), rest), Plainly(clock), Defer(dev), rest);
        StoreDeferred(dev, s0, t, rest);
      } else {
        Jump(s0, t, Task(Gate(dev), rest), Plainly(clock), Create(dev), rest);
        Build(dev, true, s0, t, rest);
      }
    }

    /** `stabilizing.LoadOrStore`: only the one who stores starts a settle goroutine. */
    method StartSettling(dev: HubDevice, ghost s0: State, ghost t: nat, ghost rest: Rest)
      requires At(s0, t, Task(Latch(dev), rest))
      modifies this`stabilizing, this`goroutines, this`clock
      ensures At(s0, t, Task(Idle, rest)) && stabilizing == old(stabilizing) + {dev.serial} && clock >= old(clock)
      ensures goroutines == if dev.serial in old(stabilizing) then old(goroutines)
                            else old(goroutines)[old(clock) := Task(Sleeping(dev), NoRest)]
    {
      var loaded := TakeToken(dev, s0, t, rest);
      if !loaded {
        Spawn(Sleeping(dev), s0, t, Task(SpawnSettle(dev), rest), rest);
      }
    }

    method TakeToken(dev: HubDevice, ghost s0: State, ghost t: nat, ghost rest: Rest) returns (loaded: bool)
      requires At(s0, t, Task(Latch(dev), rest))
      modifies this`stabilizing
      ensures loaded == (dev.serial in old(stabilizing)) && stabilizing == old(stabilizing) + {dev.serial}
      ensures At(s0, t, Task(if loaded then Idle else SpawnSettle(dev), rest))
    {
      loaded := dev.serial in stabilizing;
      if loaded {
        Jump(s0, t, Task(Latch(dev), rest), Plainly(clock), Idle, rest);
        assert stabilizing == stabilizing + {dev.serial};
      } else {
        ghost var g := Busy(t, Task(Latch(dev), rest));
        stabilizing := stabilizing + {dev.serial};
        Go(s0, g, t, Plainly(clock), Goto(Sh(), SpawnSettle(dev), rest), Busy(t, Task(SpawnSettle(dev), rest)));
      }
    }

    /** `scheduleStabilization`: true if the device is mid-reboot. A settle goroutine is then
        started exactly if none had the device's token. */
    method ScheduleStabilization(dev: HubDevice, gated: bool, ghost s0: State, ghost t: nat, ghost rest: Rest)
      returns (waits: bool)
      requires At(s0, t, Task(Schedule(dev, gated), rest))
      modifies this`stabilizing, this`goroutines, this`clock
      ensures waits == (dev.serial in rebooting)
      ensures At(s0, t, Task(if waits then Idle else if gated then Gate(dev) else Create(dev), rest))
              && clock >= old(clock)
      ensures if waits then stabilizing == old(stabilizing) + {dev.serial} else stabilizing == old(stabilizing)
      ensures waits && dev.serial !in old(stabilizing) ==>
                goroutines == old(goroutines)[old(clock) := Task(Sleeping(dev), NoRest)]
      ensures !waits || dev.serial in old(stabilizing) ==> goroutines == old(goroutines)
    {
      if dev.serial !in rebooting {
        ghost var pc := if gated then Gate(dev) else Create(dev);
        Jump(s0, t, Task(Schedule(dev, gated), rest), Plainly(clock), pc, rest);
        return false;
      }
      Jump(s0, t, Task(Schedule(dev, gated), rest), Plainly(clock), Latch(dev), rest);
      StartSettling(dev, s0, t, rest);
      waits := true;
    }

    /** A `go` statement of the task at `task`. */
    method Spawn(pc: PC, ghost s0: State, ghost t: nat, ghost task: Task, ghost rest: Rest)
      requires At(s0, t, task) && (pc.Sleeping? || pc.Rebooting? || pc.RetrySleep?)
      requires Local(cfg, Sh(), task, Plainly(clock)) == Effect(Sh(), Some(Task(Idle, rest)), Some(Task(pc, NoRest)))
      modifies this`goroutines, this`clock
      ensures At(s0, t, Task(Idle, rest))
      ensures clock == old(clock) + 1 && goroutines == old(goroutines)[old(clock) := Task(pc, NoRest)]
    {
      ghost var g := Busy(t, task);
      goroutines := goroutines[clock := Task(pc, NoRest)];
      assert Busy(t, Task(Idle, rest)).tasks
             == After(g.tasks, t, Some(Task(Idle, rest)), clock, Some(Task(pc, NoRest)));
      Go(s0, g, t, Plainly(clock), Effect(Sh(), Some(Task(Idle, rest)), Some(Task(pc, NoRest))),
         Busy(t, Task(Idle, rest)));
      clock := clock + 1;
    }

    /** The list call that precedes every creation for one device. On a failed call or a
        non-empty list the caller stops. */
    method ListOwn(dev: HubDevice, next: Then, ghost s0: State, ghost t: nat) returns (absent: bool)
      requires At(s0, t, Task(ListOne(dev, next), NoRest)) && forall n :: n in pods ==> pods[n].name == n
      modifies this`faults
      ensures faults >= old(faults)
      ensures absent ==> faults == old(faults) && !HasPod(pods, dev.serial)
      ensures !absent && faults == old(faults) ==> HasPod(pods, dev.serial)
      ensures At(s0, t, Task(if absent then Continue(dev, next) else Idle, NoRest))
    {
      var list := ListPods(Some(dev.serial));
      if list.Some? {
        EmptyListing(pods, dev.serial, list.value);
      }
      absent := list == Some([]);
      ghost var pc := if absent then Continue(dev, next) else Idle;
      Jump(s0, t, Task(ListOne(dev, next), NoRest), Choice(list.Some?, true, "", clock, "", []), pc, NoRest);
    }

    // ── Hub events ──

    /** A device that has a pod, waits for its battery, or waits to settle. */
    predicate Placed(serial: Serial)
      reads this`pods, this`lowBattery, this`stabilizing
    {
      HasPod(pods, serial) || serial in lowBattery || serial in stabilizing
    }

    /** The only way `OnDeviceReady` can leave a device without a pod, a deferral or a
        settle wait: it reaches the create call and finds the name taken. */
    predicate Blocked(serial: Serial, level: int)
      reads this`pods, this`rebooting, this`stabilizing, this`lowBattery
    {
      Squatted(serial) && serial !in rebooting && serial !in stabilizing && serial !in lowBattery && Charged(level)
    }

    /** The level `OnDeviceReady` works with. */
    function ReadyLevel(dev: HubDevice, info: Option<int>): int
      reads this`battery
    {
      if info.Some? && info.value >= 0 then info.value else Level(dev.serial)
    }

    /** With the image for the device's own platform configured, whatever the other one is, and
        without faults, the device is placed unless it is blocked; without it nothing happens
        beyond the two stores. */
    method OnDeviceReady(dev: HubDevice, info: Option<int>)
      requires Valid()
      modifies this
      ensures Valid() && Runs(old(View()), View()) && Later(old(Sh()), Sh()) && faults >= old(faults)
      ensures devices == old(devices)[dev.serial := dev]
      ensures !ImageSet(cfg, dev) ==>
                && pods == old(pods) && requests == old(requests) && lowBattery == old(lowBattery)
                && stabilizing == old(stabilizing)
      ensures ImageSet(cfg, dev) && faults == old(faults) ==>
                (Placed(dev.serial) <==> !old(Blocked(dev.serial, ReadyLevel(dev, info))))
      ensures Squatted(dev.serial) ==> old(Squatted(dev.serial))
    {
      ghost var s0, t := Start(DeviceReady(dev, info));
      assert ClusterOk(pods, owner);
      ReadySteps(dev, info, s0, t);
      Finish(s0, t, NoRest);
    }

    method ReadySteps(dev: HubDevice, info: Option<int>, ghost s0: State, ghost t: nat)
      requires At(s0, t, Task(ReadyInfo(dev, info), NoRest)) && RequestsOk() && ClusterOk(pods, owner)
      modifies this
      ensures At(s0, t, Task(Idle, NoRest)) && RequestsOk() && faults >= old(faults)
      ensures devices == old(devices)[dev.serial := dev]
      ensures !ImageSet(cfg, dev) ==>
                && pods == old(pods) && requests == old(requests) && lowBattery == old(lowBattery)
                && stabilizing == old(stabilizing)
      ensures ImageSet(cfg, dev) && faults == old(faults) ==>
                (Placed(dev.serial) <==> !old(Blocked(dev.serial, ReadyLevel(dev, info))))
      ensures Squatted(dev.serial) ==> old(Squatted(dev.serial))
    {
      ImageByPlatform(cfg, dev);
      NoteReady(dev, info, s0, t);
      if HasImage(cfg, dev) {
        PlaceReady(dev, s0, t);
      }
    }

    /** An unknown level is stored only where there was none. */
    method StoreUnknown(dev: HubDevice, ghost s0: State, ghost t: nat)
      requires At(s0, t, Task(ReadyUnknown(dev), NoRest))
      modifies this`battery
      ensures At(s0, t, Task(ReadyDevice(dev), NoRest)) && battery == old(battery)[dev.serial := -1]
    {
      SetLevel(dev.serial, -1, ReadyUnknown(dev), ReadyDevice(dev), s0, t);
    }

    /** `battery.Store`, wherever a handler does it. */
    method SetLevel(serial: Serial, level: int, ghost from: PC, ghost to: PC, ghost s0: State, ghost t: nat)
      requires At(s0, t, Task(from, NoRest))
      requires Local(cfg, Sh(), Task(from, NoRest), Plainly(clock))
            == Goto(Sh().(battery := battery[serial := level]), to, NoRest)
      modifies this`battery
      ensures At(s0, t, Task(to, NoRest)) && battery == old(battery)[serial := level]
    {
      ghost var g := Busy(t, Task(from, NoRest));
      battery := battery[serial := level];
      Go(s0, g, t, Plainly(clock), Goto(Sh(), to, NoRest), Busy(t, Task(to, NoRest)));
    }

    /** The battery payload of `OnDeviceReady`. An unknown level never overwrites a
        known one. */
    method StoreInfo(dev: HubDevice, info: Option<int>, ghost s0: State, ghost t: nat)
      requires At(s0, t, Task(ReadyInfo(dev, info), NoRest))
      modifies this`battery
      ensures At(s0, t, Task(ReadyDevice(dev), NoRest))
      ensures Level(dev.serial) == old(ReadyLevel(dev, info))
      ensures info.Some? && info.value >= 0 ==> battery == old(battery)[dev.serial := info.value]
      ensures info.Some? && info.value < 0 && dev.serial !in old(battery) ==> battery == old(battery)[dev.serial := -1]
      ensures info.None? || (info.value < 0 && dev.serial in old(battery)) ==> battery == old(battery)
    {
      if info.Some? && info.value < 0 && dev.serial !in battery {
        Jump(s0, t, Task(ReadyInfo(dev, info), NoRest), Plainly(clock), ReadyUnknown(dev), NoRest);
        StoreUnknown(dev, s0, t);
      } else if info.Some? && info.value >= 0 {
        SetLevel(dev.serial, info.value, ReadyInfo(dev, info), ReadyDevice(dev), s0, t);
      } else {
        Jump(s0, t, Task(ReadyInfo(dev, info), NoRest), Plainly(clock), ReadyDevice(dev), NoRest);
      }
    }

    /** The two stores at the start of the ready handler. */
    method NoteReady(dev: HubDevice, info: Option<int>, ghost s0: State, ghost t: nat)
      requires At(s0, t, Task(ReadyInfo(dev, info), NoRest))
      modifies this`battery, this`devices
      ensures At(s0, t, Task(if HasImage(cfg, dev) then ListOne(dev, ThenSchedule) else Idle, NoRest))
      ensures devices == old(devices)[dev.serial := dev]
      ensures Level(dev.serial) == old(ReadyLevel(dev, info))
    {
      StoreInfo(dev, info, s0, t);
      StoreDevice(dev, s0, t);
    }

    method StoreDevice(dev: HubDevice, ghost s0: State, ghost t: nat)
      requires At(s0, t, Task(ReadyDevice(dev), NoRest))
      modifies this`devices
      ensures At(s0, t, Task(if HasImage(cfg, dev) then ListOne(dev, ThenSchedule) else Idle, NoRest))
      ensures devices == old(devices)[dev.serial := dev]
    {
      ghost var pc := if HasImage(cfg, dev) then ListOne(dev, ThenSchedule) else Idle;
      PutDevice(dev, ReadyDevice(dev), pc, s0, t);
    }

    method PutDevice(dev: HubDevice, ghost from: PC, ghost to: PC, ghost s0: State, ghost t: nat)
      requires At(s0, t, Task(from, NoRest))
      requires Local(cfg, Sh(), Task(from, NoRest), Plainly(clock))
            == Goto(Sh().(devices := devices[dev.serial := dev]), to, NoRest)
      modifies this`devices
      ensures At(s0, t, Task(to, NoRest)) && devices == old(devices)[dev.serial := dev]
    {
      ghost var g := Busy(t, Task(from, NoRest));
      devices := devices[dev.serial := dev];
      Go(s0, g, t, Plainly(clock), Goto(Sh(), to, NoRest), Busy(t, Task(to, NoRest)));
    }

    /** The rest of `OnDeviceReady`: list, settle or create. */
    method PlaceReady(dev: HubDevice, ghost s0: State, ghost t: nat)
      requires At(s0, t, Task(ListOne(dev, ThenSchedule), NoRest)) && RequestsOk() && ClusterOk(pods, owner)
      modifies this`pods, this`owner, this`faults, this`requests, this`lowBattery, this`stabilizing, this`goroutines,
               this`clock
      ensures At(s0, t, Task(Idle, NoRest)) && RequestsOk() && faults >= old(faults)
      ensures faults == old(faults) ==> (Placed(dev.serial) <==> !old(Blocked(dev.serial, Level(dev.serial))))
      ensures Squatted(dev.serial) ==> old(Squatted(dev.serial))
    {
      var absent := ListOwn(dev, ThenSchedule, s0, t);
      if absent {
        var waits := ScheduleStabilization(dev, true, s0, t, NoRest);
        if waits {
          assert Placed(dev.serial);
        } else {
          MaybeCreatePod(dev, s0, t, NoRest);
        }
      }
    }

    method OnDeviceOffline(serial: Serial)
      requires Valid()
      modifies this`devices, this`lowBattery, this`clock
      ensures Valid() && Runs(old(View()), View())
      ensures devices == old(devices) - {serial} && lowBattery == old(lowBattery) - {serial}
    {
      ghost var s0, t := Start(DeviceOffline(serial));
      ForgetOffline(serial, s0, t);
      Finish(s0, t, NoRest);
    }

    /** `devices.Delete`, in either of the two handlers that start with it. */
    method DropDevice(serial: Serial, ghost from: PC, ghost to: PC, ghost s0: State, ghost t: nat)
      requires At(s0, t, Task(from, NoRest))
      requires Local(cfg, Sh(), Task(from, NoRest), Plainly(clock))
               == Goto(Sh().(devices := devices - {serial}), to, NoRest)
      modifies this`devices
      ensures At(s0, t, Task(to, NoRest)) && devices == old(devices) - {serial}
    {
      ghost var g := Busy(t, Task(from, NoRest));
      devices := devices - {serial};
      Go(s0, g, t, Plainly(clock), Goto(Sh(), to, NoRest), Busy(t, Task(to, NoRest)));
    }

    method ForgetOffline(serial: Serial, ghost s0: State, ghost t: nat)
      requires At(s0, t, Task(OfflineDevice(serial), NoRest))
      modifies this`devices, this`lowBattery
      ensures At(s0, t, Task(Idle, NoRest))
      ensures devices == old(devices) - {serial} && lowBattery == old(lowBattery) - {serial}
    {
      DropDevice(serial, OfflineDevice(serial), OfflineBattery(serial), s0, t);
      DropDeferred(serial, s0, t);
    }

    method DropDeferred(serial: Serial, ghost s0: State, ghost t: nat)
      requires At(s0, t, Task(OfflineBattery(serial), NoRest))
      modifies this`lowBattery
      ensures At(s0, t, Task(Idle, NoRest)) && lowBattery == old(lowBattery) - {serial}
    {
      DropLow(serial, OfflineBattery(serial), Idle, s0, t);
    }

    /** `lowBattery.Delete`, wherever a handler does it. */
    method DropLow(serial: Serial, ghost from: PC, ghost to: PC, ghost s0: State, ghost t: nat)
      requires At(s0, t, Task(from, NoRest))
      requires Local(cfg, Sh(), Task(from, NoRest), Plainly(clock))
            == Goto(Sh().(lowBattery := lowBattery - {serial}), to, NoRest)
      modifies this`lowBattery
      ensures At(s0, t, Task(to, NoRest)) && lowBattery == old(lowBattery) - {serial}
    {
      ghost var g := Busy(t, Task(from, NoRest));
      lowBattery := lowBattery - {serial};
      Go(s0, g, t, Plainly(clock), Goto(Sh(), to, NoRest), Busy(t, Task(to, NoRest)));
    }

    /** Removes the pods of a deleted device, one delete call per listed pod. */
    method OnDeviceDeleted(serial: Serial)
      requires Valid()
      modifies this`devices, this`pods, this`faults, this`clock
      ensures Valid() && Runs(old(View()), View())
      ensures devices == old(devices) - {serial} && faults >= old(faults)
      ensures faults == old(faults) ==> pods == map n | n in old(pods) && !IsPodOf(old(pods), n, serial) :: old(pods)[n]
    {
      ghost var s0, t := Start(DeviceDeleted(serial));
      assert ClusterOk(pods, owner);
      var list := ListDeleted(serial, s0, t);
      if list.Some? {
        DeleteListed(list.value, serial, s0, t);
      }
      Finish(s0, t, if list.Some? then DeleteRest([]) else NoRest);
    }

    method ListDeleted(serial: Serial, ghost s0: State, ghost t: nat) returns (list: Option<seq<Pod>>)
      requires At(s0, t, Task(ForgetDevice(serial), NoRest)) && forall n :: n in pods ==> pods[n].name == n
      modifies this`devices, this`faults
      ensures devices == old(devices) - {serial}
      ensures list.Some? ==> IsListing(pods, Some(serial), list.value) && faults == old(faults)
      ensures list.None? ==> faults > old(faults)
      ensures At(s0, t, Task(Idle, if list.Some? then DeleteRest(Names(list.value)) else NoRest))
    {
      DropDevice(serial, ForgetDevice(serial), ListDelete(serial), s0, t);
      list := ListToDelete(serial, s0, t);
    }

    method ListToDelete(serial: Serial, ghost s0: State, ghost t: nat) returns (list: Option<seq<Pod>>)
      requires At(s0, t, Task(ListDelete(serial), NoRest)) && forall n :: n in pods ==> pods[n].name == n
      modifies this`faults
      ensures list.Some? ==> IsListing(pods, Some(serial), list.value) && faults == old(faults)
      ensures list.None? ==> faults > old(faults)
      ensures At(s0, t, Task(Idle, if list.Some? then DeleteRest(Names(list.value)) else NoRest))
    {
      list := ListPods(Some(serial));
      ghost var c := Choice(list.Some?, true, "", clock, "", if list.Some? then list.value else []);
      ghost var rest := if list.Some? then DeleteRest(Names(list.value)) else NoRest;
      Jump(s0, t, Task(ListDelete(serial), NoRest), c, Idle, rest);
    }

    method DeleteListed(list: seq<Pod>, ghost serial: Serial, ghost s0: State, ghost t: nat)
      requires At(s0, t, Task(Idle, DeleteRest(Names(list))))
      requires IsListing(pods, Some(serial), list) && forall n :: n in pods ==> pods[n].name == n
      modifies this`pods, this`faults
      ensures At(s0, t, Task(Idle, DeleteRest([]))) && faults >= old(faults)
      ensures faults == old(faults) ==> pods == map n | n in old(pods) && !IsPodOf(old(pods), n, serial) :: old(pods)[n]
    {
      ghost var names := Names(list);
      ListingNames(pods, serial, list);
      var i := 0;
      while i < |list|
        invariant i <= |list| && At(s0, t, Task(Idle, DeleteRest(names[i..]))) && faults >= old(faults)
        invariant faults == old(faults) ==> pods == Without(old(pods), names[..i])
      {
        ghost var pods1 := pods;
        DeleteNext(list[i].name, names[i..], s0, t);
        assert names[i..][1..] == names[i + 1..];
        if faults == old(faults) { WithoutStep(old(pods), pods1, pods, names, i); }
        i := i + 1;
      }
      assert names[..i] == names && names[i..] == [];
    }

    method DeleteNext(name: string, ghost names: seq<string>, ghost s0: State, ghost t: nat)
      requires names != [] && names[0] == name && At(s0, t, Task(Idle, DeleteRest(names)))
      modifies this`pods, this`faults
      ensures At(s0, t, Task(Idle, DeleteRest(names[1..]))) && faults >= old(faults)
      ensures faults == old(faults) ==> pods == old(pods) - {name}
    {
      ghost var g := Busy(t, Task(Idle, DeleteRest(names)));
      var ok := DeleteByName(name);
      Go(s0, g, t, Choice(ok, true, "", clock, "", []), Goto(Sh(), Idle, DeleteRest(names[1..])),
         Busy(t, Task(Idle, DeleteRest(names[1..]))));
    }

    method RecordLevel(serial: Serial, level: int, ghost s0: State, ghost t: nat)
      requires At(s0, t, Task(StoreLevel(serial, level), NoRest))
      modifies this`battery
      ensures At(s0, t, Task(LoadDeferred(serial, level), NoRest)) && battery == old(battery)[serial := level]
    {
      SetLevel(serial, level, StoreLevel(serial, level), LoadDeferred(serial, level), s0, t);
    }

    /** Pause below the threshold, resume at the higher one. */
    method OnBatteryUpdated(serial: Serial, level: int)
      requires Valid()
      modifies this
      ensures Valid() && Runs(old(View()), View())
      ensures Level(serial) == level && faults >= old(faults)
      ensures serial !in old(lowBattery) || level < 35 ==>
                pods == old(pods) && lowBattery == old(lowBattery) && requests == old(requests) && faults == old(faults)
      ensures serial in old(lowBattery) && level >= 35 ==>
                && lowBattery == old(lowBattery) - {serial}
                && (requests == old(requests) || requests == old(requests) + [Request(serial, true, level)])
                && (faults == old(faults) ==>
                      && (requests == old(requests) <==> old(HasPod(pods, serial)))
                      && (HasPod(pods, serial) <==> !old(Squatted(serial))))
    {
      ghost var s0, t := Start(BatteryUpdated(serial, level));
      assert ClusterOk(pods, owner) && Keyed(lowBattery);
      RecordLevel(serial, level, s0, t);
      Resume(serial, level, s0, t);
      Finish(s0, t, NoRest);
    }

    /** The deferred device is taken out of `lowBattery`. */
    method TakeDeferred(serial: Serial, level: int, ghost s0: State, ghost t: nat) returns (dev: HubDevice)
      requires At(s0, t, Task(LoadDeferred(serial, level), NoRest)) && serial in lowBattery && level >= BATTERY_RESUME
      modifies this`lowBattery
      ensures At(s0, t, Task(ListOne(dev, ThenCreate), NoRest))
      ensures dev == old(lowBattery)[serial] && lowBattery == old(lowBattery) - {serial}
    {
      dev := lowBattery[serial];
      Jump(s0, t, Task(LoadDeferred(serial, level), NoRest), Plainly(clock), ClearDeferred(serial, dev), NoRest);
      ClearTaken(serial, dev, s0, t);
    }

    method ClearTaken(serial: Serial, dev: HubDevice, ghost s0: State, ghost t: nat)
      requires At(s0, t, Task(ClearDeferred(serial, dev), NoRest))
      modifies this`lowBattery
      ensures At(s0, t, Task(ListOne(dev, ThenCreate), NoRest)) && lowBattery == old(lowBattery) - {serial}
    {
      DropLow(serial, ClearDeferred(serial, dev), ListOne(dev, ThenCreate), s0, t);
    }

    /** `OnBatteryUpdated` after the level is stored. */
    method Resume(serial: Serial, level: int, ghost s0: State, ghost t: nat)
      requires At(s0, t, Task(LoadDeferred(serial, level), NoRest)) && RequestsOk() && Level(serial) == level
      requires ClusterOk(pods, owner) && Keyed(lowBattery)
      modifies this`pods, this`owner, this`lowBattery, this`faults, this`requests
      ensures At(s0, t, Task(Idle, NoRest)) && RequestsOk() && faults >= old(faults)
      ensures serial !in old(lowBattery) || level < 35 ==>
                pods == old(pods) && lowBattery == old(lowBattery) && requests == old(requests) && faults == old(faults)
      ensures serial in old(lowBattery) && level >= 35 ==>
                && lowBattery == old(lowBattery) - {serial}
                && (requests == old(requests) || requests == old(requests) + [Request(serial, true, level)])
                && (faults == old(faults) ==>
                      && (requests == old(requests) <==> old(HasPod(pods, serial)))
                      && (HasPod(pods, serial) <==> !old(Squatted(serial))))
    {
      if serial !in lowBattery || level < BATTERY_RESUME {
        Jump(s0, t, Task(LoadDeferred(serial, level), NoRest), Plainly(clock), Idle, NoRest);
        return;
      }
      var dev := TakeDeferred(serial, level, s0, t);
      Renew(dev, s0, t);
    }

    /** Lists, and creates a pod if there is none: no settle wait, no battery gate. */
    method Renew(dev: HubDevice, ghost s0: State, ghost t: nat)
      requires At(s0, t, Task(ListOne(dev, ThenCreate), NoRest)) && RequestsOk() && ClusterOk(pods, owner)
      requires Level(dev.serial) >= BATTERY_RESUME
      modifies this`pods, this`owner, this`faults, this`requests
      ensures At(s0, t, Task(Idle, NoRest)) && RequestsOk() && faults >= old(faults)
      ensures requests == old(requests) || requests == old(requests) + [Request(dev.serial, true, Level(dev.serial))]
      ensures faults == old(faults) ==>
                && (requests == old(requests) <==> old(HasPod(pods, dev.serial)))
                && (HasPod(pods, dev.serial) <==> !old(Squatted(dev.serial)))
    {
      var absent := ListOwn(dev, ThenCreate, s0, t);
      if absent {
        Build(dev, true, s0, t, NoRest);
      }
    }

    // ── Collecting results ──

    /** The loop of `testsContainerDone`. */
    static method TestsDone(statuses: seq<ContainerStatus>) returns (done: bool)
      ensures done == TestsContainerDone(statuses)
    {
      var i := 0;
      while i < |statuses|
        invariant i <= |statuses|
        invariant TestsContainerDone(statuses) == TestsContainerDone(statuses[i..])
      {
        if statuses[i].name == "tests" {
          return statuses[i].terminated;
        }
        i := i + 1;
      }
      done := false;
    }

    static method IsFinished(p: Pod) returns (done: bool)
      ensures done == Finished(p)
    {
      match p.phase {
        case Succeeded => done := true;
        case Failed => done := true;
        case Running => done := TestsDone(p.statuses);
        case _ => done := false;
      }
    }

    /** `reported.LoadOrStore`, the next step of a loop that has reached pod `p`. */
    method LoadOrStore(p: Pod, ghost s0: State, ghost t: nat, ghost task: Task, ghost c: Choice, ghost rest: Rest)
      returns (done: bool)
      requires At(s0, t, task) && c.id == clock && Local(cfg, Sh(), task, c) == Claim(Sh(), p, rest)
      modifies this`reported
      ensures done == (PodKey(p) in old(reported)) && reported == old(reported) + {PodKey(p)}
      ensures At(s0, t, Task(if done then Stale(p) else Claimed(p), rest))
    {
      done := PodKey(p) in reported;
      if done {
        Jump(s0, t, task, c, Stale(p), rest);
        assert reported == reported + {PodKey(p)};
      } else {
        ghost var g := Busy(t, task);
        reported := reported + {PodKey(p)};
        Go(s0, g, t, c, Goto(Sh(), Claimed(p), rest), Busy(t, Task(Claimed(p), rest)));
      }
    }

    method DeleteStale(p: Pod, ghost s0: State, ghost t: nat, ghost rest: Rest)
      requires At(s0, t, Task(Stale(p), rest))
      modifies this`pods, this`faults
      ensures At(s0, t, Task(Idle, rest)) && faults >= old(faults)
      ensures faults == old(faults) ==> pods == old(pods) - {p.name}
    {
      ghost var g := Busy(t, Task(Stale(p), rest));
      var ok := DeleteByName(p.name);
      Go(s0, g, t, Choice(ok, true, "", clock, "", []), Goto(Sh(), Idle, rest), Busy(t, Task(Idle, rest)));
    }

    method DeleteClaimed(p: Pod, ghost s0: State, ghost t: nat, ghost rest: Rest)
      requires At(s0, t, Task(Claimed(p), rest))
      modifies this`pods, this`faults
      ensures At(s0, t, Task(Deleted(p), rest)) && faults >= old(faults)
      ensures faults == old(faults) ==> pods == old(pods) - {p.name}
    {
      ghost var g := Busy(t, Task(Claimed(p), rest));
      var ok := DeleteByName(p.name);
      Go(s0, g, t, Choice(ok, true, "", clock, "", []), Goto(Sh(), Deleted(p), rest), Busy(t, Task(Deleted(p), rest)));
    }

    /** `saveTestResult`: identifier 0 when the insert fails. */
    method SaveTestResult(p: Pod, ghost s0: State, ghost t: nat, ghost rest: Rest) returns (rid: nat)
      requires At(s0, t, Task(Deleted(p), rest))
      modifies this`rows, this`lost, this`faults
      ensures At(s0, t, Task(Saved(p.device, rid), rest)) && faults >= old(faults)
      ensures faults == old(faults) ==> rows == Insert(old(rows), PodKey(p), p.device) && rid == |rows|
      ensures faults == old(faults) ==> RowAdded(old(rows), rows, if p.uid != "" then p.uid else p.name, p.device)
      ensures faults != old(faults) ==> rows == old(rows) && rid == 0
    {
      ghost var g := Busy(t, Task(Deleted(p), rest));
      var ok := *;
      if ok {
        rows := Insert(rows, PodKey(p), p.device);
        rid := |rows|;
      } else {
        lost := lost + {PodKey(p)};
        faults := faults + 1;
        rid := 0;
      }
      Go(s0, g, t, Choice(true, ok, "", clock, "", []), Goto(Sh(), Saved(p.device, rid), rest),
         Busy(t, Task(Saved(p.device, rid), rest)));
    }

    method StartReboot(serial: Serial, rid: nat, ghost s0: State, ghost t: nat, ghost rest: Rest)
      requires At(s0, t, Task(Saved(serial, rid), rest))
      modifies this`rebooting, this`goroutines, this`clock
      ensures At(s0, t, Task(Idle, rest))
      ensures rebooting == old(rebooting) + {serial}
      ensures goroutines == old(goroutines)[old(clock) := Task(Rebooting(serial, rid), NoRest)]
    {
      ghost var g := Busy(t, Task(Saved(serial, rid), rest));
      rebooting := rebooting + {serial};
      Go(s0, g, t, Plainly(clock), Goto(Sh(), Marked(serial, rid), rest), Busy(t, Task(Marked(serial, rid), rest)));
      Spawn(Rebooting(serial, rid), s0, t, Task(Marked(serial, rid), rest), rest);
    }

    /** What both `CheckPods` and `Reconcile` do with a finished pod. */
    method Collect(p: Pod, ghost s0: State, ghost t: nat, ghost task: Task, ghost c: Choice, ghost rest: Rest)
      requires At(s0, t, task) && c.id == clock && Local(cfg, Sh(), task, c) == Claim(Sh(), p, rest)
      modifies this`reported, this`pods, this`rows, this`lost, this`faults, this`rebooting, this`goroutines, this`clock
      ensures At(s0, t, Task(Idle, rest)) && faults >= old(faults)
      ensures reported == old(reported) + {PodKey(p)}
      ensures faults == old(faults) ==> pods == old(pods) - {p.name} && KeyCollected(p, old(Tally()), Tally())
    {
      var done := LoadOrStore(p, s0, t, task, c, rest);
      if done {
        DeleteStale(p, s0, t, rest);
      } else {
        CollectNew(p, s0, t, rest);
      }
    }

    /** The pod's key was new: delete, insert, flag and start the reboot. */
    method CollectNew(p: Pod, ghost s0: State, ghost t: nat, ghost rest: Rest)
      requires At(s0, t, Task(Claimed(p), rest))
      modifies this`pods, this`rows, this`lost, this`faults, this`rebooting, this`goroutines, this`clock
      ensures At(s0, t, Task(Idle, rest)) && faults >= old(faults)
      ensures faults == old(faults) ==>
                && pods == old(pods) - {p.name} && rows == Insert(old(rows), PodKey(p), p.device)
                && rebooting == old(rebooting) + {p.device}
                && Spawned(old(goroutines), goroutines, Task(Rebooting(p.device, |rows|), NoRest))
    {
      ghost var id, before := clock, goroutines;
      assert id !in before;
      DeleteClaimed(p, s0, t, rest);
      var rid := SaveTestResult(p, s0, t, rest);
      StartReboot(p.device, rid, s0, t, rest);
      assert goroutines == before[id := Task(Rebooting(p.device, rid), NoRest)];
    }

    /** One iteration of `CheckPods`. */
    method CheckOne(p: Pod, ghost todo: seq<Pod>, ghost s0: State, ghost t: nat)
      requires todo != [] && todo[0] == p && p.managed && At(s0, t, Task(Idle, CheckRest(todo)))
      modifies this`reported, this`pods, this`rows, this`lost, this`faults, this`rebooting, this`goroutines, this`clock
      ensures At(s0, t, Task(Idle, CheckRest(todo[1..]))) && faults >= old(faults)
      ensures faults == old(faults) ==> Checked(p, old(pods), pods, old(Tally()), Tally())
    {
      var finished := IsFinished(p);
      if p.device != "" && finished {
        Collect(p, s0, t, Task(Idle, CheckRest(todo)), Plainly(clock), CheckRest(todo[1..]));
      } else {
        Jump(s0, t, Task(Idle, CheckRest(todo)), Plainly(clock), Idle, CheckRest(todo[1..]));
      }
    }

    method ListAll(ghost s0: State, ghost t: nat) returns (list: Option<seq<Pod>>)
      requires At(s0, t, Task(ListCheck, NoRest)) && forall n :: n in pods ==> pods[n].name == n
      modifies this`faults
      ensures list.Some? ==> IsListing(pods, None, list.value) && faults == old(faults)
      ensures list.None? ==> faults > old(faults)
      ensures At(s0, t, Task(Idle, if list.Some? then CheckRest(list.value) else NoRest))
    {
      list := ListPods(None);
      ghost var c := Choice(list.Some?, true, "", clock, "", if list.Some? then list.value else []);
      ghost var rest := if list.Some? then CheckRest(list.value) else NoRest;
      Jump(s0, t, Task(ListCheck, NoRest), c, Idle, rest);
    }

    /** The loop of `CheckPods` over the listed pods. */
    method CheckListed(list: seq<Pod>, ghost s0: State, ghost t: nat)
      requires At(s0, t, Task(Idle, CheckRest(list))) && forall i :: 0 <= i < |list| ==> list[i].managed
      modifies this`reported, this`pods, this`rows, this`lost, this`faults, this`rebooting, this`goroutines, this`clock
      ensures At(s0, t, Task(Idle, CheckRest([]))) && faults >= old(faults)
      ensures faults == old(faults) ==>
                pods == old(pods) - DueNames(list) && Collected(DueKeys(list), old(Tally()), Tally(), false)
    {
      var i := 0;
      assert list[0..] == list;
      CollectedNone(Tally(), false);
      while i < |list|
        invariant i <= |list| && At(s0, t, Task(Idle, CheckRest(list[i..]))) && faults >= old(faults)
        invariant faults == old(faults) ==>
                    pods == old(pods) - DueNames(list[..i])
                      && Collected(DueKeys(list[..i]), old(Tally()), Tally(), false)
      {
        ghost var pods0, tally0 := pods, Tally();
        CheckOne(list[i], list[i..], s0, t);
        if faults == old(faults) {
          CheckedStep(list, i, old(pods), pods0, pods, old(Tally()), tally0, Tally());
        }
        assert list[i..][1..] == list[i + 1..];
        i := i + 1;
      }
      assert list[i..] == [] && list[..i] == list;
    }

    /** A pass with no failed call and nothing interfering: exactly the due pods go, every
        other pod stays as it is, and each due pod not seen before adds its key's row, flags
        its device and starts the reboot goroutine for that row. */
    method CheckPods()
      requires Valid()
      modifies this`reported, this`pods, this`rows, this`lost, this`faults, this`rebooting, this`goroutines, this`clock
      ensures Valid() && Runs(old(View()), View()) && Later(old(Sh()), Sh()) && faults >= old(faults)
      ensures faults == old(faults) ==>
                && pods == (map n | n in old(pods) && !Due(old(pods)[n]) :: old(pods)[n])
                && Collected(DuePodKeys(old(pods)), old(Tally()), Tally(), false)
                && Swept(old(pods), pods, old(reported), reported, old(rows), rows)
    {
      ghost var s0, t := Start(K8sState.CheckPods);
      ghost var pods0, owner0, a := pods, owner, Tally();
      assert ClusterOk(pods, owner);
      var list := ListAll(s0, t);
      if list.Some? {
        DueListing(pods, list.value);
        CheckListed(list.value, s0, t);
      }
      Finish(s0, t, if list.Some? then CheckRest([]) else NoRest);
      if faults == old(faults) { CheckSweeps(pods0, owner0, pods, a, Tally()); }
    }

    // ── Reconcile ──

    static method IndexPods(list: seq<Pod>) returns (m: map<Serial, Pod>)
      ensures m == BySerial(list) && forall s :: s in m <==> LabelledIn(list, s)
      ensures forall s, i :: LastLabelled(list, i, s) ==> s in m && m[s] == list[i]
    {
      m := map[];
      var i := 0;
      while i < |list|
        invariant i <= |list| && m == BySerial(list[..i])
      {
        assert list[..i + 1][..i] == list[..i];
        if list[i].device != "" {
          m := m[list[i].device := list[i]];
        }
        i := i + 1;
      }
      assert list[..i] == list;
      forall s ensures s in m <==> LabelledIn(list, s)
               ensures forall k :: LastLabelled(list, k, s) ==> s in m && m[s] == list[k] {
        IndexedByLabel(list, s);
      }
    }

    static method IndexReady(devs: seq<HubDevice>) returns (m: map<Serial, HubDevice>)
      ensures m == ReadyMap(devs) && forall s :: s in m <==> ReadyNow(devs, s)
      ensures forall s, i :: LastReady(devs, i, s) ==> s in m && m[s] == devs[i]
    {
      m := map[];
      var i := 0;
      while i < |devs|
        invariant i <= |devs| && m == ReadyMap(devs[..i])
      {
        assert devs[..i + 1][..i] == devs[..i];
        if IsReady(devs[i]) {
          m := m[devs[i].serial := devs[i]];
        }
        i := i + 1;
      }
      assert devs[..i] == devs;
      forall s ensures s in m <==> ReadyNow(devs, s)
               ensures forall k :: LastReady(devs, k, s) ==> s in m && m[s] == devs[k] {
        ReadyByIndex(devs, s);
      }
    }

    /** Lists, indexes and hands back both maps of a Reconcile pass. */
    method Gather(devs: seq<HubDevice>, ghost s0: State, ghost t: nat)
      returns (ok: bool, ready: map<Serial, HubDevice>, bySerial: map<Serial, Pod>)
      requires At(s0, t, Task(ListRecon(devs), NoRest)) && ClusterOk(pods, owner)
      modifies this`faults
      ensures ok == (faults == old(faults)) && faults >= old(faults)
      ensures ready == ReadyMap(devs)
      ensures ok ==>
                At(s0, t, Task(Idle, ReconRest(bySerial.Keys - ready.Keys, ready, bySerial))) && Indexes(bySerial, pods)
      ensures !ok ==> At(s0, t, Task(Idle, NoRest))
    {
      var list := ListForReconcile(devs, s0, t);
      ready := IndexReady(devs);
      ok := list.Some?;
      bySerial := map[];
      if ok {
        bySerial := IndexPods(list.value);
        ListingIndex(pods, owner, list.value);
      }
    }

    method ListForReconcile(devs: seq<HubDevice>, ghost s0: State, ghost t: nat) returns (list: Option<seq<Pod>>)
      requires At(s0, t, Task(ListRecon(devs), NoRest)) && forall n :: n in pods ==> pods[n].name == n
      modifies this`faults
      ensures list.Some? ==> IsListing(pods, None, list.value) && faults == old(faults)
      ensures list.None? ==> faults > old(faults)
      ensures At(s0, t, Task(Idle, if list.Some? then ReconStart(devs, list.value) else NoRest))
    {
      list := ListPods(None);
      ghost var rest := if list.Some? then ReconStart(devs, list.value) else NoRest;
      ghost var c := Choice(list.Some?, true, "", clock, "", if list.Some? then list.value else []);
      Jump(s0, t, Task(ListRecon(devs), NoRest), c, Idle, rest);
    }

    /** The removal loop, over the disconnected devices in any order. */
    method RemoveGone(ready: map<Serial, HubDevice>, bySerial: map<Serial, Pod>, ghost s0: State, ghost t: nat)
      requires At(s0, t, Task(Idle, ReconRest(bySerial.Keys - ready.Keys, ready, bySerial)))
      modifies this`pods, this`faults
      ensures At(s0, t, Task(Idle, ReconRest({}, ready, bySerial))) && faults >= old(faults)
      ensures faults == old(faults) ==> pods == old(pods) - PodNames(bySerial, bySerial.Keys - ready.Keys)
    {
      var gone := bySerial.Keys - ready.Keys;
      ghost var done: set<Serial> := {};
      while gone != {}
        invariant gone + done == bySerial.Keys - ready.Keys
        invariant At(s0, t, Task(Idle, ReconRest(gone, ready, bySerial))) && faults >= old(faults)
        invariant faults == old(faults) ==> pods == old(pods) - PodNames(bySerial, done)
        decreases gone
      {
        var serial :| serial in gone;
        RemoveOne(serial, gone, ready, bySerial, s0, t);
        PodNamesPlus(bySerial, done, serial);
        gone, done := gone - {serial}, done + {serial};
      }
      assert done == bySerial.Keys - ready.Keys;
    }

    method RemoveOne(serial: Serial, ghost gone: set<Serial>, ghost ready: map<Serial, HubDevice>,
                     bySerial: map<Serial, Pod>, ghost s0: State, ghost t: nat)
      requires serial in gone && serial in bySerial && At(s0, t, Task(Idle, ReconRest(gone, ready, bySerial)))
      modifies this`pods, this`faults
      ensures At(s0, t, Task(Idle, ReconRest(gone - {serial}, ready, bySerial))) && faults >= old(faults)
      ensures faults == old(faults) ==> pods == old(pods) - {bySerial[serial].name}
    {
      ghost var g := Busy(t, Task(Idle, ReconRest(gone, ready, bySerial)));
      var ok := DeleteByName(bySerial[serial].name);
      ghost var rest := ReconRest(gone - {serial}, ready, bySerial);
      Go(s0, g, t, Choice(ok, true, "", clock, serial, []), Goto(Sh(), Idle, rest), Busy(t, Task(Idle, rest)));
    }

    /** What Reconcile does with one ready device. Creation here skips the battery gate. */
    method ReconcileOne(serial: Serial, ready: map<Serial, HubDevice>, bySerial: map<Serial, Pod>, ghost s0: State,
                        ghost t: nat)
      returns (ghost asked: seq<Request>)
      requires serial in ready && ready[serial].serial == serial && RequestsOk()
      requires At(s0, t, Task(Idle, ReconRest({}, ready, bySerial)))
      modifies this`pods, this`owner, this`reported, this`rows, this`lost, this`faults, this`requests, this`rebooting,
               this`stabilizing, this`goroutines, this`clock
      ensures At(s0, t, Task(Idle, ReconRest({}, ready - {serial}, bySerial))) && RequestsOk() && faults >= old(faults)
      ensures old(stabilizing) <= stabilizing && requests == old(requests) + asked
      ensures faults == old(faults) ==>
                && PodsMoved(cfg, ready[serial], bySerial, old(pods), pods, stabilizing)
                && BooksMoved(cfg, ready[serial], bySerial, battery, old(Tally()), Tally(), asked)
    {
      ghost var rest := ReconRest({}, ready - {serial}, bySerial);
      ghost var c := Choice(true, true, "", clock, serial, []);
      var dev := ready[serial];
      if HasImage(cfg, dev) && serial !in bySerial {
        Jump(s0, t, Task(Idle, ReconRest({}, ready, bySerial)), c, Schedule(dev, false), rest);
        asked := CreateUngated(dev, s0, t, rest);
      } else {
        asked := [];
        assert requests + asked == requests;
        ReconcilePresent(serial, ready, bySerial, s0, t);
      }
    }

    /** A ready device that has a pod, which is collected if its tests are done; or one whose
        test image is not configured. */
    method ReconcilePresent(serial: Serial, ready: map<Serial, HubDevice>, bySerial: map<Serial, Pod>, ghost s0: State,
                            ghost t: nat)
      requires serial in ready && ready[serial].serial == serial
               && (HasImage(cfg, ready[serial]) ==> serial in bySerial)
      requires At(s0, t, Task(Idle, ReconRest({}, ready, bySerial)))
      modifies this`reported, this`pods, this`rows, this`lost, this`faults, this`rebooting, this`goroutines, this`clock
      ensures At(s0, t, Task(Idle, ReconRest({}, ready - {serial}, bySerial))) && faults >= old(faults)
      ensures faults == old(faults) ==>
                && PodsMoved(cfg, ready[serial], bySerial, old(pods), pods, stabilizing)
                && BooksMoved(cfg, ready[serial], bySerial, battery, old(Tally()), Tally(), [])
    {
      ghost var rest := ReconRest({}, ready - {serial}, bySerial);
      ghost var c := Choice(true, true, "", clock, serial, []);
      var done := false;
      if HasImage(cfg, ready[serial]) {
        done := IsFinished(bySerial[serial]);
      }
      if done {
        Collect(bySerial[serial], s0, t, Task(Idle, ReconRest({}, ready, bySerial)), c, rest);
      } else {
        Jump(s0, t, Task(Idle, ReconRest({}, ready, bySerial)), c, Idle, rest);
      }
    }

    /** A ready device without a pod: one request, unless it is mid-reboot. */
    method CreateUngated(dev: HubDevice, ghost s0: State, ghost t: nat, ghost rest: Rest)
      returns (ghost asked: seq<Request>)
      requires At(s0, t, Task(Schedule(dev, false), rest)) && RequestsOk()
      modifies this`pods, this`owner, this`faults, this`requests, this`stabilizing, this`goroutines, this`clock
      ensures At(s0, t, Task(Idle, rest)) && RequestsOk() && faults >= old(faults) && old(stabilizing) <= stabilizing
      ensures Added(dev.serial, old(pods), pods) && SettleOnly(old(Tally()), Tally())
      ensures asked == if dev.serial in rebooting then [] else [Request(dev.serial, false, Level(dev.serial))]
      ensures requests == old(requests) + asked
      ensures faults == old(faults) && PodName(dev.serial) !in old(pods) ==>
                dev.serial in stabilizing || IsPodOf(pods, PodName(dev.serial), dev.serial)
    {
      var waits := ScheduleStabilization(dev, false, s0, t, rest);
      asked := if waits then [] else [Request(dev.serial, false, Level(dev.serial))];
      assert goroutines == old(goroutines) || Spawned(old(goroutines), goroutines, Task(Sleeping(dev), NoRest));
      assert requests + [] == requests;
      if !waits {
        Build(dev, false, s0, t, rest);
      }
    }

    /** The creation loop's invariant. `clean` says that no call failed before the loop, which
        started with the books `a`, the requests `requests0` and `faults0` failed calls. */
    ghost predicate Reconciling(ready: map<Serial, HubDevice>, left: map<Serial, HubDevice>, done: set<Serial>,
                                bySerial: map<Serial, Pod>, p0: map<string, Pod>, clean: bool, a: Books,
                                requests0: seq<Request>, faults0: nat, asked: seq<Request>, s0: State, t: nat)
      reads this
    {
      && At(s0, t, Task(Idle, ReconRest({}, left, bySerial))) && RequestsOk() && faults >= faults0
      && requests == requests0 + asked && done <= ready.Keys
      && (clean && faults == faults0 ==>
            Reconciled(cfg, ready, bySerial, done, p0, pods, stabilizing, battery, a, Tally(), asked))
    }

    /** One iteration, as the creation loop sees it. */
    method ReconcileNext(serial: Serial, ghost ready: map<Serial, HubDevice>, left: map<Serial, HubDevice>,
                         ghost done: set<Serial>, bySerial: map<Serial, Pod>, ghost p0: map<string, Pod>,
                         ghost clean: bool, ghost a: Books, ghost requests0: seq<Request>, ghost faults0: nat,
                         ghost asked: seq<Request>, ghost s0: State, ghost t: nat)
      returns (ghost more: seq<Request>)
      requires serial in left && Splits(ready, left, done)
      requires (forall s :: s in ready ==> ready[s].serial == s) && Indexes(bySerial, p0) && RuleNames(p0)
      requires Reconciling(ready, left, done, bySerial, p0, clean, a, requests0, faults0, asked, s0, t)
      modifies this`pods, this`owner, this`reported, this`rows, this`lost, this`faults, this`requests, this`rebooting,
               this`stabilizing, this`goroutines, this`clock
      ensures Reconciling(ready, left - {serial}, done + {serial}, bySerial, p0, clean, a, requests0, faults0,
                          asked + more, s0, t)
    {
      ghost var before, tally, tokens := pods, Tally(), stabilizing;
      more := ReconcileOne(serial, left, bySerial, s0, t);
      if clean && faults == faults0 {
        ReconciledStep(cfg, serial, ready, bySerial, done, p0, before, pods, tokens, stabilizing, battery,
                       a, tally, Tally(), asked, more);
      }
      assert requests0 + (asked + more) == requests0 + asked + more;
    }

    /** The creation loop, over the ready devices in any order. */
    method ReconcileReady(ready: map<Serial, HubDevice>, bySerial: map<Serial, Pod>, ghost p0: map<string, Pod>,
                          ghost clean: bool, ghost s0: State, ghost t: nat)
      returns (ghost asked: seq<Request>)
      requires At(s0, t, Task(Idle, ReconRest({}, ready, bySerial))) && RequestsOk()
      requires (forall s :: s in ready ==> ready[s].serial == s) && Indexes(bySerial, p0) && RuleNames(p0)
      requires clean ==> pods == p0 - PodNames(bySerial, bySerial.Keys - ready.Keys)
      modifies this`pods, this`owner, this`reported, this`rows, this`lost, this`faults, this`requests, this`rebooting,
               this`stabilizing, this`goroutines, this`clock
      ensures Reconciling(ready, map[], ready.Keys, bySerial, p0, clean, old(Tally()), old(requests), old(faults),
                          asked, s0, t)
    {
      var left := ready;
      ghost var a, requests0, faults0, done: set<Serial> := Tally(), requests, faults, {};
      asked := [];
      ReconciledStart(cfg, ready, bySerial, p0, pods, clean, stabilizing, battery, a);
      assert requests + asked == requests && Splits(ready, left, done);
      while left != map[]
        invariant Splits(ready, left, done)
        invariant Reconciling(ready, left, done, bySerial, p0, clean, a, requests0, faults0, asked, s0, t)
        decreases left.Keys
      {
        var serial :| serial in left;
        SplitsStep(ready, left, done, serial);
        ghost var more := ReconcileNext(serial, ready, left, done, bySerial, p0, clean, a, requests0, faults0, asked,
                                        s0, t);
        left, done, asked := left - {serial}, done + {serial}, asked + more;
      }
      assert done == ready.Keys;
    }

    /** Brings pods in line with the device list. `bySerial` indexes the pods as they were;
        `asked` are the pods requested, none of them through the battery gate. */
    method Reconcile(devs: seq<HubDevice>)
      returns (ok: bool, ghost bySerial: map<Serial, Pod>, ghost asked: seq<Request>)
      requires Valid()
      modifies this
      ensures Valid() && Runs(old(View()), View()) && faults >= old(faults) && requests == old(requests) + asked
      ensures ok && faults == old(faults) ==>
                && Indexes(bySerial, old(pods))
                && Reconciled(cfg, ReadyMap(devs), bySerial, ReadyMap(devs).Keys, old(pods), pods, stabilizing,
                              old(battery),
                              old(Tally()), Tally(), asked)
                && Brought(cfg, devs, old(pods), pods, reported, old(rebooting), stabilizing, asked)
                && LowRequests(asked, old(battery))
      ensures !ok ==> faults > old(faults) && asked == []
    {
      ghost var s0, t := Start(K8sState.Reconcile(devs));
      ghost var pods0, owner0, a := pods, owner, Tally();
      assert ClusterOk(pods, owner);
      ok, bySerial, asked := ReconcileSteps(devs, s0, t);
      Finish(s0, t, if ok then ReconRest({}, map[], bySerial) else NoRest);
      if ok && faults == old(faults) {
        ReconcileBrings(cfg, devs, bySerial, pods0, owner0, pods, stabilizing, battery, a, Tally(), asked);
      }
    }

    method ReconcileSteps(devs: seq<HubDevice>, ghost s0: State, ghost t: nat)
      returns (ok: bool, ghost bySerial: map<Serial, Pod>, ghost asked: seq<Request>)
      requires At(s0, t, Task(ListRecon(devs), NoRest)) && RequestsOk() && ClusterOk(pods, owner)
      modifies this`pods, this`owner, this`reported, this`rows, this`lost, this`faults, this`requests, this`rebooting,
               this`stabilizing, this`goroutines, this`clock
      ensures At(s0, t, Task(Idle, if ok then ReconRest({}, map[], bySerial) else NoRest)) && RequestsOk()
      ensures requests == old(requests) + asked && faults >= old(faults)
      ensures ok && faults == old(faults) ==>
                && Indexes(bySerial, old(pods))
                && Reconciled(cfg, ReadyMap(devs), bySerial, ReadyMap(devs).Keys, old(pods), pods, stabilizing, battery,
                              old(Tally()), Tally(), asked)
      ensures !ok ==> faults > old(faults) && asked == []
    {
      ghost var p0 := pods;
      var ready, index;
      ok, ready, index := Gather(devs, s0, t);
      bySerial, asked := index, [];
      assert requests + asked == requests;
      if ok {
        ghost var faults0 := faults;
        RemoveGone(ready, index, s0, t);
        asked := ReconcileReady(ready, index, p0, faults == faults0, s0, t);
      }
    }

    // ── Goroutines ──

    /** A sleeping goroutine wakes up; from here it runs to its end. */
    method Wake(id: nat, ghost task: Task) returns (ghost s0: State)
      requires Valid() && id in goroutines && goroutines[id] == task
      modifies this`goroutines
      ensures goroutines == old(goroutines) - {id}
      ensures s0 == old(View()) && Inv(s0) && At(s0, id, task)
    {
      s0 := View();
      goroutines := goroutines - {id};
      assert Busy(id, task) == s0;
      RunsRefl(s0);
    }

    /** The settle goroutine after its sleep. */
    method Settle(id: nat, dev: HubDevice)
      requires Valid() && id in goroutines && goroutines[id] == Task(Sleeping(dev), NoRest)
      modifies this
      ensures Valid() && Runs(old(View()), View()) && faults >= old(faults)
      ensures dev.serial !in rebooting && dev.serial !in stabilizing
      ensures faults == old(faults) ==>
                (HasPod(pods, dev.serial) || dev.serial in lowBattery <==> !old(Refused(dev.serial)))
      ensures Squatted(dev.serial) ==> old(Squatted(dev.serial))
    {
      ghost var s0 := Wake(id, Task(Sleeping(dev), NoRest));
      assert ClusterOk(pods, owner);
      SettleSteps(dev, s0, id);
      Finish(s0, id, NoRest);
    }

    method SettleSteps(dev: HubDevice, ghost s0: State, ghost t: nat)
      requires At(s0, t, Task(Sleeping(dev), NoRest)) && RequestsOk() && ClusterOk(pods, owner)
      modifies this
      ensures At(s0, t, Task(Idle, NoRest)) && RequestsOk() && faults >= old(faults)
      ensures dev.serial !in rebooting && dev.serial !in stabilizing
      ensures faults == old(faults) ==>
                (HasPod(pods, dev.serial) || dev.serial in lowBattery <==> !old(Refused(dev.serial)))
      ensures Squatted(dev.serial) ==> old(Squatted(dev.serial))
    {
      Unlatch(dev, s0, t);
      PlaceSettled(dev, s0, t);
    }

    method PlaceSettled(dev: HubDevice, ghost s0: State, ghost t: nat)
      requires At(s0, t, Task(ListOne(dev, ThenGate), NoRest)) && RequestsOk() && ClusterOk(pods, owner)
      modifies this`pods, this`owner, this`faults, this`requests, this`lowBattery
      ensures At(s0, t, Task(Idle, NoRest)) && RequestsOk() && faults >= old(faults)
      ensures faults == old(faults) ==>
                (HasPod(pods, dev.serial) || dev.serial in lowBattery <==> !old(Refused(dev.serial)))
      ensures Squatted(dev.serial) ==> old(Squatted(dev.serial))
    {
      var absent := ListOwn(dev, ThenGate, s0, t);
      if absent {
        MaybeCreatePod(dev, s0, t, NoRest);
      }
    }

    method Unlatch(dev: HubDevice, ghost s0: State, ghost t: nat)
      requires At(s0, t, Task(Sleeping(dev), NoRest))
      modifies this`stabilizing, this`rebooting
      ensures At(s0, t, Task(ListOne(dev, ThenGate), NoRest))
      ensures stabilizing == old(stabilizing) - {dev.serial} && rebooting == old(rebooting) - {dev.serial}
    {
      ghost var g := Busy(t, Task(Sleeping(dev), NoRest));
      stabilizing := stabilizing - {dev.serial};
      Go(s0, g, t, Plainly(clock), Goto(Sh(), Woken(dev), NoRest), Busy(t, Task(Woken(dev), NoRest)));
      ClearSettled(dev, s0, t);
    }

    method ClearSettled(dev: HubDevice, ghost s0: State, ghost t: nat)
      requires At(s0, t, Task(Woken(dev), NoRest))
      modifies this`rebooting
      ensures At(s0, t, Task(ListOne(dev, ThenGate), NoRest)) && rebooting == old(rebooting) - {dev.serial}
    {
      ghost var g := Busy(t, Task(Woken(dev), NoRest));
      rebooting := rebooting - {dev.serial};
      Go(s0, g, t, Plainly(clock), Goto(Sh(), ListOne(dev, ThenGate), NoRest),
         Busy(t, Task(ListOne(dev, ThenGate), NoRest)));
    }

    /** `rebootAndReport`. A failed request clears the flag, records the failed boot and
        starts the retry goroutine; a good one leaves the flag for the settle task. */
    method RebootAndReport(id: nat, serial: Serial, rid: nat) returns (ok: bool)
      requires Valid() && id in goroutines && goroutines[id] == Task(Rebooting(serial, rid), NoRest)
      modifies this`rebooting, this`rows, this`faults, this`goroutines, this`clock
      ensures Valid() && Runs(old(View()), View())
      ensures rebooting == if ok then old(rebooting) else old(rebooting) - {serial}
      ensures faults == old(faults) ==> if rid == 0 then rows == old(rows) else Stored(old(rows), rows, rid, ok)
      ensures rid != 0 ==>
                1 <= rid <= |old(rows)| && old(rows)[rid - 1].attempts == 0 && old(rows)[rid - 1].serial == serial
      ensures goroutines == if ok then old(goroutines) - {id}
              else (old(goroutines) - {id})[old(clock) := Task(RetrySleep(serial), NoRest)]
    {
      OwedRow(id, serial, rid);
      ghost var s0 := Wake(id, Task(Rebooting(serial, rid), NoRest));
      ok := RequestReboot(serial, rid, s0, id);
      Finish(s0, id, NoRest);
    }

    method RequestReboot(serial: Serial, rid: nat, ghost s0: State, ghost t: nat) returns (ok: bool)
      requires At(s0, t, Task(Rebooting(serial, rid), NoRest))
      modifies this`rebooting, this`rows, this`faults, this`goroutines, this`clock
      ensures At(s0, t, Task(Idle, NoRest))
      ensures rebooting == if ok then old(rebooting) else old(rebooting) - {serial}
      ensures faults == old(faults) ==> rows == UpdateBoot(old(rows), rid, ok, true)
      ensures goroutines == if ok then old(goroutines)
              else old(goroutines)[old(clock) := Task(RetrySleep(serial), NoRest)]
    {
      ok := *;
      if ok {
        Jump(s0, t, Task(Rebooting(serial, rid), NoRest), Plainly(clock), UpdateOk(serial, rid), NoRest);
        RecordBoot(serial, rid, true, s0, t);
      } else {
        Jump(s0, t, Task(Rebooting(serial, rid), NoRest), Choice(false, true, "", clock, "", []),
             RebootFailed(serial, rid), NoRest);
        GiveUp(serial, rid, s0, t);
      }
    }

    lemma OwedRow(id: nat, serial: Serial, rid: nat)
      requires Valid() && id in goroutines && goroutines[id] == Task(Rebooting(serial, rid), NoRest)
      ensures rid != 0 ==> 1 <= rid <= |rows| && rows[rid - 1].attempts == 0 && rows[rid - 1].serial == serial
    {
      InvCovers(View(), id);
      assert TaskOk(Sh(), goroutines[id]);
      assert rid != 0 ==> rid in Debts(goroutines[id]);
    }

    /** The failed reboot's flag is cleared before its boot result is recorded. */
    method ClearFailed(serial: Serial, rid: nat, ghost s0: State, ghost t: nat)
      requires At(s0, t, Task(RebootFailed(serial, rid), NoRest))
      modifies this`rebooting
      ensures At(s0, t, Task(UpdateFailed(serial, rid), NoRest)) && rebooting == old(rebooting) - {serial}
    {
      ghost var g := Busy(t, Task(RebootFailed(serial, rid), NoRest));
      rebooting := rebooting - {serial};
      Go(s0, g, t, Plainly(clock), Goto(Sh(), UpdateFailed(serial, rid), NoRest),
         Busy(t, Task(UpdateFailed(serial, rid), NoRest)));
    }

    method GiveUp(serial: Serial, rid: nat, ghost s0: State, ghost t: nat)
      requires At(s0, t, Task(RebootFailed(serial, rid), NoRest))
      modifies this`rebooting, this`rows, this`faults, this`goroutines, this`clock
      ensures At(s0, t, Task(Idle, NoRest))
      ensures rebooting == old(rebooting) - {serial}
      ensures faults == old(faults) ==> rows == UpdateBoot(old(rows), rid, false, true)
      ensures goroutines == old(goroutines)[old(clock) := Task(RetrySleep(serial), NoRest)]
    {
      ClearFailed(serial, rid, s0, t);
      RecordBoot(serial, rid, false, s0, t);
      Spawn(RetrySleep(serial), s0, t, Task(SpawnRetry(serial), NoRest), NoRest);
    }

    method RecordBoot(serial: Serial, rid: nat, bootOk: bool, ghost s0: State, ghost t: nat)
      requires At(s0, t, Task(if bootOk then UpdateOk(serial, rid) else UpdateFailed(serial, rid), NoRest))
      modifies this`rows, this`faults
      ensures At(s0, t, Task(if bootOk then Idle else SpawnRetry(serial), NoRest))
      ensures faults == old(faults) ==> rows == UpdateBoot(old(rows), rid, bootOk, true)
    {
      ghost var from := if bootOk then UpdateOk(serial, rid) else UpdateFailed(serial, rid);
      ghost var to := if bootOk then Idle else SpawnRetry(serial);
      var dbOk := *;
      StoreBoot(rid, bootOk, dbOk, from, to, s0, t);
    }

    /** The statement of `updateBootResult`, which takes effect if `dbOk`. */
    method StoreBoot(rid: nat, bootOk: bool, dbOk: bool, ghost from: PC, ghost to: PC, ghost s0: State, ghost t: nat)
      requires At(s0, t, Task(from, NoRest))
      requires Local(cfg, Sh(), Task(from, NoRest), Choice(true, dbOk, "", clock, "", []))
            == Goto(Sh().(rows := UpdateBoot(rows, rid, bootOk, dbOk)), to, NoRest)
      modifies this`rows, this`faults
      ensures At(s0, t, Task(to, NoRest))
      ensures faults == old(faults) ==> rows == UpdateBoot(old(rows), rid, bootOk, true)
    {
      ghost var g := Busy(t, Task(from, NoRest));
      rows, faults := UpdateBoot(rows, rid, bootOk, dbOk), if dbOk then faults else faults + 1;
      Go(s0, g, t, Choice(true, dbOk, "", clock, "", []), Goto(Sh(), to, NoRest), Busy(t, Task(to, NoRest)));
    }

    /** The goroutine that keeps the cycle going after a failed reboot: a pod for the
        device, unless the device is gone or already has one. No battery gate: the request is
        made at whatever level is known. */
    method Retry(id: nat, serial: Serial) returns (ghost asked: seq<Request>)
      requires Valid() && id in goroutines && goroutines[id] == Task(RetrySleep(serial), NoRest)
      modifies this`pods, this`owner, this`faults, this`requests, this`goroutines
      ensures Valid() && Runs(old(View()), View()) && faults >= old(faults)
      ensures serial !in devices ==> pods == old(pods) && asked == []
      ensures requests == old(requests) + asked && (asked == [] || asked == [Request(serial, false, Level(serial))])
      ensures faults == old(faults) ==>
                && (asked != [] <==> serial in devices && !old(HasPod(pods, serial)))
                && ((exists r :: r in asked && 0 <= r.level <= 30) <==>
                    && serial in devices && !old(HasPod(pods, serial))
                    && serial in battery && 0 <= battery[serial] <= 30)
      ensures serial in devices && faults == old(faults) ==> (HasPod(pods, serial) <==> !old(Squatted(serial)))
    {
      ghost var s0 := Wake(id, Task(RetrySleep(serial), NoRest));
      assert ClusterOk(pods, owner) && Keyed(devices);
      asked := RetryCreate(serial, s0, id);
      Finish(s0, id, NoRest);
      OneAsked(asked, Request(serial, false, Level(serial)));
    }

    method RetryCreate(serial: Serial, ghost s0: State, ghost t: nat) returns (ghost asked: seq<Request>)
      requires At(s0, t, Task(RetrySleep(serial), NoRest)) && RequestsOk() && ClusterOk(pods, owner) && Keyed(devices)
      modifies this`pods, this`owner, this`faults, this`requests
      ensures At(s0, t, Task(Idle, NoRest)) && RequestsOk() && faults >= old(faults)
      ensures serial !in devices ==> pods == old(pods) && asked == []
      ensures requests == old(requests) + asked && (asked == [] || asked == [Request(serial, false, Level(serial))])
      ensures faults == old(faults) ==> (asked != [] <==> serial in devices && !old(HasPod(pods, serial)))
      ensures serial in devices && faults == old(faults) ==> (HasPod(pods, serial) <==> !old(Squatted(serial)))
    {
      if serial !in devices {
        asked := [];
        assert requests + asked == requests;
        Jump(s0, t, Task(RetrySleep(serial), NoRest), Plainly(clock), Idle, NoRest);
        return;
      }
      var dev := devices[serial];
      Jump(s0, t, Task(RetrySleep(serial), NoRest), Plainly(clock), ListOne(dev, ThenCreate), NoRest);
      asked := Replace(dev, s0, t);
    }

    /** Lists, and creates a pod if there is none, whatever the battery level. */
    method Replace(dev: HubDevice, ghost s0: State, ghost t: nat) returns (ghost asked: seq<Request>)
      requires At(s0, t, Task(ListOne(dev, ThenCreate), NoRest)) && RequestsOk() && ClusterOk(pods, owner)
      modifies this`pods, this`owner, this`faults, this`requests
      ensures At(s0, t, Task(Idle, NoRest)) && RequestsOk() && faults >= old(faults)
      ensures requests == old(requests) + asked
              && (asked == [] || asked == [Request(dev.serial, false, Level(dev.serial))])
      ensures faults == old(faults) ==>
                && (asked == [] <==> old(HasPod(pods, dev.serial)))
                && (HasPod(pods, dev.serial) <==> !old(Squatted(dev.serial)))
    {
      asked := [];
      assert requests + asked == requests;
      var absent := ListOwn(dev, ThenCreate, s0, t);
      if absent {
        asked := [Request(dev.serial, false, Level(dev.serial))];
        Build(dev, false, s0, t, NoRest);
      }
    }
  }
}
