/** The hub-mode lifecycle engine as a labelled transition system.

    Every handler, ticker pass and goroutine is a task with a program counter. One
    transition is one operation on a `sync.Map`, on the Kubernetes API or on the run
    table; any task may move next. */
module K8sState {
  import opened AdbDevices
  import opened Ledger
  import opened Naming
  import opened Options
  import opened RunTable

  datatype Config = Config(testImage: string, iosTestImage: string)

  datatype HubDevice = HubDevice(serial: Serial, state: string, platform: string)

  datatype Phase = Pending | Running | Succeeded | Failed | Unknown

  datatype ContainerStatus = ContainerStatus(name: string, terminated: bool)

  /** `managed` and `device` are the labels every pod builder sets. */
  datatype Pod = Pod(name: string, uid: string, managed: bool, device: Serial,
                     phase: Phase, statuses: seq<ContainerStatus>)

  /** Fields of the manager, the cluster and the database. `owner` is history: every
      UID the API server ever issued and the device label it was issued for. `lost`
      is history: keys whose result could not be inserted. */
  datatype Shared = Shared(
    pods: map<string, Pod>,
    owner: map<string, Serial>,
    rebooting: set<Serial>,
    stabilizing: set<Serial>,
    reported: set<string>,
    devices: map<Serial, HubDevice>,
    battery: map<Serial, int>,
    lowBattery: map<Serial, HubDevice>,
    rows: seq<Row>,
    lost: set<string>)

  /** What remains of a loop after the current item. */
  datatype Rest =
    | NoRest
    | CheckRest(todo: seq<Pod>)
    | DeleteRest(names: seq<string>)
    | ReconRest(gone: set<Serial>, ready: map<Serial, HubDevice>, bySerial: map<Serial, Pod>)

  /** What a task does once it knows that a device has no pod. */
  datatype Then = ThenSchedule | ThenGate | ThenCreate

  datatype PC =
    | Idle                                              // take the next loop item, or end
    | ListCheck                                         // CheckPods: list managed pods
    | ListRecon(devs: seq<HubDevice>)                      // Reconcile: list managed pods
    | Stale(pod: Pod)                                   // already reported: delete it
    | Claimed(pod: Pod)                                 // key stored: delete the pod
    | Deleted(pod: Pod)                                 // insert the run
    | Saved(serial: Serial, rid: nat)                   // set the rebooting flag
    | Marked(serial: Serial, rid: nat)                  // start the reboot goroutine
    | Schedule(dev: HubDevice, gated: bool)                // is the device mid-reboot?
    | Latch(dev: HubDevice)                                // it is: try to take the settle token
    | SpawnSettle(dev: HubDevice)                          // token taken: start the settle goroutine
    | Sleeping(dev: HubDevice)                             // settle goroutine waiting
    | Woken(dev: HubDevice)                                // stabilizing cleared
    | ListOne(dev: HubDevice, next: Then)                  // does the device have a pod?
    | Gate(dev: HubDevice)                                 // maybeCreatePod: read the battery
    | Defer(dev: HubDevice)                                // battery low: remember the device
    | Create(dev: HubDevice)                               // POST the pod
    | Rebooting(serial: Serial, rid: nat)               // reboot request in flight
    | RebootFailed(serial: Serial, rid: nat)            // clear the rebooting flag
    | UpdateFailed(serial: Serial, rid: nat)            // record the failed boot
    | UpdateOk(serial: Serial, rid: nat)                // record the good boot
    | SpawnRetry(serial: Serial)                        // start the retry goroutine
    | RetrySleep(serial: Serial)                        // retry goroutine waiting
    | ReadyInfo(dev: HubDevice, info: Option<int>)         // OnDeviceReady: battery payload
    | ReadyUnknown(dev: HubDevice)                         // no level known: store -1
    | ReadyDevice(dev: HubDevice)                          // remember the device
    | OfflineDevice(serial: Serial)
    | OfflineBattery(serial: Serial)
    | ForgetDevice(serial: Serial)                      // OnDeviceDeleted
    | ListDelete(serial: Serial)
    | StoreLevel(serial: Serial, level: int)            // OnBatteryUpdated
    | LoadDeferred(serial: Serial, level: int)
    | ClearDeferred(serial: Serial, dev: HubDevice)

  datatype Task = Task(pc: PC, rest: Rest)

  datatype State = State(cfg: Config, sh: Shared, tasks: map<nat, Task>)

  const BATTERY_MIN := 30
  const BATTERY_RESUME := 35

  // ── Predicates on pods ──

  /** The first container called "tests" decides. */
  function TestsContainerDone(sts: seq<ContainerStatus>): bool
  {
    sts != [] && if sts[0].name == "tests" then sts[0].terminated else TestsContainerDone(sts[1..])
  }

  predicate Finished(p: Pod)
  {
    p.phase == Succeeded || p.phase == Failed || (p.phase == Running && TestsContainerDone(p.statuses))
  }

  function PodKey(p: Pod): string
  {
    if p.uid == "" then p.name else p.uid
  }

  predicate HasImage(cfg: Config, dev: HubDevice)
  {
    if dev.platform == "ios" then cfg.iosTestImage != "" else cfg.testImage != ""
  }

  predicate IsReady(dev: HubDevice)
  {
    dev.state == "device"
  }

  predicate HasPod(pods: map<string, Pod>, serial: Serial)
  {
    exists n :: n in pods && pods[n].managed && pods[n].device == serial
  }

  /** A list call returns each selected pod once, in any order. `serial` narrows the
      selector to one device. */
  predicate IsListing(pods: map<string, Pod>, serial: Option<Serial>, list: seq<Pod>)
  {
    && (forall i :: 0 <= i < |list| ==>
          && list[i].name in pods && pods[list[i].name] == list[i] && list[i].managed
          && (serial.Some? ==> list[i].device == serial.value))
    && (forall n :: n in pods && pods[n].managed && (serial.Some? ==> pods[n].device == serial.value) ==>
        pods[n] in list)
    && (forall i, j :: 0 <= i < j < |list| ==> list[i].name != list[j].name)
  }

  function Names(list: seq<Pod>): (names: seq<string>)
    ensures |names| == |list| && forall i :: 0 <= i < |list| ==> names[i] == list[i].name
  {
    seq(|list|, i requires 0 <= i < |list| => list[i].name)
  }

  /** `podBySerial` in Reconcile: the last pod listed for a device wins. */
  function BySerial(list: seq<Pod>): (m: map<Serial, Pod>)
    ensures forall s :: s in m ==> s != "" && m[s] in list && m[s].device == s
  {
    if list == [] then map[] else
      var p := list[|list| - 1];
      var m := BySerial(list[..|list| - 1]);
      if p.device != "" then m[p.device := p] else m
  }

  /** `readyDevices` in Reconcile: the last ready entry for a serial wins. */
  function ReadyMap(devs: seq<HubDevice>): (m: map<Serial, HubDevice>)
    ensures forall s :: s in m ==> m[s] in devs && m[s].serial == s && IsReady(m[s])
  {
    if devs == [] then map[] else
      var d := devs[|devs| - 1];
      var m := ReadyMap(devs[..|devs| - 1]);
      if IsReady(d) then m[d.serial := d] else m
  }

  // ── One atomic step of one task ──

  /** The environment's answers for one step: API success, database success, the UID a
      create would get, the identifier a new goroutine would get, the next key of a map
      iteration and the reply to a list call. */
  datatype Choice = Choice(ok: bool, dbOk: bool, uid: string, id: nat, pick: string, listing: seq<Pod>)

  datatype Effect = Effect(sh: Shared, next: Option<Task>, spawn: Option<Task>)

  function Goto(sh: Shared, pc: PC, rest: Rest): Effect
  {
    Effect(sh, Some(Task(pc, rest)), None)
  }

  function DeletePod(pods: map<string, Pod>, name: string, ok: bool): map<string, Pod>
  {
    if ok then pods - {name} else pods
  }

  /** The builder's pod: both platform builders use the same name and labels. */
  function NewPod(serial: Serial, uid: string): Pod
  {
    Pod(PodName(serial), uid, true, serial, Pending, [])
  }

  predicate CanCreate(sh: Shared, serial: Serial, ok: bool, uid: string)
  {
    ok && PodName(serial) !in sh.pods && uid != "" && uid !in sh.owner
  }

  function CreatePod(sh: Shared, serial: Serial, ok: bool, uid: string): Shared
  {
    if CanCreate(sh, serial, ok, uid)
    then sh.(pods := sh.pods[PodName(serial) := NewPod(serial, uid)], owner := sh.owner[uid := serial])
    else sh
  }

  /** `reported.LoadOrStore` on the pod's key. */
  function Claim(sh: Shared, p: Pod, rest: Rest): Effect
  {
    if PodKey(p) in sh.reported then Goto(sh, Stale(p), rest)
    else Goto(sh.(reported := sh.reported + {PodKey(p)}), Claimed(p), rest)
  }

  function StepIdle(cfg: Config, sh: Shared, rest: Rest, c: Choice): Effect
  {
    match rest
    case NoRest => Effect(sh, None, None)
    case CheckRest(todo) =>
      if todo == [] then Effect(sh, None, None)
      else if todo[0].device != "" && Finished(todo[0]) then Claim(sh, todo[0], CheckRest(todo[1..]))
      else Goto(sh, Idle, CheckRest(todo[1..]))
    case DeleteRest(names) =>
      if names == [] then Effect(sh, None, None)
      else Goto(sh.(pods := DeletePod(sh.pods, names[0], c.ok)), Idle, DeleteRest(names[1..]))
    case ReconRest(gone, ready, bySerial) =>
      if gone != {} then
        if c.pick in gone && c.pick in bySerial
        then Goto(sh.(pods := DeletePod(sh.pods, bySerial[c.pick].name, c.ok)), Idle,
                  ReconRest(gone - {c.pick}, ready, bySerial))
        else Goto(sh, Idle, rest)
      else if ready == map[] then Effect(sh, None, None)
      else if c.pick !in ready then Goto(sh, Idle, rest)
      else
        var rest' := ReconRest(gone, ready - {c.pick}, bySerial);
        var dev := ready[c.pick];
        if !HasImage(cfg, dev) then Goto(sh, Idle, rest')
        else if c.pick !in bySerial then Goto(sh, Schedule(dev, false), rest')
        else if Finished(bySerial[c.pick]) then Claim(sh, bySerial[c.pick], rest')
        else Goto(sh, Idle, rest')
  }

  /** Where a Reconcile pass starts once it has its list. */
  function ReconStart(devs: seq<HubDevice>, list: seq<Pod>): Rest
  {
    ReconRest(BySerial(list).Keys - ReadyMap(devs).Keys, ReadyMap(devs), BySerial(list))
  }

  /** Listing and collecting results. */
  function StepCollect(cfg: Config, sh: Shared, pc: PC, rest: Rest, c: Choice): Effect
  {
    match pc
    case ListCheck =>
      if c.ok && IsListing(sh.pods, None, c.listing) then Goto(sh, Idle, CheckRest(c.listing))
      else Goto(sh, Idle, NoRest)
    case ListRecon(devs) =>
      if c.ok && IsListing(sh.pods, None, c.listing) then Goto(sh, Idle, ReconStart(devs, c.listing))
      else Goto(sh, Idle, NoRest)
    case Stale(p) => Goto(sh.(pods := DeletePod(sh.pods, p.name, c.ok)), Idle, rest)
    case Claimed(p) => Goto(sh.(pods := DeletePod(sh.pods, p.name, c.ok)), Deleted(p), rest)
    case Deleted(p) =>
      if c.dbOk
      then Goto(sh.(rows := Insert(sh.rows, PodKey(p), p.device)), Saved(p.device, |sh.rows| + 1), rest)
      else Goto(sh.(lost := sh.lost + {PodKey(p)}), Saved(p.device, 0), rest)
    case Saved(serial, rid) => Goto(sh.(rebooting := sh.rebooting + {serial}), Marked(serial, rid), rest)
    case Marked(serial, rid) => Effect(sh, Some(Task(Idle, rest)), Some(Task(Rebooting(serial, rid), NoRest)))
    case _ => StepIdle(cfg, sh, rest, c)
  }

  function Continue(dev: HubDevice, next: Then): PC
  {
    match next
    case ThenSchedule => Schedule(dev, true)
    case ThenGate => Gate(dev)
    case ThenCreate => Create(dev)
  }

  /** Settling, the battery gate and pod creation. */
  function StepCreate(sh: Shared, pc: PC, rest: Rest, c: Choice): Effect
  {
    match pc
    case Schedule(dev, gated) =>
      if dev.serial in sh.rebooting then Goto(sh, Latch(dev), rest)
      else Goto(sh, if gated then Gate(dev) else Create(dev), rest)
    case Latch(dev) =>
      if dev.serial in sh.stabilizing then Goto(sh, Idle, rest)
      else Goto(sh.(stabilizing := sh.stabilizing + {dev.serial}), SpawnSettle(dev), rest)
    case SpawnSettle(dev) => Effect(sh, Some(Task(Idle, rest)), Some(Task(Sleeping(dev), NoRest)))
    case Sleeping(dev) => Goto(sh.(stabilizing := sh.stabilizing - {dev.serial}), Woken(dev), rest)
    case Woken(dev) => Goto(sh.(rebooting := sh.rebooting - {dev.serial}), ListOne(dev, ThenGate), rest)
    case ListOne(dev, next) =>
      if !c.ok || HasPod(sh.pods, dev.serial) then Goto(sh, Idle, rest)
      else Goto(sh, Continue(dev, next), rest)
    case Gate(dev) =>
      if dev.serial in sh.battery && 0 <= sh.battery[dev.serial] <= BATTERY_MIN
      then Goto(sh, Defer(dev), rest)
      else Goto(sh, Create(dev), rest)
    case Defer(dev) => Goto(sh.(lowBattery := sh.lowBattery[dev.serial := dev]), Idle, rest)
    case Create(dev) => Goto(CreatePod(sh, dev.serial, c.ok, c.uid), Idle, rest)
    case _ => Goto(sh, pc, rest)
  }

  /** `rebootAndReport` and its retry goroutine. */
  function StepReboot(sh: Shared, pc: PC, rest: Rest, c: Choice): Effect
  {
    match pc
    case Rebooting(serial, rid) => Goto(sh, if c.ok then UpdateOk(serial, rid) else RebootFailed(serial, rid), rest)
    case RebootFailed(serial, rid) => Goto(sh.(rebooting := sh.rebooting - {serial}), UpdateFailed(serial, rid), rest)
    case UpdateFailed(serial, rid) => Goto(sh.(rows := UpdateBoot(sh.rows, rid, false, c.dbOk)), SpawnRetry(serial),
                                           rest)
    case UpdateOk(serial, rid) => Goto(sh.(rows := UpdateBoot(sh.rows, rid, true, c.dbOk)), Idle, rest)
    case SpawnRetry(serial) => Effect(sh, Some(Task(Idle, rest)), Some(Task(RetrySleep(serial), NoRest)))
    case RetrySleep(serial) =>
      if serial in sh.devices then Goto(sh, ListOne(sh.devices[serial], ThenCreate), rest)
      else Goto(sh, Idle, rest)
    case _ => Goto(sh, pc, rest)
  }

  /** `OnDeviceReady` up to the point where it lists pods. */
  function StepReady(cfg: Config, sh: Shared, pc: PC, rest: Rest): Effect
  {
    match pc
    case ReadyInfo(dev, info) =>
      if info.None? then Goto(sh, ReadyDevice(dev), rest)
      else if info.value >= 0 then Goto(sh.(battery := sh.battery[dev.serial := info.value]), ReadyDevice(dev), rest)
      else if dev.serial in sh.battery then Goto(sh, ReadyDevice(dev), rest)
      else Goto(sh, ReadyUnknown(dev), rest)
    case ReadyUnknown(dev) => Goto(sh.(battery := sh.battery[dev.serial := -1]), ReadyDevice(dev), rest)
    case ReadyDevice(dev) =>
      Goto(sh.(devices := sh.devices[dev.serial := dev]),
           if HasImage(cfg, dev) then ListOne(dev, ThenSchedule) else Idle, rest)
    case _ => Goto(sh, pc, rest)
  }

  /** The other hub event handlers. */
  function StepHandler(sh: Shared, pc: PC, rest: Rest, c: Choice): Effect
  {
    match pc
    case OfflineDevice(serial) => Goto(sh.(devices := sh.devices - {serial}), OfflineBattery(serial), rest)
    case OfflineBattery(serial) => Goto(sh.(lowBattery := sh.lowBattery - {serial}), Idle, rest)
    case ForgetDevice(serial) => Goto(sh.(devices := sh.devices - {serial}), ListDelete(serial), rest)
    case ListDelete(serial) =>
      if c.ok && IsListing(sh.pods, Some(serial), c.listing) then Goto(sh, Idle, DeleteRest(Names(c.listing)))
      else Goto(sh, Idle, rest)
    case StoreLevel(serial, level) => Goto(sh.(battery := sh.battery[serial := level]), LoadDeferred(serial, level),
                                           rest)
    case LoadDeferred(serial, level) =>
      if serial in sh.lowBattery && level >= BATTERY_RESUME
      then Goto(sh, ClearDeferred(serial, sh.lowBattery[serial]), rest)
      else Goto(sh, Idle, rest)
    case ClearDeferred(serial, dev) => Goto(sh.(lowBattery := sh.lowBattery - {serial}), ListOne(dev, ThenCreate), rest)
    case _ => Goto(sh, pc, rest)
  }

  datatype Group = GCollect | GCreate | GReboot | GReady | GHandler

  function GroupOf(pc: PC): Group
  {
    match pc
    case Idle => GCollect case ListCheck => GCollect case ListRecon(_) => GCollect case Stale(_) => GCollect
    case Claimed(_) => GCollect case Deleted(_) => GCollect case Saved(_, _) => GCollect case Marked(_, _) => GCollect
    case Schedule(_, _) => GCreate case Latch(_) => GCreate case SpawnSettle(_) => GCreate case Sleeping(_) => GCreate
    case Woken(_) => GCreate case ListOne(_, _) => GCreate case Gate(_) => GCreate
    case Defer(_) => GCreate case Create(_) => GCreate
    case Rebooting(_, _) => GReboot case RebootFailed(_, _) => GReboot case UpdateFailed(_, _) => GReboot
    case UpdateOk(_, _) => GReboot case SpawnRetry(_) => GReboot case RetrySleep(_) => GReboot
    case ReadyInfo(_, _) => GReady case ReadyUnknown(_) => GReady case ReadyDevice(_) => GReady
    case _ => GHandler
  }

  function Local(cfg: Config, sh: Shared, task: Task, c: Choice): Effect
  {
    match GroupOf(task.pc)
    case GCollect => StepCollect(cfg, sh, task.pc, task.rest, c)
    case GCreate => StepCreate(sh, task.pc, task.rest, c)
    case GReboot => StepReboot(sh, task.pc, task.rest, c)
    case GReady => StepReady(cfg, sh, task.pc, task.rest)
    case GHandler => StepHandler(sh, task.pc, task.rest, c)
  }

  // ── The transition system ──

  datatype Activity =
    | CheckPods
    | Reconcile(devs: seq<HubDevice>)
    | DeviceReady(dev: HubDevice, info: Option<int>)
    | DeviceOffline(serial: Serial)
    | DeviceDeleted(serial: Serial)
    | BatteryUpdated(serial: Serial, level: int)

  function Entry(a: Activity): Task
  {
    Task(match a
         case CheckPods => ListCheck
         case Reconcile(devs) => ListRecon(devs)
         case DeviceReady(dev, level) => ReadyInfo(dev, level)
         case DeviceOffline(serial) => OfflineDevice(serial)
         case DeviceDeleted(serial) => ForgetDevice(serial)
         case BatteryUpdated(serial, level) => StoreLevel(serial, level),
         NoRest)
  }

  /** `Begin`: a callback, tick or watch event enters. `Step`: a task moves. The other
      three are the cluster: a pod's status changes, a pod vanishes, somebody else
      creates an unmanaged pod. */
  datatype Event =
    | Begin(id: nat, act: Activity)
    | Step(id: nat, c: Choice)
    | Status(name: string, phase: Phase, statuses: seq<ContainerStatus>)
    | Vanish(name: string)
    | Foreign(pod: Pod)

  /** An event that is not enabled changes nothing. */
  function Exec(s: State, e: Event): State
  {
    match e
    case Begin(id, act) => if id in s.tasks then s else s.(tasks := s.tasks[id := Entry(act)])
    case Step(id, c) =>
      if id !in s.tasks || c.id in s.tasks then s else
        var f := Local(s.cfg, s.sh, s.tasks[id], c);
        s.(sh := f.sh, tasks := After(s.tasks, id, f.next, c.id, f.spawn))
    case Status(name, phase, sts) =>
      if name !in s.sh.pods then s else
        s.(sh := s.sh.(pods := s.sh.pods[name := s.sh.pods[name].(phase := phase, statuses := sts)]))
    case Vanish(name) => s.(sh := s.sh.(pods := s.sh.pods - {name}))
    case Foreign(p) =>
      if p.managed || p.name in s.sh.pods || p.uid == "" || p.uid in s.sh.owner then s else
        s.(sh := s.sh.(pods := s.sh.pods[p.name := p], owner := s.sh.owner[p.uid := p.device]))
  }

  function ExecAll(s: State, es: seq<Event>): State
  {
    if es == [] then s else Exec(ExecAll(s, es[..|es| - 1]), es[|es| - 1])
  }

  /** A fresh manager process on any cluster and an empty run table. */
  predicate Init(s: State)
  {
    && ClusterOk(s.sh.pods, s.sh.owner)
    && s.sh.rebooting == {} && s.sh.stabilizing == {} && s.sh.reported == {} && s.sh.lost == {}
    && s.sh.devices == map[] && s.sh.battery == map[] && s.sh.lowBattery == map[]
    && s.sh.rows == [] && s.tasks == map[]
  }

  predicate PodKnown(owner: map<string, Serial>, p: Pod)
  {
    p.uid != "" && p.uid in owner && owner[p.uid] == p.device
  }

  /** What the API server guarantees, plus the naming rule all pod builders follow. */
  predicate ClusterOk(pods: map<string, Pod>, owner: map<string, Serial>)
  {
    && (forall n :: n in pods ==>
          && pods[n].name == n && PodKnown(owner, pods[n])
          && (pods[n].managed ==> n == PodName(pods[n].device)))
    && (forall n, k :: n in pods && k in pods && pods[n].uid == pods[k].uid ==> n == k)
  }
}
