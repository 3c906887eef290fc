# The device-test lifecycle engine, modelled and proved

hub-test keeps every connected phone under test: a device becomes ready, a test pod (hub
mode) or a pair of containers (Docker mode) is started for it, the result is collected once,
the device is rebooted, settles, and the next run begins. This project models that engine
and the small state machines around it, and proves what they promise.

How to read it:

- **Hub mode** (`K8s*.dfy`, `Naming.dfy`). `K8sState` is a labelled transition system: event
  handlers, `CheckPods`, `Reconcile`, reboot, settle and retry goroutines are tasks with a
  program counter, and every map operation or API call is one atomic step. The cluster may
  change, and lists may be stale, between any two steps. `K8sInvariants` and `K8sTheorems`
  prove safety over every interleaving; `K8sRuns` adds what holds along whole runs, and
  witness runs; `K8sManager` is the manager as a class whose handlers are shown, step by
  step, to make runs of that system; `K8sPasses` has what its passes promise, free of the
  heap, and `K8sFields` restates it in phases, container statuses, device states, platforms
  and configured images; `K8sLifecycle` chains handlers into whole cycles.
- **Docker mode** (`Docker*.dfy`). `DockerManager` is a class: one atomic `Reconcile` pass,
  interleaved with the atomic steps of the reboot tasks it starts. `DockerPass` says what a
  pass is meant to do to one device; `DockerFrames` and `DockerSettle` relate snapshots
  before and after, free of the heap; `DockerPorts` follows the ports through every attempt
  to create Appium and its outcome; `DockerTasks` has the ledgers of flags, keys and boot
  updates; `DockerFields` restates passes in labels, container states, cached and configured
  USB IDs.
- `Ledger` is the bookkeeping both modes use (if each step balances locally, the total over
  all tasks balances); `RunTable` is the run table as the managers see it.
- `UsbMonitor`, `Trigger`, `Snapshot`, `AdbFraming` and `Stats` are the USB event log, the
  coalescing reconcile trigger, the tracker's deduplication, the ADB wire format with its
  device list, and the per-device statistics. `Options` and `AdbDevices` are the two small
  types they share.

History variables stand beside the modelled fields: `faults` counts failed or refused calls,
so "nothing failed" reads `faults == old(faults)`; `requests`, `ops`, `attempts` and `lost`
record what was asked for or went wrong. Nothing here was executed.

What the proofs found, beyond the properties that hold:

- Pods are deleted by name. A collector working from a stale list can delete the device's
  next, unreported pod (`K8sRuns.StaleListDeletesFreshPod`); it deletes only reported pods
  as long as the name still belongs to the listed pod. Besides that an unreported pod goes
  only with its device, in a Reconcile pass or in `OnDeviceDeleted`, or from outside
  (`K8sRuns.EventLoses`, an if-and-only-if, and `K8sRuns.PodFate` over whole runs).
- `sanitize` is not injective. Two serials can share a pod name, and then the second device
  cannot get a pod (`Blocked` in `K8sManager` is the exact condition). In Docker mode
  `createTest` removes by name, before it checks the battery: if the removal succeeds, the
  other devices keep their containers if and only if none of them holds that name
  (`DockerState.RemovalHarmless`, carried into `CreateTest`); `a_b` with a running test and
  `a:b` about to get one is the witness (`DockerState.RemovalHarms`).
- `Reconcile` (`internal/k8s/manager.go:161-172`) and the retry after a failed reboot
  (`internal/k8s/manager.go:1101-1118`) create pods without the battery gate. Without
  faults, Reconcile asks for a pod at a known level of 30 or less if and only if a ready
  device with an image, without a pod and not rebooting, is at such a level; the retry if
  and only if the device is known, has no pod and is at such a level. `K8sRuns.PodAtLowLevel`
  is a run that ends with such a pod.
- Both modes mark a key as reported before the run is inserted; a failed insert leaves a
  reported key without a run. The ledgers count these.
- In Docker mode two devices can get the same Appium port. A new device's container that was
  created, not started and not removed again keeps a port that is on no record, and the next
  new device of the pass is given that port. From distinct ports, and when no attempt of the pass reused
  another device's container, ports are distinct after the pass if and only if no such
  container is followed by a new device's creation that leaves one, and no port of another
  device was freed by force if and only if none is followed by a new device's attempt
  (`DockerPorts.PortsAfterPass`; witnesses `LeakThenStart` and `LeakThenFail`). A name
  conflict can also end in reusing another device's container, since Docker's name filter
  matches prefixes; then ports can clash without any leak (`DockerPorts.BorrowThenStart`),
  and in general exactly when an attempt puts a container on a port another one has.
- A USB event whose insert fails is never repeated, so the log no longer replays to the
  snapshot (`UsbMonitor.Monitor.Poll` has the if-and-only-if).
- After a reconnect the tracker drops an empty device list, and no other
  (`Snapshot.Tracker.OnReconnect`).
- A frame header that is a minus sign and three hexadecimal digits, not all zero, parses as a
  negative length, and `make` panics; no other header does that
  (`AdbFraming.PanicsWhenNegative`; "-001" is one).

Where code and comments disagree the code is modelled: `internal/k8s/manager.go:1121` says
Reconcile clears `rebooting`, but only the settle goroutine and a failed reboot do;
`internal/store/store.go:280` describes failed runs as runs with a failing test, but the
query also counts runs without a result, which is what `Verdict` calls N/A.

## Model

| member | source | states |
|---|---|---|
| RunTable.UpdateLedger | internal/k8s/manager.go:1125-1134 | a boot update settles exactly the one row it names and changes no key |
| RunTable.BootedPlusOwed | internal/k8s/manager.go:1093-1134 | every row is either updated or still owed its update |
| Naming.Sanitize | internal/k8s/manager.go:545-556 | the builder loop and the final trim compute the specification function on every string |
| Naming.SanitizeCanonical | internal/k8s/manager.go:545-556 | the result has only lower-case letters, digits and hyphens, and no hyphen at either end |
| Naming.SanitizeFixesCanonical | internal/k8s/manager.go:545-556 | a string is left alone if and only if it is already canonical, so sanitising is idempotent |
| Naming.SanitizeMeans | internal/k8s/manager.go:545-556 | by code points: upper case is lowered, lower case, digits and the hyphen stay, the Kelvin sign gives k and the dotted capital I gives i, all else gives a hyphen; a string is the result if and only if it is a middle part so treated, without hyphens at its ends, and all around it would be hyphens |
| Naming.PodNameInjective | internal/k8s/manager.go:594-595 | canonical serials share a pod name only when they are equal |
| Naming.PodNameCollision | internal/k8s/manager.go:545-556 | other serials can share one |
| Naming.PodNameOfPixel | internal/k8s/manager.go:594-595 | one name in full: `_Pixel.7A ` gives hub-test-pixel-7a |
| K8sInvariants.StepLaws | internal/k8s/manager.go:398-535 | every step of every activity balances settle tokens, claimed keys and owed boot updates |
| K8sInvariants.StepKeeps | internal/k8s/manager.go:106-535 | every step keeps the cluster's naming and uniqueness rules and every task's assumptions, and never forgets a reported key or a stored run |
| K8sTheorems.StepInv | internal/k8s/manager.go:106-535 | the whole invariant survives any step of any task |
| K8sTheorems.ClusterInv | internal/k8s/manager.go:117-128 | and any change of the cluster: pod status, a pod vanishing, a foreign pod appearing |
| K8sTheorems.ReachableInv | internal/k8s/manager.go:106-535 | so it holds after any sequence of events from a fresh manager |
| K8sTheorems.ExactlyOnceCollection | internal/k8s/manager.go:175-225 | under every interleaving with stale lists, no two runs come from one pod, each run carries its pod's device, and reported keys are exactly inserted runs, collections in flight and failed inserts |
| K8sTheorems.ReportedIsInsertedPlusInFlight | internal/k8s/manager.go:492-533 | when inserts succeed, reported keys are exactly inserted runs plus collections in flight |
| K8sTheorems.NothingLost | internal/k8s/manager.go:1035-1046 | when inserts succeed no reported key counts as lost: each is an inserted run or still in flight |
| K8sTheorems.SettleToken | internal/k8s/manager.go:398-424 | in every interleaving a device is in `stabilizing` exactly when one settle task holds its token, and never two do |
| K8sTheorems.OwedByOne | internal/k8s/manager.go:1018-1048 | a row without boot result is owed it by exactly one pending task |
| K8sTheorems.BootConservation | internal/k8s/manager.go:1093-1134 | inserted runs are the runs updated plus the runs owed by one pending collection or reboot task each; none is updated twice |
| K8sTheorems.OnePodPerDevice | internal/k8s/manager.go:594-595 | no device ever has two managed pods, though every creator lists first and creates later without a lock |
| K8sRuns.HistoryOnlyGrows | internal/k8s/manager.go:473-535 | between any two moments runs are only added, keep key and device, and no reported key is forgotten |
| K8sRuns.CollectorDeletesReported | internal/k8s/manager.go:499-532 | a collector's delete removes only a pod already reported, if the name still belongs to the listed pod, and no other pod |
| K8sRuns.StaleListDeletesFreshPod | internal/k8s/manager.go:529-532 | without that condition there is a run in which a collector deletes a fresh, unreported pod |
| K8sRuns.EventLoses | internal/k8s/manager.go:131-145 | an unreported pod is taken away by an event if and only if it vanishes from outside or a task is at one of three deletes: of a disconnected device, of a deleted device, or by a name its listed pod no longer has |
| K8sRuns.PodFate | internal/k8s/manager.go:106-535 | over the rest of any run a pod is still there, or its key has been claimed, or one of those events took it away |
| K8sRuns.PodAtLowLevel | internal/k8s/manager.go:161-172 | a run from a fresh manager in which Reconcile creates a pod for a device known to be at 20% |
| K8sRuns.StoredIsOutcome | internal/k8s/manager.go:1093-1134 | in every run, the boot result a row holds is the outcome of a reboot request made for that row, and no other request was made for it |
| K8sRuns.NotToldAgain | internal/k8s/manager.go:1093-1098 | no run asks twice for the reboot of one row |
| K8sManager.Manager.Finish | internal/k8s/manager.go:106-535 | a handler that reached its end has made a run of the transition system, so the invariant holds again |
| K8sManager.Manager.MaybeCreatePod | internal/k8s/manager.go:366-377 | at a known level of 30 or less the device is deferred and nothing is created; otherwise one pod is requested, and it appears if the call succeeds and the name is free |
| K8sManager.Manager.ScheduleStabilization | internal/k8s/manager.go:398-424 | it waits exactly when the device is rebooting; then the device is in `stabilizing`, and one sleeping settle goroutine is started exactly if it was not there before |
| K8sManager.Manager.OnDeviceReady | internal/k8s/manager.go:331-363 | without faults the device ends up with a pod, deferred or settling if and only if its name is not taken where a pod would have been created; that holds for an iOS device exactly with an iOS test image and for any other exactly with a test image, and otherwise nothing is asked for |
| K8sManager.Manager.StoreInfo | internal/k8s/manager.go:302-325 | a valid level is stored, an unknown one only where none was known |
| K8sManager.Manager.OnDeviceOffline | internal/k8s/manager.go:244-249 | the device and its deferral are forgotten, nothing else changes |
| K8sManager.Manager.OnDeviceDeleted | internal/k8s/manager.go:252-268 | without faults exactly the device's managed pods are gone |
| K8sManager.Manager.OnBatteryUpdated | internal/k8s/manager.go:436-469 | below 35 or without a deferral only the level changes; otherwise the deferral goes and a pod is requested exactly when there is none |
| K8sManager.Manager.Settle | internal/k8s/manager.go:406-422 | the settle goroutine clears both flags and, without faults, leaves the device with a pod or deferred unless its name is taken |
| K8sManager.Manager.TestsDone | internal/k8s/manager.go:562-569 | the loop finds the first container called tests and returns whether it terminated |
| K8sManager.Manager.Collect | internal/k8s/manager.go:499-512 | the key is reported; the pod goes; exactly when the key was new a run is inserted, the device flagged and one goroutine started to reboot it for that run |
| K8sManager.Manager.SaveTestResult | internal/k8s/manager.go:1018-1048 | one row more, for the pod's UID (its name if it has none) and device and without a boot result, and its number; or no row and number zero |
| K8sManager.Manager.CheckPods | internal/k8s/manager.go:473-535 | without faults a managed, labelled pod that has succeeded or failed is gone and reported, a running one is gone exactly if its first container called tests has terminated, a pending or unknown one stays; exactly the new keys get runs, and for each new run its device is flagged and its reboot goroutine started, and no other goroutine |
| K8sManager.Manager.IndexPods | internal/k8s/manager.go:121-128 | the pods by device, by position in the list: exactly the devices labelled there, each with the last pod that carries its label; unlabelled ones are skipped |
| K8sManager.Manager.IndexReady | internal/k8s/manager.go:130-136 | exactly the serials with an entry in state device, each with the last such entry |
| K8sManager.Manager.Reconcile | internal/k8s/manager.go:106-229 | without faults every labelled pod belongs to a ready device; of a ready device with its platform's image a succeeded or failed pod is gone and reported, a running one gone exactly if its first container called tests has terminated, any other stays; foreign pods are untouched; exactly the finished pods are reported, the new ones with run, flag and reboot goroutine; exactly the ready devices with an image, without a pod and not rebooting are asked for, once each, at a level of 30 or less exactly if one is at such a level; and with distinct names each of them has its pod, or settles, unless a foreign or unlabelled pod holds its name |
| K8sManager.Manager.RebootAndReport | internal/k8s/manager.go:1093-1123 | the boot outcome goes to the task's own row, not updated before: without faults that row then holds exactly this outcome and every other row is as it was; on failure the flag is cleared and a retry goroutine starts |
| K8sManager.Manager.Retry | internal/k8s/manager.go:1101-1118 | a pod is requested, at the last known level, exactly when the device is known and has no pod, at a level below the threshold exactly when it is there; and the device has a pod afterwards unless its name is taken |
| K8sPasses.CollectedOne | internal/k8s/manager.go:175-225 | collecting one more pod adds exactly its key, and if that is new its run, flag and reboot goroutine |
| K8sPasses.BookedStep | internal/k8s/manager.go:146-229 | handling one more ready device keeps the account of keys, runs, flags, goroutines and requests exact |
| K8sFields.AskedLow | internal/k8s/manager.go:161-172 | a request below the battery threshold is made if and only if some device that Reconcile asks for is at such a level |
| K8sPasses.PlacedStep | internal/k8s/manager.go:117-172 | handling one more ready device places it, unless a pod that no list call selects holds its name, and takes nothing from those already placed |
| K8sFields.FinishedByPhase | internal/k8s/manager.go:515-517 | finished means: succeeded, failed, or running with the first container called tests terminated, given by index; never pending or unknown |
| K8sFields.CheckSweeps | internal/k8s/manager.go:488-533 | from the specification of the pass to each pod's fate by phase, its key among the reported ones and its new run |
| K8sFields.IndexedByLabel | internal/k8s/manager.go:121-128 | the specified index by position in the list, which the loop is proved to compute |
| K8sFields.ReadyByIndex | internal/k8s/manager.go:130-136 | the ready devices are the serials with an entry in state device, and the last such entry counts |
| K8sFields.ImageByPlatform | internal/k8s/manager.go:148-156 | an iOS device counts the iOS test image, any other the test image |
| K8sFields.ReconcileBrings | internal/k8s/manager.go:106-229 | from the specification of the pass to every labelled pod's fate by phase, device and image, the devices asked for, and the devices placed |
| K8sLifecycle.SettleGoroutine | internal/k8s/manager.go:402-422 | a device in `stabilizing` always has a sleeping settle goroutine |
| K8sLifecycle.ReadyUntilPod | internal/k8s/manager.go:271-469 | no device is stranded: from every valid state, ready, settled and charged to 35, it has a pod unless a call failed or its name is taken |
| K8sLifecycle.BatteryUpdates | internal/k8s/manager.go:436-469 | along any sequence of levels after a deferral nothing is requested before the first level of 35 or more, and at most one pod is requested in all |
| K8sLifecycle.CheckTwice | internal/k8s/manager.go:473-535 | the first pass adds one run per finished pod with a new key, a second pass adds none and changes nothing |
| DockerState.ListStep | internal/docker/manager.go:446-484 | one more container listed turns the records of the containers so far into those of one more |
| DockerState.RemovalHarmless | internal/docker/manager.go:623-626 | removing by the test name leaves every device its test container if and only if no other device holds the name, and otherwise that device loses a container it had |
| DockerState.RemovalHarms | internal/docker/manager.go:623-626 | two serials for which it does |
| DockerFields.NameMeans | internal/docker/manager.go:514-618 | a container's name letter by letter: the role's prefix, then the serial with every other character than letters, digits and the full stop turned into a hyphen |
| DockerFields.NamesClash | internal/docker/manager.go:1110-1119 | two serials share a container name if and only if they agree wherever either has a letter, a digit or a full stop |
| DockerFields.ModeMeans | internal/docker/manager.go:193-204 | a device is in its mode if and only if no test VID is configured or its cached VID and PID are the configured VID and PID up to letter case |
| DockerPorts.KillStep | internal/docker/manager.go:516-519 | the port freed by force is another device's exactly when a stray container is around and the device is new |
| DockerPorts.ApartStep | internal/docker/manager.go:302-334 | whatever an attempt ends in, two devices share a port afterwards exactly if some attempt put a container on a port another one had, and devices still to come have their ports to themselves |
| DockerPorts.ShapeStep | internal/docker/manager.go:302-334 | one attempt moves the ports from all recorded, to one stray container on the least free port, to a clash, exactly as its outcome says |
| DockerPorts.PortsAfterPass | internal/docker/manager.go:276-334 | over every sequence of outcomes: ports are distinct afterwards if and only if no attempt collided; and when none borrowed a container, if and only if no leak of a new device is followed by another new device's container, and no foreign port was freed if and only if none is followed by a new device's attempt |
| DockerPorts.DistinctAllAlong | internal/docker/manager.go:276-334 | along a whole run ports are distinct at every moment if and only if no pass has such outcomes |
| DockerPorts.LeakThenStart | internal/docker/manager.go:594-597 | a pass over two new devices that ends with both on one port |
| DockerPorts.LeakThenFail | internal/docker/manager.go:594-597 | a leak alone does not make ports clash, though the stray container's port is freed by force |
| DockerPorts.BorrowThenStart | internal/docker/manager.go:573-590 | a pass without any leak that ends in a clash, because a name conflict was answered with another device's container |
| DockerTasks.ResultBooked | internal/docker/manager.go:352-372 | booking a finished test keeps all three ledgers: flags, owed updates and reported keys |
| DockerPass.TwoPassesSettle | internal/docker/manager.go:276-388 | after two passes a device needs nothing; ready in the right mode means Appium up, disconnected in the right mode means no container |
| DockerPass.OnePassIsNotEnough | internal/docker/manager.go:352-363 | one pass does not suffice: a stale test container is removed first and replaced only next time |
| DockerFrames.BothHalves | internal/docker/manager.go:276-388 | the Appium half and the test half together move one device as a pass should and leave the other devices alone |
| DockerFrames.LoopStep | internal/docker/manager.go:277-388 | one iteration keeps the creation loop's invariant, whichever device comes next |
| DockerSettle.RemovedStep | internal/docker/manager.go:264-274 | one iteration keeps the removal loop's invariant: only disconnected devices in the right mode lose containers |
| DockerSettle.WholePass | internal/docker/manager.go:229-391 | a whole pass acts only on devices that need something, changes nothing if none does, starts nothing for rebooting devices, and without faults and name clashes brings every device where one pass should |
| DockerSettle.TwoPassesEnough | internal/docker/manager.go:229-391 | two passes without faults settle every device |
| DockerSettle.FixedPoint | internal/docker/manager.go:229-391 | from the second pass on, no further pass creates, removes or reports anything |
| DockerFields.PassMeans | internal/docker/manager.go:229-391 | a pass without faults, in labels and states: in the right mode a ready device has Appium running and its tests follow, a disconnected one has no container; in the wrong mode, unless its Appium runs, a device has what it had |
| DockerFields.AloneMeans | internal/docker/manager.go:263-282 | whatever fails, no Docker call is made for a device in the wrong mode, unless it is ready and its Appium runs |
| DockerFields.TwoPassesMean | internal/docker/manager.go:229-391 | the same for the state after two passes without faults |
| DockerManager.Manager.constructor | internal/docker/manager.go:161-173 | a fresh manager on any correctly named containers satisfies the invariant |
| DockerManager.Manager.StepTask | internal/docker/manager.go:872-909 | each atomic step of a reboot task: a failed reboot clears the flag before recording the boot, a good one records first and clears last; the good branch stores a good boot in the task's own row, the failed one a failed boot, and no other row changes |
| DockerManager.Manager.RunTask | internal/docker/manager.go:872-935 | a whole reboot task without faults: its row holds the outcome of the reboot, every other row is as it was, and the device is not flagged |
| DockerManager.Manager.RebootExclusive | internal/docker/manager.go:369-372 | a device is flagged exactly while one task has not cleared it, and then all its test containers are reported |
| DockerManager.Manager.BootConservation | internal/docker/manager.go:926-970 | runs are the runs updated plus the runs owed by one reboot task each, none updated twice, none from a container twice |
| DockerManager.Manager.NextPort | internal/docker/manager.go:488-500 | terminates with the least port from the base that no record uses, at most the base plus the number of records |
| DockerManager.Manager.FillUsed | internal/docker/manager.go:489-494 | the loop collects exactly the positive ports on record |
| DockerManager.Manager.CreateAndStart | internal/docker/manager.go:571-597 | a taken name is refused; otherwise the container runs, is gone again, or is left created when its removal fails too |
| DockerManager.Manager.CreateAppium | internal/docker/manager.go:509-607 | one attempt: the other devices' ports when its own is freed by force, how it ended, and after a name conflict whose container it uses |
| DockerManager.Manager.ReplaceAppium | internal/docker/manager.go:288-333 | records and containers are those of that one attempt, on the device's own port or the least free one; without faults the device's new container runs and is on record |
| DockerManager.Manager.EnsureAppium | internal/docker/manager.go:279-338 | the Appium half: running is kept, wrong mode is skipped, else exactly one attempt on the device's own or the least free port, with the record that results; the live USB data is stored exactly when a device without containers got Appium |
| DockerManager.Manager.EnsureTest | internal/docker/manager.go:340-388 | the test half: running is kept, stopped is removed and reported once, rebooting is left, else a test starts |
| DockerManager.Manager.CreateTest | internal/docker/manager.go:614-665 | whatever holds the name is removed first; if that succeeds every other device keeps its containers if and only if none held the name, and otherwise the holder has lost its test container; then a creation is attempted exactly if the battery level is unknown or at least 29 |
| DockerManager.Manager.BookResult | internal/docker/manager.go:352-372 | the key is reported, the device flagged, and exactly one reboot task started; without faults the table has one row more, for this container and device, and the task reboots for that row |
| DockerManager.Manager.EnsureAll | internal/docker/manager.go:276-388 | the creation loop in any order keeps its invariant and makes one attempt for each device that needs Appium; from distinct ports those attempts decide whether ports are distinct afterwards and whether a foreign port was freed |
| DockerManager.Manager.ListManaged | internal/docker/manager.go:436-485 | one record per device with containers, saying exactly what they are, whatever the order |
| DockerManager.Manager.RemoveAll | internal/docker/manager.go:263-274 | the removal loop in any order removes exactly the containers of disconnected devices in the right mode |
| DockerManager.Manager.ReadyOf | internal/docker/manager.go:250-261 | the ready devices are those with an entry whose state is device |
| DockerManager.Manager.Reconcile | internal/docker/manager.go:229-391 | one pass, with all it keeps: the invariant, the pass relation, and from distinct ports the exact outcomes of its attempts after which ports are distinct and no foreign port was freed; device by device what becomes of its containers, given the list, the cached USB IDs and the configured ones; nothing for a device in the wrong mode; and cached USB data as before or as the USB tree has it |
| DockerManager.Manager.ReconcileTimes | internal/docker/manager.go:229-391 | any number of passes over one device list: after two without faults every ready device in its mode has Appium running, every disconnected one in its mode has no container, all is settled, and later passes do nothing |
| DockerManager.Manager.Run | internal/docker/manager.go:276-334 | over any schedule of passes, reboot steps, USB and container events, ports are distinct at every moment if and only if no attempt of the run collides, and when none borrows a container, if and only if no pass has a leak followed by a new device's container |
| UsbMonitor.ByPathIsLast | internal/usb/monitor.go:45-48 | the index holds, for every path listed, the last device listed there |
| UsbMonitor.SnapshotShows | internal/usb/monitor.go:39-48 | the specified snapshot is that one, field by field |
| UsbMonitor.TallyLogged | internal/usb/monitor.go:56-99 | path by path: which event with which mode, and which mode-change call with which VID and PID, given what was and is at the path |
| UsbMonitor.LivesStep | internal/usb/monitor.go:56-99 | an event that fits keeps every path's log a prefix of (appeared mode_change* disappeared)*, alive exactly when the replay has the path |
| UsbMonitor.Finished | internal/usb/monitor.go:56-101 | after both loops all events replay to the new snapshot, and the stored ones do if and only if none was lost |
| UsbMonitor.NothingDue | internal/usb/monitor.go:56-99 | no event if and only if no path's VID, PID or ADB flag changed |
| UsbMonitor.Monitor.Index | internal/usb/monitor.go:39-48 | for every path listed the snapshot has vid, pid and serial of the last device listed there, in ADB exactly if ADB lists its serial, with the listed flag kept when it has none; no other path is in it |
| UsbMonitor.Monitor.Record | internal/usb/monitor.go:104-108 | a failed insert loses the event |
| UsbMonitor.Monitor.Poll | internal/usb/monitor.go:31-102 | the new snapshot is the listed devices, field by field, with ADB's list deciding the flag; per path exactly the event and the mode-change call that are due; nothing exactly when nothing changed; and from a log in step, the stored log replays to the snapshot if and only if no insert failed |
| UsbMonitor.Monitor.PollAll | internal/usb/monitor.go:31-102 | after any sequence of polls all events replay to the last snapshot, which shows the last list, and so does the stored log if no insert failed |
| Trigger.StepKeeps | main.go:326-341 | every step keeps: no lost request, no blocking drain, no more runs than requests |
| Trigger.NothingLost | main.go:326-341 | in every interleaving a request newer than the last run start has a token or a consumer committed to a run |
| Trigger.EveryRequestServed | main.go:326-341 | every request is covered by a run once the consumer has had a fixed number of steps and two more for each later request |
| Trigger.Coalesce | main.go:327-333 | any number of requests before the receive and during the sleep after it share one run, which starts with the channel empty after three steps of the consumer, or five if there is something to drain |
| Trigger.Coalescer.Request | main.go:337-340 | a request never blocks and leaves a token |
| Trigger.Coalescer.Interleave | main.go:326-341 | both sides in any order follow the step function, and requests are served as stated |
| Snapshot.SortedUnique | main.go:392 | sorting leaves nothing but the multiset |
| Snapshot.JoinInjective | main.go:393 | parts without commas can be read back from the joined string |
| Snapshot.Canonical | main.go:387-394 | for serials and states free of separators two lists have the same snapshot if and only if they hold the same multiset of pairs |
| Snapshot.SeparatorsCollide | main.go:387-394 | with separators inside, different lists can have the same snapshot |
| Snapshot.DeviceSnapshot | main.go:387-394 | the filled, sorted and joined array is that snapshot |
| Snapshot.Tracker.OnChange | main.go:368-374 | the callback skips exactly when the devices are those of the last accepted list, a reconnect counting as the empty list |
| Snapshot.CanonEmpty | main.go:387-394 | the empty list is the only one with the empty snapshot |
| Snapshot.Tracker.OnReconnect | main.go:375-377 | after it exactly the empty list counts as already seen |
| Snapshot.Tracker.Follow | main.go:367-377 | over any sequence of callbacks the passes are exactly those that a deduplication by content lets through |
| Snapshot.EmptyAfterReconnect | main.go:375-377 | an empty list right after a reconnect leads to no pass |
| AdbFraming.LengthRoundTrip | internal/adb/client.go:144-146 | every length up to 65535 is read back from its four hexadecimal digits |
| AdbFraming.LengthMeans | internal/adb/client.go:144-146 | any non-empty string of hexadecimal digits in either case is read as its value, with a sign in front as plus or minus it |
| AdbFraming.PanicsWhenNegative | internal/adb/client.go:144-150 | the loop asks for a buffer of negative length exactly for a header of a minus sign and three hexadecimal digits that are not all zero |
| AdbFraming.PanicsOnMinusOne | internal/adb/client.go:144-150 | "-001" is such a header |
| AdbFraming.FrameFirst | internal/adb/client.go:131-154 | a whole frame at the front is delivered, whatever follows |
| AdbFraming.FramesRoundTrip | internal/adb/client.go:131-158 | the loop delivers exactly the payloads that were framed, in order |
| AdbFraming.CutOff | internal/adb/client.go:136-152 | cut off after any number of bytes, exactly the payloads of the whole frames are delivered |
| AdbFraming.FieldsTrim | internal/adb/client.go:52-56 | trimming a line first does not change its fields |
| AdbFraming.ParseDeviceList | internal/adb/client.go:49-63 | the loop collects the first two fields of every line that has two |
| AdbFraming.EntryRoundTrip | internal/adb/client.go:56-60 | a printed device is read back whatever white space surrounds it and whatever follows |
| AdbFraming.ListRoundTrip | internal/adb/client.go:49-63 | any printed list of devices is parsed back in order, other lines being ignored |
| AdbFraming.LineMeans | internal/adb/client.go:51-60 | an ASCII line gives a device if and only if it is two words between blanks (code points 9 to 13 and 32), and then that device |
| AdbFraming.ListingRoundTrip | internal/adb/client.go:49-63 | any list of devices with visible ASCII serials and states, printed as serial, tab, state, newline, is parsed back exactly |
| AdbFraming.Conn.ReadFull | internal/adb/client.go:136-152 | fills the buffer with the next bytes or fails when too few are left |
| AdbFraming.ReadFrame | internal/adb/client.go:136-153 | one round of the loop reads one frame or ends for the stated reason |
| AdbFraming.TrackOnce | internal/adb/client.go:118-159 | the callback gets exactly the parsed payloads of the session, and the session ends as specified |
| AdbFraming.EndToEnd | internal/adb/client.go:118-159 | lists printed, framed and cut off anywhere reach the callback as those lists, up to the last whole frame |
| Stats.SpreadOrdered | internal/store/store.go:329-343 | over a non-empty column min <= avg <= max, and both bounds are values that occur |
| Stats.GroupsAddUp | internal/store/store.go:324-356 | whatever is summed per device adds up, over all devices, to its sum over all runs |
| Stats.CountsOrdered | internal/store/store.go:326-328 | for non-negative counts failed runs are the runs whose verdict is not PASS, at most the failures, at most the tests |
| Stats.StatsOrdered | internal/store/store.go:304-309 | one device's numbers are in order, its pass rate lies in 0 to 100, times all tests it is the hundredfold of those passed, it is 100 exactly without failed runs, and each spread is tight or zero |
| Stats.GroupChosen | internal/store/store.go:347-356 | grouping and filtering leave exactly the device's runs that finished within the bounds, each as often as it is in the table |
| Stats.StatsMean | internal/store/store.go:321-346 | counts, sums and each average, minimum and maximum are those of the runs that each column's condition on the run's fields selects |
| Stats.Conservation | internal/store/store.go:321-356 | total runs over all devices are the runs in the window, total tests likewise |
| Stats.BootKeepsCounts | internal/store/store.go:229-236 | a boot update changes no count of any device in any window |
| Stats.Store.Insert | internal/store/store.go:193-225 | one new row with the next number, or nothing |
| Stats.Store.UpdateBoot | internal/store/store.go:229-236 | only the boot columns of that one row change, and no count |
| Stats.Store.SetHasLogs | internal/store/store.go:238-241 | only the log flag of that one row changes, and no count |
| Stats.Store.Stats | internal/store/store.go:321-426 | exactly the devices with a run finished within the bounds, once each, each with the counts, sums, averages and bounds over those runs; conserved and in order |

## Left out

- HTTP, Kubernetes REST, the Docker SDK, kubectl and adb calls: only their effect (success, failure, map update) is modelled, as an arbitrary outcome.
- Docker mode with `K8sNamespace` set: `main` never sets it.
- DockerManager.Manager.CreateAppium: a name conflict counts as a failed call, and which container Docker's name filter lists first is arbitrary; a port label of "0" is read like a missing one.
- DockerManager.Manager.Reconcile: one pass is one atomic step; `main.go:333` and `main.go:374` can call it from two goroutines without a lock, and such overlapping passes are not modelled.
- DockerManager.Manager.CreateTest: a refusal for low battery counts as a fault, so the fixed point is stated for devices with enough battery.
- DockerManager.Manager.ListManaged: every managed container is an Appium or a test container; a managed container with another role label would only make an empty record.
- DockerFrames.VidMatch: letter case is folded for ASCII letters only, which is all that hexadecimal IDs have.
- K8sManager.Manager.OnDeviceReady: Info payload decoding is reduced to "no info", "info without level" and "info with level"; temperature is not modelled.
- K8sManager.Manager.RebootAndReport: the request to hub-server is one arbitrary outcome, and the boot duration stored is not modelled.
- K8sManager.Manager.CheckPods: handler contracts that mention the final cluster are for a handler no other activity interleaves with; the theorems in `K8sTheorems` cover all interleavings.
- Kubernetes graceful deletion: a pod that lingers after a delete behaves like a failed delete followed by the pod vanishing.
- Runs stored before the process started: the run table starts empty; identifiers then count from 1.
- Pod and container contents, log parsing, screenshots, report and log files, `adbEndpoints` and the models filled in by `populateModels`.
- Clock time: sleeps and timeouts are steps that happen at some later moment; a read timeout in the tracker is one way for a connection to end.
- AdbFraming.ParseDeviceList: a byte is a character, so white space outside ASCII is recognised by code point, not through UTF-8.
- Snapshot.SortStrings: the library sort is represented by its effect; strings are ordered by characters, which for UTF-8 bytes can be another order but the same canonical form.
- UsbMonitor.Monitor.Poll: reading sysfs and `adb devices` is the method's input; product, vendor and detail texts of an event are not modelled.
- Trigger.Coalescer.Interleave: the progress bound counts steps of the consumer; that the scheduler gives it steps is the runtime's promise.
- Stats.Store.Stats: the order of the devices, the model name, the last USB path and the last battery reading are not modelled, and averages are exact reals.
- SQLite mechanics, migrations and timestamp formats; the dashboard, its handlers and the SSE hub, whose one-slot notify is an easier copy of the trigger; `RunningDevices`, `fmtDuration`, `iosUDIDFromSerial`, `adbArgs` and environment parsing, which would add only easy members.
