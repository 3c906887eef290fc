/** Runs of the hub-mode engine: composition, histories, and what a stale list can do. */
module K8sRuns {
  import opened AdbDevices
  import opened K8sInvariants
  import opened K8sState
  import opened K8sTheorems
  import opened Ledger
  import opened Naming
  import opened Options
  import opened RunTable

  ghost predicate Runs(s: State, s': State)
  {
    exists es :: ExecAll(s, es) == s'
  }

  lemma RunsRefl(s: State)
    ensures Runs(s, s)
  {
    assert ExecAll(s, []) == s;
  }

  lemma RunsStep(s: State, g: State, e: Event)
    requires Runs(s, g)
    ensures Runs(s, Exec(g, e))
  {
    var es :| ExecAll(s, es) == g;
    assert (es + [e])[..|es|] == es;
    assert ExecAll(s, es + [e]) == Exec(g, e);
  }

  lemma {:induction false} ExecAllAppend(s: State, es: seq<Event>, fs: seq<Event>)
    ensures ExecAll(s, es + fs) == ExecAll(ExecAll(s, es), fs)
  {
    if fs == [] {
      assert es + fs == es;
    } else {
      ExecAllAppend(s, es, fs[..|fs| - 1]);
      assert (es + fs)[..|es + fs| - 1] == es + fs[..|fs| - 1];
    }
  }

  lemma {:induction false} LaterAlong(s: State, es: seq<Event>)
    requires Inv(s)
    ensures Inv(ExecAll(s, es)) && Later(s.sh, ExecAll(s, es).sh)
  {
    if es != [] {
      var g := ExecAll(s, es[..|es| - 1]);
      LaterAlong(s, es[..|es| - 1]);
      ExecInv(g, es[|es| - 1]);
    }
  }

  lemma RunsInv(s: State, s': State)
    requires Inv(s) && Runs(s, s')
    ensures Inv(s') && Later(s.sh, s'.sh)
  {
    var es :| ExecAll(s, es) == s';
    LaterAlong(s, es);
  }

  /** Between any two moments of any run the run table only grows, a stored run keeps
      its key and device, and a reported key is never forgotten. */
  lemma HistoryOnlyGrows(s0: State, es: seq<Event>, k: nat)
    requires Init(s0) && k <= |es|
    ensures Later(ExecAll(s0, es[..k]).sh, ExecAll(s0, es).sh)
  {
    var before, after := es[..k], es[k..];
    assert es == before + after;
    InitInv(s0);
    ReachableInv(s0, before);
    LaterAlong(ExecAll(s0, before), after);
    ExecAllAppend(s0, before, after);
  }

  // ── Deleting by name ──

  /** The pod object a collecting task is about to delete, as it was listed. */
  function ListedPod(pc: PC): Option<Pod>
  {
    match pc
    case Stale(p) => Some(p)
    case Claimed(p) => Some(p)
    case _ => None
  }

  /** A collector's delete removes only a pod whose key is already in `reported`, as
      long as the name still belongs to the pod that was listed. */
  lemma CollectorDeletesReported(s0: State, es: seq<Event>, id: nat, c: Choice)
    requires Init(s0)
    requires var s := ExecAll(s0, es);
             && id in s.tasks && ListedPod(s.tasks[id].pc).Some?
             && var p := ListedPod(s.tasks[id].pc).value; p.name in s.sh.pods && s.sh.pods[p.name].uid == p.uid
    ensures var s := ExecAll(s0, es);
            var p := ListedPod(s.tasks[id].pc).value;
            && PodKey(s.sh.pods[p.name]) in s.sh.reported
            && forall n :: n in s.sh.pods && n != p.name ==> n in Exec(s, Step(id, c)).sh.pods
  {
    InitInv(s0);
    ReachableInv(s0, es);
    var s := ExecAll(s0, es);
    assert TaskOk(s.sh, s.tasks[id]);
  }

  // ── How an unreported pod can disappear ──

  /** A task about to take a pod away without having claimed its key: Reconcile's loop over
      disconnected devices, the loop of `OnDeviceDeleted`, or a collector whose listed pod
      no longer has the name. */
  predicate Takes(s: State, task: Task, c: Choice, n: string)
    requires n in s.sh.pods
  {
    c.ok &&
    if task.pc == Idle then
      match task.rest
      case DeleteRest(names) => names != [] && names[0] == n
      case ReconRest(gone, _, bySerial) => c.pick in gone && c.pick in bySerial && bySerial[c.pick].name == n
      case _ => false
    else
      var p := ListedPod(task.pc);
      p.Some? && p.value.name == n && p.value.uid != s.sh.pods[n].uid
  }

  /** The pod is removed from outside, or by a task that may take it. */
  predicate Loses(s: State, e: Event, n: string)
    requires n in s.sh.pods
  {
    match e
    case Vanish(name) => name == n
    case Step(id, c) => id in s.tasks && c.id !in s.tasks && Takes(s, s.tasks[id], c, n)
    case _ => false
  }

  lemma IdleLoses(s: State, rest: Rest, c: Choice, n: string)
    requires n in s.sh.pods
    ensures var pods := StepIdle(s.cfg, s.sh, rest, c).sh.pods;
            (n !in pods <==> Takes(s, Task(Idle, rest), c, n)) && (n in pods ==> pods[n] == s.sh.pods[n])
  {
    match rest {
      case ReconRest(gone, ready, bySerial) =>
        if gone == {} { assert StepIdle(s.cfg, s.sh, rest, c).sh.pods == s.sh.pods; }
      case _ =>
    }
  }

  /** Listing and collecting, where the deletes are. */
  lemma CollectLoses(s: State, task: Task, c: Choice, n: string)
    requires TaskOk(s.sh, task) && GroupOf(task.pc) == GCollect && n in s.sh.pods
    requires PodKnown(s.sh.owner, s.sh.pods[n]) && PodKey(s.sh.pods[n]) !in s.sh.reported
    ensures var pods := StepCollect(s.cfg, s.sh, task.pc, task.rest, c).sh.pods;
            (n !in pods <==> Takes(s, task, c, n)) && (n in pods ==> pods[n] == s.sh.pods[n])
  {
    assert PodKey(s.sh.pods[n]) == s.sh.pods[n].uid;
    if task.pc == Idle {
      IdleLoses(s, task.rest, c, n);
    } else if ListedPod(task.pc).Some? {
      assert PodKey(ListedPod(task.pc).value) == ListedPod(task.pc).value.uid;
    }
  }

  lemma StepLoses(s: State, id: nat, c: Choice, n: string)
    requires Inv(s) && n in s.sh.pods && PodKey(s.sh.pods[n]) !in s.sh.reported
    requires id in s.tasks && c.id !in s.tasks
    ensures n !in Exec(s, Step(id, c)).sh.pods <==> Takes(s, s.tasks[id], c, n)
    ensures n in Exec(s, Step(id, c)).sh.pods ==> Exec(s, Step(id, c)).sh.pods[n] == s.sh.pods[n]
  {
    assert TaskOk(s.sh, s.tasks[id]);
    if GroupOf(s.tasks[id].pc) == GCollect {
      CollectLoses(s, s.tasks[id], c, n);
    }
  }

  /** In every reachable state an unreported pod is taken away exactly by such an event, and
      what stays under the name is that pod. */
  lemma EventLoses(s: State, e: Event, n: string)
    requires Inv(s) && n in s.sh.pods && PodKey(s.sh.pods[n]) !in s.sh.reported
    ensures n !in Exec(s, e).sh.pods <==> Loses(s, e, n)
    ensures n in Exec(s, e).sh.pods ==> Exec(s, e).sh.pods[n].uid == s.sh.pods[n].uid
  {
    match e {
      case Step(id, c) => if id in s.tasks && c.id !in s.tasks { StepLoses(s, id, c, n); }
      case _ =>
    }
  }

  /** Whether the pod with this UID still has its name. */
  predicate Present(s: State, n: string, uid: string)
  {
    n in s.sh.pods && s.sh.pods[n].uid == uid
  }

  /** An event of the run that took the pod away while its key was unreported. */
  predicate LostAt(s0: State, es: seq<Event>, j: nat, n: string, uid: string)
    requires j < |es|
  {
    var s := ExecAll(s0, es[..j]);
    Present(s, n, uid) && uid !in s.sh.reported && Loses(s, es[j], n)
  }

  /** What became of a pod that had its name at moment `k`: it is still there, or its key has
      been claimed, or one of those events took it away. */
  ghost predicate Fate(s0: State, es: seq<Event>, k: nat, n: string, uid: string)
  {
    || Present(ExecAll(s0, es), n, uid) || uid in ExecAll(s0, es).sh.reported
    || exists j :: k <= j < |es| && LostAt(s0, es, j, n, uid)
  }

  /** Over the rest of any run an unreported pod can go in no other way. */
  lemma {:induction false} PodFate(s0: State, es: seq<Event>, k: nat, n: string)
    requires Init(s0) && k <= |es| && n in ExecAll(s0, es[..k]).sh.pods
    ensures Fate(s0, es, k, n, ExecAll(s0, es[..k]).sh.pods[n].uid)
    decreases |es|
  {
    if k == |es| {
      assert es[..k] == es;
    } else {
      var front, e := es[..|es| - 1], es[|es| - 1];
      assert front[..k] == es[..k] && front + [e] == es;
      PodFate(s0, front, k, n);
      FateStep(s0, front, e, k, n, ExecAll(s0, es[..k]).sh.pods[n].uid);
    }
  }

  lemma FateStep(s0: State, es: seq<Event>, e: Event, k: nat, n: string, uid: string)
    requires Init(s0) && k <= |es| && Fate(s0, es, k, n, uid)
    ensures Fate(s0, es + [e], k, n, uid)
  {
    var s, all := ExecAll(s0, es), es + [e];
    InitInv(s0);
    ReachableInv(s0, es);
    ExecInv(s, e);
    assert all[..|es|] == es && ExecAll(s0, all) == Exec(s, e);
    if j :| k <= j < |es| && LostAt(s0, es, j, n, uid) {
      assert all[..j] == es[..j] && all[j] == es[j];
      assert LostAt(s0, all, j, n, uid);
    } else if Present(s, n, uid) && uid !in s.sh.reported {
      PresentStep(s, e, n, uid);
      assert Loses(s, e, n) ==> LostAt(s0, all, |es|, n, uid);
    }
  }

  lemma PresentStep(s: State, e: Event, n: string, uid: string)
    requires Inv(s) && Present(s, n, uid) && uid !in s.sh.reported
    ensures Present(Exec(s, e), n, uid) <==> !Loses(s, e, n)
  {
    assert PodKey(s.sh.pods[n]) == uid;
    EventLoses(s, e, n);
  }

  // ── Where a stored boot result comes from ──

  /** Event `j` of the run is the reboot request for row `rid`, and it came out as `ok`. */
  predicate Tells(s0: State, es: seq<Event>, j: nat, rid: nat, ok: bool)
    requires j < |es|
  {
    var s := ExecAll(s0, es[..j]);
    && es[j].Step? && es[j].id in s.tasks && es[j].c.id !in s.tasks
    && s.tasks[es[j].id].pc.Rebooting? && s.tasks[es[j].id].pc.rid == rid && es[j].c.ok == ok
  }

  ghost predicate Told(s0: State, es: seq<Event>, rid: nat, ok: bool)
  {
    exists j :: 0 <= j < |es| && Tells(s0, es, j, rid, ok)
  }

  /** What a task knows about the outcome for its row. */
  ghost predicate TaskTold(s0: State, es: seq<Event>, pc: PC)
  {
    match pc
    case UpdateOk(_, rid) => Told(s0, es, rid, true)
    case UpdateFailed(_, rid) => Told(s0, es, rid, false)
    case RebootFailed(_, rid) => Told(s0, es, rid, false)
    case Saved(_, rid) => rid != 0 ==> !Told(s0, es, rid, true) && !Told(s0, es, rid, false)
    case Marked(_, rid) => rid != 0 ==> !Told(s0, es, rid, true) && !Told(s0, es, rid, false)
    case Rebooting(_, rid) => rid != 0 ==> !Told(s0, es, rid, true) && !Told(s0, es, rid, false)
    case _ => true
  }

  ghost predicate RowTold(s0: State, es: seq<Event>, row: Row, rid: nat)
  {
    row.boot.Some? ==> Told(s0, es, rid, row.boot.value)
  }

  /** Stored results were told, tasks know what was told, and nothing was told of later rows. */
  ghost predicate BootsTold(s0: State, es: seq<Event>)
  {
    var s := ExecAll(s0, es);
    && (forall i :: 0 <= i < |s.sh.rows| ==> RowTold(s0, es, s.sh.rows[i], i + 1))
    && (forall t :: t in s.tasks ==> TaskTold(s0, es, s.tasks[t].pc))
    && (forall rid, ok :: rid > |s.sh.rows| ==> !Told(s0, es, rid, ok))
  }

  lemma TellsOn(s0: State, es: seq<Event>, e: Event, j: nat, rid: nat, ok: bool)
    requires j < |es|
    ensures Tells(s0, es + [e], j, rid, ok) <==> Tells(s0, es, j, rid, ok)
  {
    assert (es + [e])[..j] == es[..j];
  }

  /** One more event tells at most what it says itself. */
  lemma ToldStep(s0: State, es: seq<Event>, e: Event, rid: nat, ok: bool)
    ensures Told(s0, es + [e], rid, ok) <==> Told(s0, es, rid, ok) || Tells(s0, es + [e], |es|, rid, ok)
  {
    forall j | 0 <= j < |es| ensures Tells(s0, es + [e], j, rid, ok) <==> Tells(s0, es, j, rid, ok) {
      TellsOn(s0, es, e, j, rid, ok);
    }
    if Tells(s0, es + [e], |es|, rid, ok) { assert Told(s0, es + [e], rid, ok); }
    if Told(s0, es, rid, ok) {
      var j :| 0 <= j < |es| && Tells(s0, es, j, rid, ok);
      assert Tells(s0, es + [e], j, rid, ok);
    }
  }

  /** The rows after one step of a task: a result is stored only by an update step, for the
      row it names and with the outcome it stands for. */
  lemma StepRows(cfg: Config, sh: Shared, task: Task, c: Choice, i: nat)
    requires var rows := Local(cfg, sh, task, c).sh.rows; i < |rows| && rows[i].boot.Some?
    ensures StoresAt(sh.rows, task.pc, Local(cfg, sh, task, c).sh.rows, i)
  {
    if GroupOf(task.pc) != GReboot {
      OtherRows(cfg, sh, task, c);
    } else {
      RebootRows(sh, task.pc, task.rest, c, i);
    }
  }

  predicate StoresAt(rows: seq<Row>, pc: PC, rows': seq<Row>, i: nat)
    requires i < |rows'|
  {
    || (i < |rows| && rows'[i].boot == rows[i].boot)
    || (pc.UpdateOk? && pc.rid == i + 1 && rows'[i].boot == Some(true))
    || (pc.UpdateFailed? && pc.rid == i + 1 && rows'[i].boot == Some(false))
  }

  lemma RebootRows(sh: Shared, pc: PC, rest: Rest, c: Choice, i: nat)
    requires i < |StepReboot(sh, pc, rest, c).sh.rows|
    ensures StoresAt(sh.rows, pc, StepReboot(sh, pc, rest, c).sh.rows, i)
  {}

  /** Nothing but new rows without a result. */
  predicate Grown(rows: seq<Row>, rows': seq<Row>)
  {
    rows <= rows' && forall i :: |rows| <= i < |rows'| ==> rows'[i].boot == None
  }

  lemma CollectRows(cfg: Config, sh: Shared, pc: PC, rest: Rest, c: Choice)
    ensures Grown(sh.rows, StepCollect(cfg, sh, pc, rest, c).sh.rows)
  {
    if pc.Deleted? { assert c.dbOk ==> Insert(sh.rows, PodKey(pc.pod), pc.pod.device)[|sh.rows|].boot == None; }
  }

  lemma QuietRows(cfg: Config, sh: Shared, pc: PC, rest: Rest, c: Choice)
    ensures StepCreate(sh, pc, rest, c).sh.rows == sh.rows && StepReady(cfg, sh, pc, rest).sh.rows == sh.rows
    ensures StepHandler(sh, pc, rest, c).sh.rows == sh.rows
  {}

  lemma OtherRows(cfg: Config, sh: Shared, task: Task, c: Choice)
    requires GroupOf(task.pc) != GReboot
    ensures Grown(sh.rows, Local(cfg, sh, task, c).sh.rows)
  {
    if GroupOf(task.pc) == GCollect {
      CollectRows(cfg, sh, task.pc, task.rest, c);
    } else {
      QuietRows(cfg, sh, task.pc, task.rest, c);
    }
  }

  /** How a task gets to the steps around the reboot. */
  lemma StepPc(cfg: Config, sh: Shared, task: Task, c: Choice)
    ensures MovesFrom(sh, task.pc, c, Local(cfg, sh, task, c))
  {
    match GroupOf(task.pc)
    case GCollect => CollectPc(cfg, sh, task.pc, task.rest, c);
    case GCreate => CreatePc(sh, task.pc, task.rest, c);
    case GReboot => RebootPc(sh, task.pc, task.rest, c);
    case GReady => ReadyPc(cfg, sh, task.pc, task.rest, c);
    case GHandler => HandlerPc(sh, task.pc, task.rest, c);
  }

  predicate MovesFrom(sh: Shared, pc: PC, c: Choice, f: Effect)
  {
    && (f.next.Some? ==> PcFrom(sh, pc, c, f.next.value.pc))
    && (f.spawn.Some? ==> PcFrom(sh, pc, c, f.spawn.value.pc))
  }

  lemma CollectPc(cfg: Config, sh: Shared, pc: PC, rest: Rest, c: Choice)
    ensures MovesFrom(sh, pc, c, StepCollect(cfg, sh, pc, rest, c))
  {}

  lemma CreatePc(sh: Shared, pc: PC, rest: Rest, c: Choice)
    requires GroupOf(pc) == GCreate
    ensures MovesFrom(sh, pc, c, StepCreate(sh, pc, rest, c))
  {}

  lemma RebootPc(sh: Shared, pc: PC, rest: Rest, c: Choice)
    requires GroupOf(pc) == GReboot
    ensures MovesFrom(sh, pc, c, StepReboot(sh, pc, rest, c))
  {}

  lemma ReadyPc(cfg: Config, sh: Shared, pc: PC, rest: Rest, c: Choice)
    requires GroupOf(pc) == GReady
    ensures MovesFrom(sh, pc, c, StepReady(cfg, sh, pc, rest))
  {}

  lemma HandlerPc(sh: Shared, pc: PC, rest: Rest, c: Choice)
    requires GroupOf(pc) == GHandler
    ensures MovesFrom(sh, pc, c, StepHandler(sh, pc, rest, c))
  {}

  predicate PcFrom(sh: Shared, pc: PC, c: Choice, pc': PC)
  {
    match pc'
    case UpdateOk(_, rid) => pc.Rebooting? && pc.rid == rid && c.ok
    case RebootFailed(_, rid) => pc.Rebooting? && pc.rid == rid && !c.ok
    case UpdateFailed(_, rid) => pc.RebootFailed? && pc.rid == rid
    case Saved(_, rid) => pc.Deleted? && (rid == 0 || rid == |sh.rows| + 1)
    case Marked(_, rid) => pc.Saved? && pc.rid == rid
    case Rebooting(_, rid) => pc.Marked? && pc.rid == rid
    case _ => true
  }

  /** Does the event tell something about a row at all? */
  lemma OnlyRebootTells(s0: State, es: seq<Event>, e: Event, rid: nat, ok: bool)
    ensures var s := ExecAll(s0, es);
            Tells(s0, es + [e], |es|, rid, ok) <==>
              && e.Step? && e.id in s.tasks && e.c.id !in s.tasks
              && s.tasks[e.id].pc.Rebooting? && s.tasks[e.id].pc.rid == rid && e.c.ok == ok
  {
    assert (es + [e])[..|es|] == es;
  }

  /** A task that did not move still knows what it knew: nobody else's reboot is for its row. */
  lemma OtherTaskTold(s0: State, es: seq<Event>, e: Event, t: nat)
    requires Inv(ExecAll(s0, es)) && BootsTold(s0, es) && t in ExecAll(s0, es).tasks
    requires e.Step? && e.c.id !in ExecAll(s0, es).tasks ==> e.id != t
    ensures TaskTold(s0, es + [e], ExecAll(s0, es).tasks[t].pc)
  {
    var s := ExecAll(s0, es);
    var pc := s.tasks[t].pc;
    if Debt(pc).Some? {
      var rid := Debt(pc).value.1;
      ToldStep(s0, es, e, rid, true);
      ToldStep(s0, es, e, rid, false);
      OnlyRebootTells(s0, es, e, rid, true);
      OnlyRebootTells(s0, es, e, rid, false);
      if rid != 0 && e.Step? && e.id in s.tasks && Debt(s.tasks[e.id].pc).Some?
          && Debt(s.tasks[e.id].pc).value.1 == rid {
        OwedByOne(s, rid);
        assert OwesRow(s, t, rid) && OwesRow(s, e.id, rid);
      }
    }
  }

  /** The task that moved, or the one it started. */
  lemma MovedTaskTold(s0: State, es: seq<Event>, id: nat, c: Choice, pc: PC)
    requires Inv(ExecAll(s0, es)) && BootsTold(s0, es)
    requires var s := ExecAll(s0, es);
             id in s.tasks && c.id !in s.tasks && PcFrom(s.sh, s.tasks[id].pc, c, pc)
    ensures TaskTold(s0, es + [Step(id, c)], pc)
  {
    var s, e := ExecAll(s0, es), Step(id, c);
    if Debt(pc).Some? {
      var rid := Debt(pc).value.1;
      ToldStep(s0, es, e, rid, true);
      ToldStep(s0, es, e, rid, false);
      OnlyRebootTells(s0, es, e, rid, true);
      OnlyRebootTells(s0, es, e, rid, false);
      assert TaskTold(s0, es, s.tasks[id].pc);
    }
  }

  lemma TasksTold(s0: State, es: seq<Event>, e: Event)
    requires Inv(ExecAll(s0, es)) && BootsTold(s0, es)
    ensures var s' := ExecAll(s0, es + [e]); forall t :: t in s'.tasks ==> TaskTold(s0, es + [e], s'.tasks[t].pc)
  {
    var s := ExecAll(s0, es);
    assert (es + [e])[..|es|] == es;
    var s' := Exec(s, e);
    forall t | t in s'.tasks ensures TaskTold(s0, es + [e], s'.tasks[t].pc) {
      if t in s.tasks && (e.Step? && e.c.id !in s.tasks ==> e.id != t) {
        assert s'.tasks[t] == s.tasks[t];
        OtherTaskTold(s0, es, e, t);
      } else if e.Step? {
        StepPc(s.cfg, s.sh, s.tasks[e.id], e.c);
        MovedTaskTold(s0, es, e.id, e.c, s'.tasks[t].pc);
      }
    }
  }

  lemma RowsTold(s0: State, es: seq<Event>, e: Event, i: nat)
    requires BootsTold(s0, es) && i < |ExecAll(s0, es + [e]).sh.rows|
    ensures RowTold(s0, es + [e], ExecAll(s0, es + [e]).sh.rows[i], i + 1)
  {
    var s := ExecAll(s0, es);
    assert (es + [e])[..|es|] == es;
    var row := Exec(s, e).sh.rows[i];
    if row.boot.Some? {
      ToldStep(s0, es, e, i + 1, row.boot.value);
      RowFrom(s0, es, e, i);
    }
  }

  lemma RowFrom(s0: State, es: seq<Event>, e: Event, i: nat)
    requires BootsTold(s0, es) && i < |Exec(ExecAll(s0, es), e).sh.rows|
    requires Exec(ExecAll(s0, es), e).sh.rows[i].boot.Some?
    ensures Told(s0, es, i + 1, Exec(ExecAll(s0, es), e).sh.rows[i].boot.value)
  {
    var s := ExecAll(s0, es);
    if e.Step? && e.id in s.tasks && e.c.id !in s.tasks {
      SteppedRow(s0, es, s.tasks[e.id], e.c, i);
    } else {
      assert Exec(s, e).sh.rows == s.sh.rows;
      assert RowTold(s0, es, s.sh.rows[i], i + 1);
    }
  }

  lemma SteppedRow(s0: State, es: seq<Event>, task: Task, c: Choice, i: nat)
    requires BootsTold(s0, es) && TaskTold(s0, es, task.pc)
    requires var s := ExecAll(s0, es);
             var rows := Local(s.cfg, s.sh, task, c).sh.rows; i < |rows| && rows[i].boot.Some?
    ensures var s := ExecAll(s0, es); Told(s0, es, i + 1, Local(s.cfg, s.sh, task, c).sh.rows[i].boot.value)
  {
    var s := ExecAll(s0, es);
    StepRows(s.cfg, s.sh, task, c, i);
    assert i < |s.sh.rows| ==> RowTold(s0, es, s.sh.rows[i], i + 1);
  }

  lemma BootsStep(s0: State, es: seq<Event>, e: Event)
    requires Inv(ExecAll(s0, es)) && BootsTold(s0, es)
    ensures BootsTold(s0, es + [e])
  {
    var s := ExecAll(s0, es);
    assert (es + [e])[..|es|] == es;
    TasksTold(s0, es, e);
    ExecInv(s, e);
    var s' := Exec(s, e);
    forall i | 0 <= i < |s'.sh.rows| ensures RowTold(s0, es + [e], s'.sh.rows[i], i + 1) {
      RowsTold(s0, es, e, i);
    }
    forall rid: nat, ok | rid > |s'.sh.rows| ensures !Told(s0, es + [e], rid, ok) {
      ToldStep(s0, es, e, rid, ok);
      OnlyRebootTells(s0, es, e, rid, ok);
      if e.Step? && e.id in s.tasks { assert TaskOk(s.sh, s.tasks[e.id]); }
    }
  }

  lemma {:induction false} BootsAlong(s0: State, es: seq<Event>)
    requires Init(s0)
    ensures BootsTold(s0, es)
  {
    if es == [] {
      assert ExecAll(s0, es) == s0;
    } else {
      var front, e := es[..|es| - 1], es[|es| - 1];
      assert front + [e] == es;
      BootsAlong(s0, front);
      InitInv(s0);
      ReachableInv(s0, front);
      BootsStep(s0, front, e);
    }
  }

  /** One row's reboot is requested at most once in a run. */
  lemma NotToldAgain(s0: State, es: seq<Event>, j: nat, k: nat, rid: nat, ok: bool, ok': bool)
    requires Init(s0) && j < k < |es| && rid != 0 && Tells(s0, es, j, rid, ok)
    ensures !Tells(s0, es, k, rid, ok')
  {
    var front := es[..k];
    BootsAlong(s0, front);
    assert front[..j] == es[..j] && front[j] == es[j];
    assert Tells(s0, front, j, rid, ok);
    assert Told(s0, front, rid, ok);
    assert forall t :: t in ExecAll(s0, front).tasks ==> TaskTold(s0, front, ExecAll(s0, front).tasks[t].pc);
  }

  /** The run made exactly one reboot request for the row, and it came out as `ok`. */
  ghost predicate ToldOnce(s0: State, es: seq<Event>, rid: nat, ok: bool)
  {
    exists j :: 0 <= j < |es| && Tells(s0, es, j, rid, ok)
             && forall k, ok' :: 0 <= k < |es| && k != j ==> !Tells(s0, es, k, rid, ok')
  }

  /** In every run, the boot result stored in a row is the outcome of the one reboot request
      made for that row. */
  lemma StoredIsOutcome(s0: State, es: seq<Event>, rid: nat)
    requires Init(s0) && 1 <= rid <= |ExecAll(s0, es).sh.rows| && ExecAll(s0, es).sh.rows[rid - 1].boot.Some?
    ensures ToldOnce(s0, es, rid, ExecAll(s0, es).sh.rows[rid - 1].boot.value)
  {
    BootsAlong(s0, es);
    var row := ExecAll(s0, es).sh.rows[rid - 1];
    assert RowTold(s0, es, row, rid - 1 + 1);
    var j :| 0 <= j < |es| && Tells(s0, es, j, rid, row.boot.value);
    forall k, ok | 0 <= k < |es| && k != j ensures !Tells(s0, es, k, rid, ok) {
      if j < k {
        NotToldAgain(s0, es, j, k, rid, row.boot.value, ok);
      } else if Tells(s0, es, k, rid, ok) {
        NotToldAgain(s0, es, k, j, rid, ok, row.boot.value);
      }
    }
  }

  // ── Runs built step by step ──

  /** One event of a run, with the run so far carried along. */
  lemma Then(s0: State, g: State, e: Event) returns (g': State)
    requires Runs(s0, g)
    ensures g' == Exec(g, e) && Runs(s0, g')
  {
    RunsStep(s0, g, e);
    g' := Exec(g, e);
  }

  /** One step of a task whose effect is known. */
  lemma Move(s0: State, g: State, id: nat, c: Choice, f: Effect) returns (g': State)
    requires Runs(s0, g) && id in g.tasks && c.id !in g.tasks
    requires Local(g.cfg, g.sh, g.tasks[id], c) == f
    ensures g' == State(g.cfg, f.sh, After(g.tasks, id, f.next, c.id, f.spawn)) && Runs(s0, g')
  {
    RunsStep(s0, g, Step(id, c));
    g' := Exec(g, Step(id, c));
  }

  function Plainly(id: nat): Choice
  {
    Choice(true, true, "", id, "", [])
  }

  /** A cluster with one finished, uncollected pod of `serial`. */
  function OneFinishedPod(cfg: Config, serial: Serial): State
  {
    var p := Pod(PodName(serial), "u1", true, serial, Succeeded, []);
    State(cfg,
          Shared(map[p.name := p], map["u1" := serial], {}, {}, {}, map[], map[], map[], [], {}),
          map[])
  }

  /** Two collectors list the finished pod; the first one claims and deletes it. */
  lemma TwoCollectors(cfg: Config, serial: Serial) returns (g: State)
    requires serial != ""
    ensures var s0 := OneFinishedPod(cfg, serial);
            var p := s0.sh.pods[PodName(serial)];
            && Runs(s0, g)
            && g.cfg == cfg
            && g.sh == s0.sh.(pods := map[], reported := {"u1"})
            && g.tasks == map[1 := Task(Deleted(p), CheckRest([])), 2 := Task(Idle, CheckRest([p]))]
  {
    var s0 := OneFinishedPod(cfg, serial);
    var p := s0.sh.pods[PodName(serial)];
    assert IsListing(s0.sh.pods, None, [p]);
    RunsRefl(s0);
    g := Then(s0, s0, Begin(1, CheckPods));
    g := Then(s0, g, Begin(2, CheckPods));
    assert g.tasks == map[1 := Task(ListCheck, NoRest), 2 := Task(ListCheck, NoRest)];
    g := Move(s0, g, 1, Choice(true, true, "", 9, "", [p]), Goto(s0.sh, Idle, CheckRest([p])));
    g := Move(s0, g, 2, Choice(true, true, "", 9, "", [p]), Goto(s0.sh, Idle, CheckRest([p])));
    var sh := s0.sh.(reported := {"u1"});
    assert [p][1..] == [];
    g := Move(s0, g, 1, Plainly(9), Goto(sh, Claimed(p), CheckRest([])));
    g := Move(s0, g, 1, Plainly(9), Goto(sh.(pods := map[]), Deleted(p), CheckRest([])));
  }

  /** The device reports ready while it has no pod and is not rebooting. */
  lemma ReadyToGate(s0: State, g0: State, dev: HubDevice) returns (g: State)
    requires Runs(s0, g0) && HasImage(g0.cfg, dev) && 3 !in g0.tasks && 9 !in g0.tasks
    requires g0.sh.pods == map[] && g0.sh.rebooting == {}
    ensures Runs(s0, g) && g.cfg == g0.cfg && g.tasks == g0.tasks[3 := Task(Gate(dev), NoRest)]
    ensures g.sh == g0.sh.(devices := g0.sh.devices[dev.serial := dev])
  {
    g := ReadyToList(s0, g0, dev);
    g := Move(s0, g, 3, Plainly(9), Goto(g.sh, Schedule(dev, true), NoRest));
    g := Move(s0, g, 3, Plainly(9), Goto(g.sh, Gate(dev), NoRest));
  }

  lemma ReadyToList(s0: State, g0: State, dev: HubDevice) returns (g: State)
    requires Runs(s0, g0) && HasImage(g0.cfg, dev) && 3 !in g0.tasks && 9 !in g0.tasks
    ensures Runs(s0, g) && g.cfg == g0.cfg && g.tasks == g0.tasks[3 := Task(ListOne(dev, ThenSchedule), NoRest)]
    ensures g.sh == g0.sh.(devices := g0.sh.devices[dev.serial := dev])
  {
    g := ReadyBegins(s0, g0, dev);
    g := Move(s0, g, 3, Plainly(9),
              Goto(g0.sh.(devices := g0.sh.devices[dev.serial := dev]), ListOne(dev, ThenSchedule), NoRest));
  }

  lemma ReadyBegins(s0: State, g0: State, dev: HubDevice) returns (g: State)
    requires Runs(s0, g0) && 3 !in g0.tasks && 9 !in g0.tasks
    ensures Runs(s0, g) && g == State(g0.cfg, g0.sh, g0.tasks[3 := Task(ReadyDevice(dev), NoRest)])
  {
    g := Then(s0, g0, Begin(3, DeviceReady(dev, None)));
    g := Move(s0, g, 3, Plainly(9), Goto(g.sh, ReadyDevice(dev), NoRest));
  }

  /** The create step of task 3, which then ends. */
  lemma CreateAndEnd(s0: State, g0: State, dev: HubDevice, uid: string) returns (g: State)
    requires Runs(s0, g0) && 9 !in g0.tasks && 3 in g0.tasks && g0.tasks[3] == Task(Create(dev), NoRest)
    ensures Runs(s0, g) && g == State(g0.cfg, CreatePod(g0.sh, dev.serial, true, uid), g0.tasks - {3})
  {
    var sh := CreatePod(g0.sh, dev.serial, true, uid);
    g := Move(s0, g0, 3, Choice(true, true, uid, 9, "", []), Goto(sh, Idle, NoRest));
    g := Move(s0, g, 3, Plainly(9), Effect(sh, None, None));
    assert g.tasks == g0.tasks - {3};
  }

  /** It gets its next pod, before the second collector moves on. */
  lemma FreshPod(s0: State, g0: State, dev: HubDevice) returns (g: State)
    requires Runs(s0, g0) && HasImage(g0.cfg, dev) && 3 !in g0.tasks && 9 !in g0.tasks
    requires g0.sh.pods == map[] && g0.sh.rebooting == {} && g0.sh.battery == map[] && "u2" !in g0.sh.owner
    ensures Runs(s0, g) && g.tasks == g0.tasks && g.sh.reported == g0.sh.reported
    ensures g.sh.pods == map[PodName(dev.serial) := NewPod(dev.serial, "u2")]
  {
    g := ReadyToGate(s0, g0, dev);
    g := Move(s0, g, 3, Plainly(9), Goto(g.sh, Create(dev), NoRest));
    g := CreateAndEnd(s0, g, dev, "u2");
    assert g.tasks == g0.tasks;
  }

  /** The second collector finds its pod reported and is about to delete it by name, while
      the name is the fresh pod's. */
  lemma StaleCollector(cfg: Config, dev: HubDevice) returns (g: State, p: Pod)
    requires dev.serial != "" && HasImage(cfg, dev)
    ensures Init(OneFinishedPod(cfg, dev.serial)) && Runs(OneFinishedPod(cfg, dev.serial), g)
    ensures 2 in g.tasks && g.tasks[2] == Task(Stale(p), CheckRest([])) && 9 !in g.tasks
    ensures p.name == PodName(dev.serial) && p.name in g.sh.pods && PodKey(g.sh.pods[p.name]) !in g.sh.reported
  {
    var s0 := OneFinishedPod(cfg, dev.serial);
    g := TwoCollectors(cfg, dev.serial);
    g := FreshPod(s0, g, dev);
    p := s0.sh.pods[PodName(dev.serial)];
    assert [p][1..] == [];
    g := Move(s0, g, 2, Plainly(9), Goto(g.sh, Stale(p), CheckRest([])));
  }

  /** The condition above is needed: pods are deleted by name, so a collector working
      from a stale list can delete the device's next pod, which nobody has reported. */
  lemma StaleListDeletesFreshPod(cfg: Config, dev: HubDevice)
    requires dev.serial != "" && HasImage(cfg, dev)
    ensures exists s0, g, id, c ::
              && Init(s0) && Runs(s0, g) && id in g.tasks && ListedPod(g.tasks[id].pc).Some?
              && var name := ListedPod(g.tasks[id].pc).value.name;
                 name in g.sh.pods && PodKey(g.sh.pods[name]) !in g.sh.reported && name !in Exec(g, Step(id, c)).sh.pods
  {
    var g, p := StaleCollector(cfg, dev);
    assert ListedPod(g.tasks[2].pc) == Some(p);
    assert p.name !in Exec(g, Step(2, Plainly(9))).sh.pods;
  }

  // ── A pod without the battery gate ──

  /** An empty cluster. */
  function NoPods(cfg: Config): State
  {
    State(cfg, Shared(map[], map[], {}, {}, {}, map[], map[], map[], [], {}), map[])
  }

  /** The hub reports a level of 20%, below the threshold. */
  lemma LowLevel(cfg: Config, serial: Serial) returns (g: State)
    ensures Runs(NoPods(cfg), g) && g == NoPods(cfg).(sh := NoPods(cfg).sh.(battery := map[serial := 20]))
  {
    var s0 := NoPods(cfg);
    RunsRefl(s0);
    g := Then(s0, s0, Begin(1, BatteryUpdated(serial, 20)));
    assert g.tasks == map[1 := Task(StoreLevel(serial, 20), NoRest)];
    var sh := s0.sh.(battery := map[serial := 20]);
    g := Move(s0, g, 1, Plainly(9), Goto(sh, LoadDeferred(serial, 20), NoRest));
    g := IgnoreLevel(s0, g, serial, 20);
  }

  lemma IgnoreLevel(s0: State, g0: State, serial: Serial, level: int) returns (g: State)
    requires Runs(s0, g0) && g0.tasks == map[1 := Task(LoadDeferred(serial, level), NoRest)]
             && serial !in g0.sh.lowBattery
    ensures Runs(s0, g) && g == State(g0.cfg, g0.sh, map[])
  {
    g := Move(s0, g0, 1, Plainly(9), Goto(g0.sh, Idle, NoRest));
    g := Move(s0, g, 1, Plainly(9), Effect(g0.sh, None, None));
    assert g.tasks == map[];
  }

  /** The next Reconcile pass finds the device ready and without a pod. */
  lemma ReconcileAsks(s0: State, g0: State, dev: HubDevice) returns (g: State)
    requires Runs(s0, g0) && g0.tasks == map[] && g0.sh.pods == map[] && g0.sh.rebooting == {}
    requires HasImage(g0.cfg, dev) && IsReady(dev)
    ensures Runs(s0, g) && g.cfg == g0.cfg && g.sh == g0.sh
    ensures exists rest :: g.tasks == map[1 := Task(Create(dev), rest)]
  {
    g := Then(s0, g0, Begin(1, Reconcile([dev])));
    assert [dev][..|[dev]| - 1] == [];
    var ready := map[dev.serial := dev];
    assert ReadyMap([dev]) == ready && BySerial([]) == map[];
    var rest, rest' := ReconStart([dev], []), ReconRest({}, map[], map[]);
    assert rest == ReconRest({}, ready, map[]) && ready - {dev.serial} == map[];
    g := Move(s0, g, 1, Plainly(9), Goto(g.sh, Idle, rest));
    g := Move(s0, g, 1, Choice(true, true, "", 9, dev.serial, []), Goto(g.sh, Schedule(dev, false), rest'));
    g := Move(s0, g, 1, Plainly(9), Goto(g.sh, Create(dev), rest'));
    assert g.tasks == map[1 := Task(Create(dev), rest')];
  }

  /** Reconcile creates a pod for a device whose level is known to be too low, from a fresh
      manager on an empty cluster. */
  lemma PodAtLowLevel(cfg: Config, dev: HubDevice)
    requires HasImage(cfg, dev) && IsReady(dev)
    ensures exists s0, g :: Init(s0) && Runs(s0, g) && IsPodOf(g.sh.pods, PodName(dev.serial), dev.serial)
                         && dev.serial in g.sh.battery && 0 <= g.sh.battery[dev.serial] <= 30
  {
    var s0 := NoPods(cfg);
    var g := LowLevel(cfg, dev.serial);
    g := ReconcileAsks(s0, g, dev);
    g := FirstPod(s0, g, dev);
    assert Init(s0);
  }

  lemma FirstPod(s0: State, g0: State, dev: HubDevice) returns (g: State)
    requires Runs(s0, g0) && g0.sh.pods == map[] && g0.sh.owner == map[]
    requires exists rest :: g0.tasks == map[1 := Task(Create(dev), rest)]
    ensures Runs(s0, g) && IsPodOf(g.sh.pods, PodName(dev.serial), dev.serial) && g.sh.battery == g0.sh.battery
  {
    var rest :| g0.tasks == map[1 := Task(Create(dev), rest)];
    var sh := CreatePod(g0.sh, dev.serial, true, "u1");
    g := Move(s0, g0, 1, Choice(true, true, "u1", 9, "", []), Goto(sh, Idle, rest));
  }
}
