/** What every step of the hub-mode engine keeps. */
module K8sInvariants {
  import opened AdbDevices
  import opened K8sState
  import opened Ledger
  import opened Naming
  import opened Options
  import opened RunTable

  // ── Holdings of a task ──

  /** The settle token: from `stabilizing.LoadOrStore` to the goroutine's delete. */
  function Tokens(t: Task): multiset<Serial>
  {
    match t.pc
    case SpawnSettle(dev) => multiset{dev.serial}
    case Sleeping(dev) => multiset{dev.serial}
    case _ => multiset{}
  }

  /** A key stored in `reported` whose run is not inserted yet. */
  function Claims(t: Task): multiset<string>
  {
    match t.pc
    case Claimed(p) => multiset{PodKey(p)}
    case Deleted(p) => multiset{PodKey(p)}
    case _ => multiset{}
  }

  /** The reboot outcome a task still has to write, and for which row. */
  function Debt(pc: PC): Option<(Serial, nat)>
  {
    match pc
    case Saved(serial, rid) => Some((serial, rid))
    case Marked(serial, rid) => Some((serial, rid))
    case Rebooting(serial, rid) => Some((serial, rid))
    case RebootFailed(serial, rid) => Some((serial, rid))
    case UpdateFailed(serial, rid) => Some((serial, rid))
    case UpdateOk(serial, rid) => Some((serial, rid))
    case _ => None
  }

  function Debts(t: Task): multiset<int>
  {
    if Debt(t.pc).Some? && Debt(t.pc).value.1 != 0 then multiset{Debt(t.pc).value.1} else multiset{}
  }

  // ── Invariant ──

  predicate RestOk(owner: map<string, Serial>, r: Rest)
  {
    match r
    case NoRest => true
    case CheckRest(todo) => forall i :: 0 <= i < |todo| ==> PodKnown(owner, todo[i])
    case DeleteRest(_) => true
    case ReconRest(_, ready, bySerial) =>
      && (forall s :: s in ready ==> ready[s].serial == s)
      && (forall s :: s in bySerial ==> s != "" && bySerial[s].device == s && PodKnown(owner, bySerial[s]))
  }

  predicate PcOk(sh: Shared, pc: PC)
  {
    match pc
    case Stale(p) => PodKnown(sh.owner, p) && PodKey(p) in sh.reported
    case Claimed(p) => PodKnown(sh.owner, p) && Finished(p) && PodKey(p) in sh.reported
    case Deleted(p) => PodKnown(sh.owner, p) && Finished(p) && PodKey(p) in sh.reported
    case ClearDeferred(serial, dev) => dev.serial == serial
    case _ =>
      Debt(pc).Some? && Debt(pc).value.1 != 0 ==>
        && Debt(pc).value.1 <= |sh.rows|
        && sh.rows[Debt(pc).value.1 - 1].serial == Debt(pc).value.0
  }

  predicate TaskOk(sh: Shared, t: Task)
  {
    PcOk(sh, t.pc) && RestOk(sh.owner, t.rest)
  }

  predicate RowOk(owner: map<string, Serial>, r: Row)
  {
    && r.key in owner && owner[r.key] == r.serial
    && r.attempts <= 1 && (r.boot.Some? ==> r.attempts == 1)
  }

  predicate Keyed(m: map<Serial, HubDevice>)
  {
    forall s :: s in m ==> m[s].serial == s
  }

  predicate RowsOk(owner: map<string, Serial>, rows: seq<Row>)
  {
    forall i :: 0 <= i < |rows| ==> RowOk(owner, rows[i])
  }

  predicate SharedOk(sh: Shared)
  {
    && ClusterOk(sh.pods, sh.owner)
    && Keyed(sh.devices) && Keyed(sh.lowBattery)
    && RowsOk(sh.owner, sh.rows)
    && sh.reported <= sh.owner.Keys
  }

  /** Each claimed key is in exactly one of three places: a task in flight, an inserted
      row, or the set of failed inserts. */
  function Settled(sh: Shared, key: string): nat
  {
    Keys(sh.rows)[key] + One(sh.lost, key)
  }

  ghost predicate TokensAgree(s: State, serial: Serial)
  {
    Total(s.tasks, Tokens)[serial] == One(s.sh.stabilizing, serial)
  }

  ghost predicate ClaimsAgree(s: State, key: string)
  {
    Total(s.tasks, Claims)[key] + Settled(s.sh, key) == One(s.sh.reported, key)
  }

  ghost predicate DebtsAgree(s: State, rid: int)
  {
    Total(s.tasks, Debts)[rid] == Owed(s.sh.rows)[rid]
  }

  /** The three ledgers, next to the shape invariants. */
  ghost predicate Inv(s: State)
  {
    && SharedOk(s.sh)
    && (forall t :: t in s.tasks ==> TaskOk(s.sh, s.tasks[t]))
    && (forall serial :: TokensAgree(s, serial))
    && (forall key :: ClaimsAgree(s, key))
    && (forall rid :: DebtsAgree(s, rid))
  }

  predicate OwnerGrows(o: map<string, Serial>, o': map<string, Serial>)
  {
    forall u :: u in o ==> u in o' && o'[u] == o[u]
  }

  /** Histories only grow. */
  ghost predicate Later(sh: Shared, sh': Shared)
  {
    OwnerGrows(sh.owner, sh'.owner) && sh.reported <= sh'.reported && sh.lost <= sh'.lost && Grows(sh.rows, sh'.rows)
  }

  lemma TaskOkLater(sh: Shared, sh': Shared, t: Task)
    requires TaskOk(sh, t) && Later(sh, sh')
    ensures TaskOk(sh', t)
  {}

  /** What a step may rely on about its own task: the ledgers cover what it holds. */
  predicate Covered(sh: Shared, t: Task)
  {
    && (forall s :: s in Tokens(t) ==> s in sh.stabilizing)
    && (forall k :: k in Claims(t) ==> k !in sh.lost)
    && (forall rid :: rid in Debts(t) ==> Outstanding(sh.rows, rid))
  }

  ghost predicate Keeps(sh: Shared, f: Effect)
  {
    && SharedOk(f.sh) && Later(sh, f.sh)
    && (f.next.Some? ==> TaskOk(f.sh, f.next.value))
    && (f.spawn.Some? ==> TaskOk(f.sh, f.spawn.value))
  }

  predicate TokenLaw(sh: Shared, t: Task, f: Effect, s: Serial)
  {
    One(f.sh.stabilizing, s) + Tokens(t)[s] == One(sh.stabilizing, s) + Held(f.next, Tokens)[s]
      + Held(f.spawn, Tokens)[s]
  }

  predicate ClaimLaw(sh: Shared, t: Task, f: Effect, k: string)
  {
    One(f.sh.reported, k) + Claims(t)[k] + Settled(sh, k)
      == One(sh.reported, k) + Held(f.next, Claims)[k] + Held(f.spawn, Claims)[k] + Settled(f.sh, k)
  }

  predicate DebtLaw(sh: Shared, t: Task, f: Effect, rid: int)
  {
    Owed(f.sh.rows)[rid] + Debts(t)[rid] == Owed(sh.rows)[rid] + Held(f.next, Debts)[rid] + Held(f.spawn, Debts)[rid]
  }

  // ── The laws, one kind of move at a time ──

  /** The task holds nothing. */
  predicate Plain(pc: PC)
  {
    !pc.SpawnSettle? && !pc.Sleeping? && !pc.Claimed? && !pc.Deleted? && Debt(pc).None?
  }

  predicate PlainOpt(o: Option<Task>)
  {
    o.Some? ==> Plain(o.value.pc)
  }

  predicate SameBooks(sh: Shared, sh': Shared)
  {
    sh'.stabilizing == sh.stabilizing && sh'.reported == sh.reported && sh'.rows == sh.rows && sh'.lost == sh.lost
  }

  predicate PlainMove(sh: Shared, t: Task, f: Effect)
  {
    SameBooks(sh, f.sh) && Plain(t.pc) && PlainOpt(f.next) && PlainOpt(f.spawn)
  }

  lemma PlainLaws(sh: Shared, t: Task, f: Effect, s: Serial, k: string, r: int)
    requires PlainMove(sh, t, f)
    ensures TokenLaw(sh, t, f, s)
    ensures ClaimLaw(sh, t, f, k)
    ensures DebtLaw(sh, t, f, r)
  {}

  lemma ReadyShape(cfg: Config, sh: Shared, t: Task, c: Choice)
    requires GroupOf(t.pc) == GReady
    ensures PlainMove(sh, t, StepReady(cfg, sh, t.pc, t.rest))
  {}

  lemma HandlerShape(sh: Shared, t: Task, c: Choice)
    requires GroupOf(t.pc) == GHandler
    ensures PlainMove(sh, t, StepHandler(sh, t.pc, t.rest, c))
  {
    HandlerSame(sh, t, c);
  }

  /** Handlers touch only `devices`, `lowBattery` and `batteryInfo`. */
  lemma HandlerSame(sh: Shared, t: Task, c: Choice)
    requires GroupOf(t.pc) == GHandler
    ensures var f := StepHandler(sh, t.pc, t.rest, c);
            f.sh == sh.(devices := f.sh.devices, lowBattery := f.sh.lowBattery, battery := f.sh.battery)
              && f.spawn == None
  {
    match t.pc {
      case OfflineDevice(_) =>
      case OfflineBattery(_) =>
      case ForgetDevice(_) =>
      case ListDelete(_) =>
      case StoreLevel(_, _) =>
      case LoadDeferred(_, _) =>
      case ClearDeferred(_, _) =>
    }
  }

  predicate MovesToken(sh: Shared, pc: PC)
  {
    pc.SpawnSettle? || pc.Sleeping? || (pc.Latch? && pc.dev.serial !in sh.stabilizing)
  }

  predicate TokenMove(sh: Shared, t: Task, f: Effect)
  {
    && f.sh.reported == sh.reported && f.sh.rows == sh.rows && f.sh.lost == sh.lost
    && match t.pc
       case Latch(dev) =>
         && dev.serial !in sh.stabilizing && f.sh.stabilizing == sh.stabilizing + {dev.serial}
         && f.next.Some? && f.next.value.pc == SpawnSettle(dev) && f.spawn == None
       case SpawnSettle(dev) =>
         && f.sh.stabilizing == sh.stabilizing
         && f.next.Some? && f.next.value.pc == Idle && f.spawn == Some(Task(Sleeping(dev), NoRest))
       case Sleeping(dev) =>
         && f.sh.stabilizing == sh.stabilizing - {dev.serial}
         && f.next.Some? && f.next.value.pc == Woken(dev) && f.spawn == None
       case _ => false
  }

  lemma TokenLaws(sh: Shared, t: Task, f: Effect, s: Serial)
    requires TokenMove(sh, t, f) && Covered(sh, t)
    ensures TokenLaw(sh, t, f, s)
  {
    if t.pc.Sleeping? {
      assert t.pc.dev.serial in Tokens(t);
    }
  }

  lemma TokenClaims(sh: Shared, t: Task, f: Effect, k: string)
    requires TokenMove(sh, t, f)
    ensures ClaimLaw(sh, t, f, k)
  {}

  lemma TokenDebts(sh: Shared, t: Task, f: Effect, r: int)
    requires TokenMove(sh, t, f)
    ensures DebtLaw(sh, t, f, r)
  {}

  lemma TokenShape(sh: Shared, t: Task, c: Choice)
    requires GroupOf(t.pc) == GCreate && MovesToken(sh, t.pc)
    ensures TokenMove(sh, t, StepCreate(sh, t.pc, t.rest, c))
  {}

  lemma GateShape(sh: Shared, t: Task, c: Choice)
    requires GroupOf(t.pc) == GCreate && !MovesToken(sh, t.pc)
    ensures PlainMove(sh, t, StepCreate(sh, t.pc, t.rest, c))
  {}

  lemma CreateShape(sh: Shared, t: Task, c: Choice)
    requires GroupOf(t.pc) == GCreate
    ensures var f := StepCreate(sh, t.pc, t.rest, c);
            if MovesToken(sh, t.pc) then TokenMove(sh, t, f) else PlainMove(sh, t, f)
  {
    if MovesToken(sh, t.pc) {
      TokenShape(sh, t, c);
    } else {
      GateShape(sh, t, c);
    }
  }

  predicate RebootMove(sh: Shared, t: Task, f: Effect, c: Choice)
  {
    && f.sh.stabilizing == sh.stabilizing && f.sh.reported == sh.reported && f.sh.lost == sh.lost
    && f.next.Some? && f.spawn == None
    && match t.pc
       case Rebooting(serial, rid) => f.sh.rows == sh.rows
           && f.next.value.pc in {UpdateOk(serial, rid), RebootFailed(serial, rid)}
       case RebootFailed(serial, rid) => f.sh.rows == sh.rows && f.next.value.pc == UpdateFailed(serial, rid)
       case UpdateFailed(serial, rid) => f.sh.rows == UpdateBoot(sh.rows, rid, false, c.dbOk) && Plain(f.next.value.pc)
       case UpdateOk(serial, rid) => f.sh.rows == UpdateBoot(sh.rows, rid, true, c.dbOk) && Plain(f.next.value.pc)
       case _ => false
  }

  lemma RebootSettled(sh: Shared, t: Task, f: Effect, c: Choice, k: string)
    requires RebootMove(sh, t, f, c) && Covered(sh, t)
    ensures Settled(f.sh, k) == Settled(sh, k)
  {
    if t.pc.UpdateFailed? || t.pc.UpdateOk? {
      assert t.pc.rid != 0 ==> t.pc.rid in Debts(t);
      UpdateLedger(sh.rows, t.pc.rid, t.pc.UpdateOk?, c.dbOk);
    }
  }

  /** A reboot task never holds a token or a claimed key. */
  lemma RebootHolds(sh: Shared, t: Task, f: Effect, c: Choice)
    requires RebootMove(sh, t, f, c)
    ensures Tokens(t) == multiset{} && Tokens(f.next.value) == multiset{}
    ensures Claims(t) == multiset{} && Claims(f.next.value) == multiset{}
  {}

  lemma RebootOthers(sh: Shared, t: Task, f: Effect, c: Choice, s: Serial, k: string)
    requires RebootMove(sh, t, f, c) && Covered(sh, t)
    ensures TokenLaw(sh, t, f, s)
    ensures ClaimLaw(sh, t, f, k)
  {
    RebootHolds(sh, t, f, c);
    RebootSettled(sh, t, f, c, k);
  }

  lemma RequestDebt(sh: Shared, t: Task, f: Effect, c: Choice, r: int)
    requires RebootMove(sh, t, f, c) && !t.pc.UpdateFailed? && !t.pc.UpdateOk?
    ensures DebtLaw(sh, t, f, r)
  {}

  lemma UpdateDebt(sh: Shared, t: Task, f: Effect, c: Choice, r: int)
    requires RebootMove(sh, t, f, c) && Covered(sh, t) && (t.pc.UpdateFailed? || t.pc.UpdateOk?)
    ensures DebtLaw(sh, t, f, r)
  {
    assert t.pc.rid != 0 ==> t.pc.rid in Debts(t);
    UpdateLedger(sh.rows, t.pc.rid, t.pc.UpdateOk?, c.dbOk);
  }

  lemma RebootShape(sh: Shared, t: Task, c: Choice)
    requires GroupOf(t.pc) == GReboot
    ensures var f := StepReboot(sh, t.pc, t.rest, c);
            if Debt(t.pc).Some? then RebootMove(sh, t, f, c) else PlainMove(sh, t, f)
  {}

  predicate CollectMove(sh: Shared, t: Task, f: Effect)
  {
    && f.sh.stabilizing == sh.stabilizing && f.next.Some?
    && match t.pc
       case Idle =>
         && f.sh.rows == sh.rows && f.sh.lost == sh.lost && f.spawn == None
         && f.next.value.pc.Claimed? && PodKey(f.next.value.pc.pod) !in sh.reported
         && f.sh.reported == sh.reported + {PodKey(f.next.value.pc.pod)}
       case Claimed(p) =>
         f.sh.reported == sh.reported && f.sh.rows == sh.rows && f.sh.lost == sh.lost && f.next.value.pc == Deleted(p)
           && f.spawn == None
       case Deleted(p) =>
         && f.sh.reported == sh.reported && f.spawn == None
         && ((f.sh.rows == Insert(sh.rows, PodKey(p), p.device) && f.sh.lost == sh.lost
              && f.next.value.pc == Saved(p.device, |sh.rows| + 1))
             || (f.sh.rows == sh.rows && f.sh.lost == sh.lost + {PodKey(p)} && f.next.value.pc == Saved(p.device, 0)))
       case Saved(serial, rid) =>
         f.sh.reported == sh.reported && f.sh.rows == sh.rows && f.sh.lost == sh.lost
           && f.next.value.pc == Marked(serial, rid) && f.spawn == None
       case Marked(serial, rid) =>
         && f.sh.reported == sh.reported && f.sh.rows == sh.rows && f.sh.lost == sh.lost
         && f.next.value.pc == Idle && f.spawn == Some(Task(Rebooting(serial, rid), NoRest))
       case _ => false
  }

  lemma CollectTokens(sh: Shared, t: Task, f: Effect, s: Serial)
    requires CollectMove(sh, t, f)
    ensures TokenLaw(sh, t, f, s)
  {}

  lemma CollectClaims(sh: Shared, t: Task, f: Effect, k: string)
    requires CollectMove(sh, t, f) && !t.pc.Deleted?
    ensures ClaimLaw(sh, t, f, k)
  {}

  lemma CollectDebts(sh: Shared, t: Task, f: Effect, r: int)
    requires CollectMove(sh, t, f) && !t.pc.Deleted?
    ensures DebtLaw(sh, t, f, r)
  {
    assert f.sh.rows == sh.rows;
    if t.pc.Marked? {
      assert Debt(f.spawn.value.pc) == Debt(t.pc) && Debt(f.next.value.pc) == None;
    } else {
      assert f.spawn == None && Debt(f.next.value.pc) == Debt(t.pc);
    }
  }

  lemma InsertClaims(sh: Shared, t: Task, f: Effect, k: string)
    requires CollectMove(sh, t, f) && Covered(sh, t) && t.pc.Deleted?
    ensures ClaimLaw(sh, t, f, k)
  {
    assert PodKey(t.pc.pod) in Claims(t);
    InsertLedger(sh.rows, PodKey(t.pc.pod), t.pc.pod.device);
  }

  lemma InsertDebts(sh: Shared, t: Task, f: Effect, r: int)
    requires CollectMove(sh, t, f) && t.pc.Deleted?
    ensures DebtLaw(sh, t, f, r)
  {
    InsertLedger(sh.rows, PodKey(t.pc.pod), t.pc.pod.device);
  }

  lemma IdleShape(cfg: Config, sh: Shared, rest: Rest, c: Choice)
    ensures var f := StepIdle(cfg, sh, rest, c);
            PlainMove(sh, Task(Idle, rest), f) || CollectMove(sh, Task(Idle, rest), f)
  {
    match rest {
      case CheckRest(todo) => if todo != [] { ClaimShape(sh, rest, todo[0], CheckRest(todo[1..])); }
      case ReconRest(gone, ready, bySerial) =>
        if c.pick in bySerial { ClaimShape(sh, rest, bySerial[c.pick], ReconRest(gone, ready - {c.pick}, bySerial)); }
      case _ =>
    }
  }

  lemma ClaimShape(sh: Shared, rest: Rest, p: Pod, rest': Rest)
    ensures var f := Claim(sh, p, rest'); PlainMove(sh, Task(Idle, rest), f) || CollectMove(sh, Task(Idle, rest), f)
  {}

  lemma CollectShape(cfg: Config, sh: Shared, t: Task, c: Choice)
    requires GroupOf(t.pc) == GCollect
    ensures var f := StepCollect(cfg, sh, t.pc, t.rest, c); PlainMove(sh, t, f) || CollectMove(sh, t, f)
  {
    if t.pc == Idle {
      IdleShape(cfg, sh, t.rest, c);
    }
  }

  /** Every step of every task keeps the three ledgers balanced. */
  lemma StepLaws(cfg: Config, sh: Shared, t: Task, c: Choice, s: Serial, k: string, r: int)
    requires Covered(sh, t)
    ensures TokenLaw(sh, t, Local(cfg, sh, t, c), s)
    ensures ClaimLaw(sh, t, Local(cfg, sh, t, c), k)
    ensures DebtLaw(sh, t, Local(cfg, sh, t, c), r)
  {
    var f := Local(cfg, sh, t, c);
    match GroupOf(t.pc) {
      case GReady => ReadyShape(cfg, sh, t, c);
      case GHandler => HandlerShape(sh, t, c);
      case GCreate =>
        CreateShape(sh, t, c);
        if MovesToken(sh, t.pc) {
          TokenLaws(sh, t, f, s);
          TokenClaims(sh, t, f, k);
          TokenDebts(sh, t, f, r);
        }
      case GReboot =>
        RebootShape(sh, t, c);
        if Debt(t.pc).Some? {
          RebootOthers(sh, t, f, c, s, k);
          if t.pc.UpdateFailed? || t.pc.UpdateOk? { UpdateDebt(sh, t, f, c, r); } else { RequestDebt(sh, t, f, c, r); }
        }
      case GCollect =>
        CollectShape(cfg, sh, t, c);
        if !PlainMove(sh, t, f) {
          CollectTokens(sh, t, f, s);
          if t.pc.Deleted? {
            InsertClaims(sh, t, f, k);
            InsertDebts(sh, t, f, r);
          } else {
            CollectClaims(sh, t, f, k);
            CollectDebts(sh, t, f, r);
          }
        }
    }
    if PlainMove(sh, t, f) {
      PlainLaws(sh, t, f, s, k, r);
    }
  }

  // ── Shape ──

  /** A step that leaves rows, keys and UIDs alone keeps everything it does not touch. */
  predicate SameHistory(sh: Shared, sh': Shared)
  {
    sh'.owner == sh.owner && sh'.reported == sh.reported && sh'.rows == sh.rows && sh'.lost == sh.lost
  }

  lemma ReadyFrame(cfg: Config, sh: Shared, t: Task)
    requires GroupOf(t.pc) == GReady
    ensures var f := StepReady(cfg, sh, t.pc, t.rest);
            && f.sh.pods == sh.pods && SameHistory(sh, f.sh) && f.spawn == None
            && f.next.Some? && f.next.value.rest == t.rest && GroupOf(f.next.value.pc) in {GReady, GCreate, GCollect}
            && Plain(f.next.value.pc) && !f.next.value.pc.Stale?
  {}

  lemma ReadyKeeps(cfg: Config, sh: Shared, t: Task)
    requires SharedOk(sh) && TaskOk(sh, t) && GroupOf(t.pc) == GReady
    ensures Keeps(sh, StepReady(cfg, sh, t.pc, t.rest))
  {
    ReadyFrame(cfg, sh, t);
  }

  lemma HandlerFrame(sh: Shared, t: Task, c: Choice)
    requires GroupOf(t.pc) == GHandler
    ensures var f := StepHandler(sh, t.pc, t.rest, c);
            f.sh.pods == sh.pods && SameHistory(sh, f.sh) && f.spawn == None
  {
    HandlerSame(sh, t, c);
  }

  lemma HandlerDevices(sh: Shared, t: Task, c: Choice)
    requires GroupOf(t.pc) == GHandler && Keyed(sh.devices) && Keyed(sh.lowBattery)
    ensures var f := StepHandler(sh, t.pc, t.rest, c); Keyed(f.sh.devices) && Keyed(f.sh.lowBattery)
  {
    HandlerDrops(sh, t, c);
  }

  lemma HandlerDrops(sh: Shared, t: Task, c: Choice)
    requires GroupOf(t.pc) == GHandler
    ensures var sh' := StepHandler(sh, t.pc, t.rest, c).sh;
            && (sh'.devices == sh.devices || exists s :: sh'.devices == sh.devices - {s})
            && (sh'.lowBattery == sh.lowBattery || exists s :: sh'.lowBattery == sh.lowBattery - {s})
  {}

  lemma HandlerTasks(sh: Shared, t: Task, c: Choice)
    requires GroupOf(t.pc) == GHandler && SharedOk(sh) && RestOk(sh.owner, t.rest)
    ensures var f := StepHandler(sh, t.pc, t.rest, c);
            f.next.Some? && TaskOk(sh, f.next.value)
  {}

  lemma HandlerKeeps(sh: Shared, t: Task, c: Choice)
    requires SharedOk(sh) && TaskOk(sh, t) && GroupOf(t.pc) == GHandler
    ensures Keeps(sh, StepHandler(sh, t.pc, t.rest, c))
  {
    HandlerFrame(sh, t, c);
    HandlerDevices(sh, t, c);
    HandlerTasks(sh, t, c);
  }

  lemma DeleteKeeps(sh: Shared, name: string, ok: bool)
    requires SharedOk(sh)
    ensures var sh' := sh.(pods := DeletePod(sh.pods, name, ok)); SharedOk(sh') && Later(sh, sh')
  {
    assert ClusterOk(DeletePod(sh.pods, name, ok), sh.owner);
  }

  lemma CreateCluster(sh: Shared, serial: Serial, ok: bool, uid: string)
    requires ClusterOk(sh.pods, sh.owner)
    ensures var sh' := CreatePod(sh, serial, ok, uid);
            ClusterOk(sh'.pods, sh'.owner) && OwnerGrows(sh.owner, sh'.owner)
  {
    if CanCreate(sh, serial, ok, uid) { AddPodOk(sh.pods, sh.owner, NewPod(serial, uid)); }
  }

  /** A new pod with a free name and a fresh UID, named by the rule if it is managed. */
  lemma AddPodOk(pods: map<string, Pod>, owner: map<string, Serial>, p: Pod)
    requires ClusterOk(pods, owner) && p.name !in pods && p.uid != "" && p.uid !in owner
    requires p.managed ==> p.name == PodName(p.device)
    ensures ClusterOk(pods[p.name := p], owner[p.uid := p.device]) && OwnerGrows(owner, owner[p.uid := p.device])
  {}

  lemma CreateKeeps(sh: Shared, serial: Serial, ok: bool, uid: string)
    requires SharedOk(sh)
    ensures var sh' := CreatePod(sh, serial, ok, uid); SharedOk(sh') && Later(sh, sh')
  {
    CreateCluster(sh, serial, ok, uid);
  }

  lemma CreateGroupKeeps(sh: Shared, t: Task, c: Choice)
    requires SharedOk(sh) && TaskOk(sh, t) && GroupOf(t.pc) == GCreate
    ensures Keeps(sh, StepCreate(sh, t.pc, t.rest, c))
  {
    if t.pc.Create? {
      CreateKeeps(sh, t.pc.dev.serial, c.ok, c.uid);
      TaskOkLater(sh, CreatePod(sh, t.pc.dev.serial, c.ok, c.uid), Task(Idle, t.rest));
    } else {
      CreateFrame(sh, t, c);
      CreateNext(sh, t, c);
    }
  }

  lemma CreateFrame(sh: Shared, t: Task, c: Choice)
    requires GroupOf(t.pc) == GCreate && !t.pc.Create? && Keyed(sh.lowBattery)
    ensures var f := StepCreate(sh, t.pc, t.rest, c);
            f.sh.pods == sh.pods && SameHistory(sh, f.sh) && f.sh.devices == sh.devices && Keyed(f.sh.lowBattery)
  {
    CreateSame(sh, t, c);
  }

  lemma CreateSame(sh: Shared, t: Task, c: Choice)
    requires GroupOf(t.pc) == GCreate && !t.pc.Create?
    ensures var sh' := StepCreate(sh, t.pc, t.rest, c).sh;
            && sh' == sh.(stabilizing := sh'.stabilizing, rebooting := sh'.rebooting, lowBattery := sh'.lowBattery)
            && (sh'.lowBattery == sh.lowBattery
                || (t.pc.Defer? && sh'.lowBattery == sh.lowBattery[t.pc.dev.serial := t.pc.dev]))
  {
    if !t.pc.Defer? { SettleSame(sh, t, c); }
  }

  lemma SettleSame(sh: Shared, t: Task, c: Choice)
    requires GroupOf(t.pc) == GCreate && !t.pc.Create? && !t.pc.Defer?
    ensures var sh' := StepCreate(sh, t.pc, t.rest, c).sh;
            sh' == sh.(stabilizing := sh'.stabilizing, rebooting := sh'.rebooting)
  {}

  lemma CreateNext(sh: Shared, t: Task, c: Choice)
    requires GroupOf(t.pc) == GCreate && !t.pc.Create?
    ensures var f := StepCreate(sh, t.pc, t.rest, c);
            && f.next.Some? && f.next.value.rest == t.rest
            && (f.next.value.pc == Idle || GroupOf(f.next.value.pc) == GCreate)
            && (f.spawn.Some? ==> f.spawn.value.rest == NoRest && f.spawn.value.pc.Sleeping?)
  {}

  lemma UpdateKeeps(sh: Shared, rid: nat, bootOk: bool, dbOk: bool)
    requires SharedOk(sh) && (rid != 0 ==> Outstanding(sh.rows, rid))
    ensures var sh' := sh.(rows := UpdateBoot(sh.rows, rid, bootOk, dbOk)); SharedOk(sh') && Later(sh, sh')
  {}

  lemma RebootKeeps(sh: Shared, t: Task, c: Choice)
    requires SharedOk(sh) && TaskOk(sh, t) && Covered(sh, t) && GroupOf(t.pc) == GReboot
    ensures Keeps(sh, StepReboot(sh, t.pc, t.rest, c))
  {
    if t.pc.UpdateFailed? || t.pc.UpdateOk? {
      UpdateFrame(sh, t, c);
    } else {
      RebootFrame(sh, t, c);
    }
  }

  lemma UpdateFrame(sh: Shared, t: Task, c: Choice)
    requires SharedOk(sh) && TaskOk(sh, t) && Covered(sh, t) && (t.pc.UpdateFailed? || t.pc.UpdateOk?)
    ensures Keeps(sh, StepReboot(sh, t.pc, t.rest, c))
  {
    assert t.pc.rid != 0 ==> t.pc.rid in Debts(t);
    var sh' := sh.(rows := UpdateBoot(sh.rows, t.pc.rid, t.pc.UpdateOk?, c.dbOk));
    UpdateKeeps(sh, t.pc.rid, t.pc.UpdateOk?, c.dbOk);
    TaskOkLater(sh, sh', Task(Idle, t.rest));
    var f := StepReboot(sh, t.pc, t.rest, c);
    assert f.sh == sh' && f.spawn == None;
  }

  lemma RebootFrame(sh: Shared, t: Task, c: Choice)
    requires GroupOf(t.pc) == GReboot && !t.pc.UpdateFailed? && !t.pc.UpdateOk? && SharedOk(sh) && TaskOk(sh, t)
    ensures Keeps(sh, StepReboot(sh, t.pc, t.rest, c))
  {
    match t.pc {
      case Rebooting(serial, rid) =>
        GotoKeeps(sh, sh, if c.ok then UpdateOk(serial, rid) else RebootFailed(serial, rid), t.rest);
      case RebootFailed(serial, rid) =>
        GotoKeeps(sh, sh.(rebooting := sh.rebooting - {serial}), UpdateFailed(serial, rid), t.rest);
      case RetrySleep(serial) =>
        GotoKeeps(sh, sh, Idle, t.rest);
        if serial in sh.devices { GotoKeeps(sh, sh, ListOne(sh.devices[serial], ThenCreate), t.rest); }
      case _ =>
    }
  }

  lemma ClaimKeeps(sh: Shared, p: Pod, rest: Rest)
    requires SharedOk(sh) && PodKnown(sh.owner, p) && Finished(p) && RestOk(sh.owner, rest)
    ensures Keeps(sh, Claim(sh, p, rest))
  {
    var sh' := sh.(reported := sh.reported + {PodKey(p)});
    if PodKey(p) in sh.reported {
      GotoKeeps(sh, sh, Stale(p), rest);
    } else {
      assert SharedOk(sh') && Later(sh, sh');
      GotoKeeps(sh, sh', Claimed(p), rest);
    }
  }

  lemma GotoKeeps(sh: Shared, sh': Shared, pc: PC, rest: Rest)
    requires SharedOk(sh') && Later(sh, sh') && TaskOk(sh', Task(pc, rest))
    ensures Keeps(sh, Goto(sh', pc, rest))
  {}

  lemma IdleKeeps(cfg: Config, sh: Shared, rest: Rest, c: Choice)
    requires SharedOk(sh) && RestOk(sh.owner, rest)
    ensures Keeps(sh, StepIdle(cfg, sh, rest, c))
  {
    match rest {
      case NoRest =>
      case CheckRest(todo) =>
        if todo != [] {
          assert RestOk(sh.owner, CheckRest(todo[1..]));
          if Finished(todo[0]) { ClaimKeeps(sh, todo[0], CheckRest(todo[1..])); }
        }
      case DeleteRest(names) =>
        if names != [] { DeleteKeeps(sh, names[0], c.ok); }
      case ReconRest(gone, ready, bySerial) => ReconKeeps(cfg, sh, gone, ready, bySerial, c);
    }
  }

  lemma ReconKeeps(cfg: Config, sh: Shared, gone: set<Serial>, ready: map<Serial, HubDevice>,
                   bySerial: map<Serial, Pod>, c: Choice)
    requires SharedOk(sh) && RestOk(sh.owner, ReconRest(gone, ready, bySerial))
    ensures Keeps(sh, StepIdle(cfg, sh, ReconRest(gone, ready, bySerial), c))
  {
    if gone == {} {
      ReconReadyKeeps(cfg, sh, ready, bySerial, c);
    } else if c.pick in gone && c.pick in bySerial {
      var sh' := sh.(pods := DeletePod(sh.pods, bySerial[c.pick].name, c.ok));
      DeleteKeeps(sh, bySerial[c.pick].name, c.ok);
      GotoKeeps(sh, sh', Idle, ReconRest(gone - {c.pick}, ready, bySerial));
    } else {
      GotoKeeps(sh, sh, Idle, ReconRest(gone, ready, bySerial));
    }
  }

  lemma ReconReadyKeeps(cfg: Config, sh: Shared, ready: map<Serial, HubDevice>, bySerial: map<Serial, Pod>, c: Choice)
    requires SharedOk(sh) && RestOk(sh.owner, ReconRest({}, ready, bySerial))
    ensures Keeps(sh, StepIdle(cfg, sh, ReconRest({}, ready, bySerial), c))
  {
    var rest := ReconRest({}, ready, bySerial);
    if c.pick in ready {
      var rest' := ReconRest({}, ready - {c.pick}, bySerial);
      assert RestOk(sh.owner, rest');
      GotoKeeps(sh, sh, Idle, rest');
      GotoKeeps(sh, sh, Schedule(ready[c.pick], false), rest');
      if c.pick in bySerial && Finished(bySerial[c.pick]) { ClaimKeeps(sh, bySerial[c.pick], rest'); }
    } else {
      GotoKeeps(sh, sh, Idle, rest);
    }
  }

  lemma ListingKnown(sh: Shared, serial: Option<Serial>, list: seq<Pod>)
    requires ClusterOk(sh.pods, sh.owner) && IsListing(sh.pods, serial, list)
    ensures RestOk(sh.owner, CheckRest(list))
  {}

  lemma InsertKeeps(sh: Shared, p: Pod)
    requires SharedOk(sh) && PodKnown(sh.owner, p)
    ensures var sh' := sh.(rows := Insert(sh.rows, PodKey(p), p.device)); SharedOk(sh') && Later(sh, sh')
  {}

  lemma CollectKeeps(cfg: Config, sh: Shared, t: Task, c: Choice)
    requires SharedOk(sh) && TaskOk(sh, t) && GroupOf(t.pc) == GCollect
    ensures Keeps(sh, StepCollect(cfg, sh, t.pc, t.rest, c))
  {
    match t.pc {
      case Idle => IdleKeeps(cfg, sh, t.rest, c);
      case ListCheck => if IsListing(sh.pods, None, c.listing) { ListingKnown(sh, None, c.listing); }
      case ListRecon(devs) => if IsListing(sh.pods, None, c.listing) { ListingKnown(sh, None, c.listing); }
      case _ => ClaimedKeeps(cfg, sh, t, c);
    }
  }

  /** The steps after a pod has been claimed. */
  lemma ClaimedKeeps(cfg: Config, sh: Shared, t: Task, c: Choice)
    requires SharedOk(sh) && TaskOk(sh, t) && GroupOf(t.pc) == GCollect && !t.pc.Idle? && !t.pc.ListCheck?
             && !t.pc.ListRecon?
    ensures Keeps(sh, StepCollect(cfg, sh, t.pc, t.rest, c))
  {
    match t.pc {
      case Stale(p) =>
        DeleteKeeps(sh, p.name, c.ok);
        GotoKeeps(sh, sh.(pods := DeletePod(sh.pods, p.name, c.ok)), Idle, t.rest);
      case Claimed(p) =>
        DeleteKeeps(sh, p.name, c.ok);
        GotoKeeps(sh, sh.(pods := DeletePod(sh.pods, p.name, c.ok)), Deleted(p), t.rest);
      case Deleted(p) =>
        InsertKeeps(sh, p);
        TaskOkLater(sh, sh.(rows := Insert(sh.rows, PodKey(p), p.device)), Task(Idle, t.rest));
      case Saved(serial, rid) => GotoKeeps(sh, sh.(rebooting := sh.rebooting + {serial}), Marked(serial, rid), t.rest);
      case Marked(_, _) =>
    }
  }

  lemma StepKeeps(cfg: Config, sh: Shared, t: Task, c: Choice)
    requires SharedOk(sh) && TaskOk(sh, t) && Covered(sh, t)
    ensures Keeps(sh, Local(cfg, sh, t, c))
  {
    match GroupOf(t.pc) {
      case GReady => ReadyKeeps(cfg, sh, t);
      case GHandler => HandlerKeeps(sh, t, c);
      case GCreate => CreateGroupKeeps(sh, t, c);
      case GReboot => RebootKeeps(sh, t, c);
      case GCollect => CollectKeeps(cfg, sh, t, c);
    }
  }
}
