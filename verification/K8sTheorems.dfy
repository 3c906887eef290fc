/** Safety of the hub-mode engine over every interleaving. */
module K8sTheorems {
  import opened AdbDevices
  import opened K8sInvariants
  import opened K8sState
  import opened Ledger
  import opened Naming
  import opened RunTable

  // ── Every event keeps the invariant ──

  lemma InvCovers(s: State, id: nat)
    requires Inv(s) && id in s.tasks
    ensures Covered(s.sh, s.tasks[id])
  {
    var t := s.tasks[id];
    TotalCovers(s.tasks, Tokens, id);
    TotalCovers(s.tasks, Claims, id);
    TotalCovers(s.tasks, Debts, id);
    forall serial | serial in Tokens(t) ensures serial in s.sh.stabilizing {
      assert TokensAgree(s, serial);
    }
    forall k | k in Claims(t) ensures k !in s.sh.lost {
      assert ClaimsAgree(s, k);
    }
    forall rid | rid in Debts(t) ensures Outstanding(s.sh.rows, rid) {
      assert DebtsAgree(s, rid);
      OwedIs(s.sh.rows, rid);
    }
  }

  /** A law about one task lifts to the whole table. */
  lemma LiftTokens(s: State, id: nat, f: Effect, newId: nat, serial: Serial)
    requires TokensAgree(s, serial) && id in s.tasks && newId !in s.tasks && TokenLaw(s.sh, s.tasks[id], f, serial)
    ensures TokensAgree(State(s.cfg, f.sh, After(s.tasks, id, f.next, newId, f.spawn)), serial)
  {
    Balance(s.tasks, id, f.next, newId, f.spawn, Tokens);
    var after := Total(After(s.tasks, id, f.next, newId, f.spawn), Tokens);
    assert (after + Tokens(s.tasks[id]))[serial]
           == (Total(s.tasks, Tokens) + Held(f.next, Tokens) + Held(f.spawn, Tokens))[serial];
  }

  lemma LiftClaims(s: State, id: nat, f: Effect, newId: nat, key: string)
    requires ClaimsAgree(s, key) && id in s.tasks && newId !in s.tasks && ClaimLaw(s.sh, s.tasks[id], f, key)
    ensures ClaimsAgree(State(s.cfg, f.sh, After(s.tasks, id, f.next, newId, f.spawn)), key)
  {
    Balance(s.tasks, id, f.next, newId, f.spawn, Claims);
    var after := Total(After(s.tasks, id, f.next, newId, f.spawn), Claims);
    assert (after + Claims(s.tasks[id]))[key]
           == (Total(s.tasks, Claims) + Held(f.next, Claims) + Held(f.spawn, Claims))[key];
  }

  lemma LiftDebts(s: State, id: nat, f: Effect, newId: nat, rid: int)
    requires DebtsAgree(s, rid) && id in s.tasks && newId !in s.tasks && DebtLaw(s.sh, s.tasks[id], f, rid)
    ensures DebtsAgree(State(s.cfg, f.sh, After(s.tasks, id, f.next, newId, f.spawn)), rid)
  {
    Balance(s.tasks, id, f.next, newId, f.spawn, Debts);
    var after: multiset<int> := Total(After(s.tasks, id, f.next, newId, f.spawn), Debts);
    assert (after + Debts(s.tasks[id]))[rid]
           == (Total(s.tasks, Debts) + Held(f.next, Debts) + Held(f.spawn, Debts))[rid];
  }

  lemma StepInv(s: State, id: nat, c: Choice)
    requires Inv(s)
    ensures Inv(Exec(s, Step(id, c))) && Later(s.sh, Exec(s, Step(id, c)).sh)
  {
    if id in s.tasks && c.id !in s.tasks {
      var s' := Exec(s, Step(id, c));
      InvCovers(s, id);
      StepKeeps(s.cfg, s.sh, s.tasks[id], c);
      forall t | t in s'.tasks ensures TaskOk(s'.sh, s'.tasks[t]) {
        if t != id && t != c.id {
          TaskOkLater(s.sh, s'.sh, s.tasks[t]);
        }
      }
      var f := Local(s.cfg, s.sh, s.tasks[id], c);
      forall serial ensures TokensAgree(s', serial) {
        assert TokensAgree(s, serial);
        StepLaws(s.cfg, s.sh, s.tasks[id], c, serial, "", 0);
        LiftTokens(s, id, f, c.id, serial);
      }
      forall key ensures ClaimsAgree(s', key) {
        assert ClaimsAgree(s, key);
        StepLaws(s.cfg, s.sh, s.tasks[id], c, "", key, 0);
        LiftClaims(s, id, f, c.id, key);
      }
      forall rid ensures DebtsAgree(s', rid) {
        assert DebtsAgree(s, rid);
        StepLaws(s.cfg, s.sh, s.tasks[id], c, "", "", rid);
        LiftDebts(s, id, f, c.id, rid);
      }
    }
  }

  lemma EntryPlain(act: Activity)
    ensures Plain(Entry(act).pc) && Entry(act).rest == NoRest && Entry(act).pc != Idle
    ensures Tokens(Entry(act)) == multiset{} && Claims(Entry(act)) == multiset{} && Debts(Entry(act)) == multiset{}
    ensures !Entry(act).pc.Stale? && !Entry(act).pc.ClearDeferred?
  {}

  lemma BeginInv(s: State, id: nat, act: Activity)
    requires Inv(s) && id !in s.tasks
    ensures Inv(Exec(s, Begin(id, act))) && Later(s.sh, Exec(s, Begin(id, act)).sh)
  {
    var s' := Exec(s, Begin(id, act));
    EntryPlain(act);
    TotalPut(s.tasks, Tokens, id, Entry(act));
    TotalPut(s.tasks, Claims, id, Entry(act));
    TotalPut(s.tasks, Debts, id, Entry(act));
    SameLedgers(s, s');
  }

  /** Events that leave the books and the totals alone. */
  lemma SameLedgers(s: State, s': State)
    requires Inv(s) && SameBooks(s.sh, s'.sh)
    requires Total(s'.tasks, Tokens) == Total(s.tasks, Tokens)
    requires Total(s'.tasks, Claims) == Total(s.tasks, Claims)
    requires Total(s'.tasks, Debts) == Total(s.tasks, Debts)
    ensures forall serial :: TokensAgree(s', serial)
    ensures forall key :: ClaimsAgree(s', key)
    ensures forall rid :: DebtsAgree(s', rid)
  {
    forall serial ensures TokensAgree(s', serial) { assert TokensAgree(s, serial); }
    forall key ensures ClaimsAgree(s', key) { assert ClaimsAgree(s, key); }
    forall rid ensures DebtsAgree(s', rid) { assert DebtsAgree(s, rid); }
  }

  lemma ClusterShared(s: State, e: Event)
    requires SharedOk(s.sh) && (e.Status? || e.Vanish? || e.Foreign?)
    ensures var s' := Exec(s, e); SharedOk(s'.sh) && Later(s.sh, s'.sh) && SameBooks(s.sh, s'.sh) && s'.tasks == s.tasks
  {
    match e {
      case Status(name, phase, sts) => if name in s.sh.pods { StatusOk(s.sh.pods, s.sh.owner, name, phase, sts); }
      case Vanish(name) =>
      case Foreign(p) => if !p.managed && p.name !in s.sh.pods && p.uid != "" && p.uid !in s.sh.owner {
        AddPodOk(s.sh.pods, s.sh.owner, p);
      }
    }
  }

  lemma StatusOk(pods: map<string, Pod>, owner: map<string, Serial>, name: string, phase: Phase,
                 sts: seq<ContainerStatus>)
    requires ClusterOk(pods, owner) && name in pods
    ensures ClusterOk(pods[name := pods[name].(phase := phase, statuses := sts)], owner)
  {}

  lemma ClusterInv(s: State, e: Event)
    requires Inv(s) && (e.Status? || e.Vanish? || e.Foreign?)
    ensures Inv(Exec(s, e)) && Later(s.sh, Exec(s, e).sh)
  {
    var s' := Exec(s, e);
    ClusterShared(s, e);
    forall t | t in s'.tasks ensures TaskOk(s'.sh, s'.tasks[t]) { TaskOkLater(s.sh, s'.sh, s.tasks[t]); }
    SameLedgers(s, s');
  }

  lemma ExecInv(s: State, e: Event)
    requires Inv(s)
    ensures Inv(Exec(s, e)) && Later(s.sh, Exec(s, e).sh)
  {
    match e {
      case Begin(id, act) => if id !in s.tasks { BeginInv(s, id, act); }
      case Step(id, c) => StepInv(s, id, c);
      case _ => ClusterInv(s, e);
    }
  }

  lemma InitInv(s: State)
    requires Init(s)
    ensures Inv(s)
  {
    TotalNothing(s.tasks, Tokens);
    TotalNothing(s.tasks, Claims);
    TotalNothing(s.tasks, Debts);
  }

  /** The invariant holds after any sequence of events, in any order. */
  lemma {:induction false} ReachableInv(s: State, es: seq<Event>)
    requires Inv(s)
    ensures Inv(ExecAll(s, es))
  {
    if es != [] {
      ReachableInv(s, es[..|es| - 1]);
      ExecInv(ExecAll(s, es[..|es| - 1]), es[|es| - 1]);
    }
  }

  // ── Exactly-once collection ──

  /** Tasks that have claimed a pod and not yet stored its run. */
  ghost function InFlight(s: State): set<nat>
  {
    Holders(s.tasks, Claims)
  }

  lemma RowsOnce(s: State, i: nat, j: nat)
    requires Inv(s) && i < j < |s.sh.rows|
    ensures s.sh.rows[i].key != s.sh.rows[j].key
  {
    assert ClaimsAgree(s, s.sh.rows[i].key);
    if s.sh.rows[i].key == s.sh.rows[j].key {
      KeysOnce(s.sh.rows, i, j);
    }
  }

  lemma {:induction false} SizeFromCounts<T>(a: multiset<T>, b: set<T>)
    requires forall x :: a[x] == if x in b then 1 else 0
    ensures |a| == |b|
  {
    assert a == multiset(b);
  }

  lemma ReportedCount(s: State)
    requires Inv(s)
    ensures |s.sh.reported| == |s.sh.rows| + |InFlight(s)| + |s.sh.lost|
  {
    var total := Total(s.tasks, Claims) + (Keys(s.sh.rows) + multiset(s.sh.lost));
    forall k ensures total[k] == if k in s.sh.reported then 1 else 0 {
      assert ClaimsAgree(s, k);
    }
    SizeFromCounts(total, s.sh.reported);
    TotalCounts(s.tasks, Claims);
    KeysSize(s.sh.rows);
  }

  /** Under every interleaving of `CheckPods` and `Reconcile` passes (stale pod lists
      included) with all other activities: two runs never come from the same pod, every
      run carries the device its pod was created for, and the reported keys are counted
      exactly by inserted runs, collections in flight and failed inserts. */
  lemma ExactlyOnceCollection(s0: State, es: seq<Event>)
    requires Init(s0)
    ensures var s := ExecAll(s0, es);
            && (forall i, j :: 0 <= i < j < |s.sh.rows| ==> s.sh.rows[i].key != s.sh.rows[j].key)
            && (forall i :: 0 <= i < |s.sh.rows| ==>
                s.sh.rows[i].key in s.sh.owner && s.sh.owner[s.sh.rows[i].key] == s.sh.rows[i].serial)
            && |s.sh.reported| == |s.sh.rows| + |InFlight(s)| + |s.sh.lost|
  {
    InitInv(s0);
    ReachableInv(s0, es);
    var s := ExecAll(s0, es);
    forall i, j | 0 <= i < j < |s.sh.rows| ensures s.sh.rows[i].key != s.sh.rows[j].key { RowsOnce(s, i, j); }
    ReportedCount(s);
  }

  predicate DbOk(es: seq<Event>)
  {
    forall i :: 0 <= i < |es| && es[i].Step? ==> es[i].c.dbOk
  }

  lemma LocalLost(cfg: Config, sh: Shared, t: Task, c: Choice)
    requires c.dbOk
    ensures Local(cfg, sh, t, c).sh.lost == sh.lost
  {
    match GroupOf(t.pc) {
      case GReady => ReadyShape(cfg, sh, t, c);
      case GHandler => HandlerShape(sh, t, c);
      case GCreate => CreateShape(sh, t, c);
      case GReboot => RebootShape(sh, t, c);
      case GCollect => CollectShape(cfg, sh, t, c);
    }
  }

  lemma {:induction false} NothingLost(s0: State, es: seq<Event>)
    requires Init(s0) && DbOk(es)
    ensures ExecAll(s0, es).sh.lost == {}
  {
    if es != [] {
      var s := ExecAll(s0, es[..|es| - 1]);
      NothingLost(s0, es[..|es| - 1]);
      var e := es[|es| - 1];
      if e.Step? && e.id in s.tasks {
        LocalLost(s.cfg, s.sh, s.tasks[e.id], e.c);
      }
    }
  }

  /** When every insert succeeds, reported keys are exactly inserted runs plus
      collections in flight. */
  lemma ReportedIsInsertedPlusInFlight(s0: State, es: seq<Event>)
    requires Init(s0) && DbOk(es)
    ensures var s := ExecAll(s0, es); |s.sh.reported| == |s.sh.rows| + |InFlight(s)|
  {
    ExactlyOnceCollection(s0, es);
    NothingLost(s0, es);
  }

  // ── Settle token ──

  predicate HoldsToken(t: Task, serial: Serial)
  {
    (t.pc.SpawnSettle? || t.pc.Sleeping?) && t.pc.dev.serial == serial
  }

  /** A device is in `stabilizing` exactly when one settle task holds its token, so two
      settle waits for one device never overlap. */
  lemma SettleToken(s0: State, es: seq<Event>, serial: Serial)
    requires Init(s0)
    ensures var s := ExecAll(s0, es);
            && (serial in s.sh.stabilizing <==> exists t :: t in s.tasks && HoldsToken(s.tasks[t], serial))
            && (forall t, u ::
                  t in s.tasks && u in s.tasks && HoldsToken(s.tasks[t], serial) && HoldsToken(s.tasks[u], serial) ==>
                    t == u)
  {
    InitInv(s0);
    ReachableInv(s0, es);
    var s := ExecAll(s0, es);
    assert TokensAgree(s, serial);
    TotalHas(s.tasks, Tokens, serial);
    forall t | t in s.tasks ensures HoldsToken(s.tasks[t], serial) <==> serial in Tokens(s.tasks[t]) {}
    forall t, u | t in s.tasks && u in s.tasks && HoldsToken(s.tasks[t], serial) && HoldsToken(s.tasks[u], serial)
        ensures t == u {
      TotalOnce(s.tasks, Tokens, t, u, serial);
    }
  }

  // ── Boot results ──

  /** Tasks that still owe a row its boot outcome. */
  ghost function Owing(s: State): set<nat>
  {
    Holders(s.tasks, Debts)
  }

  lemma OwedCount(s: State)
    requires Inv(s)
    ensures |Owed(s.sh.rows)| == |Owing(s)|
  {
    var owed := Owed(s.sh.rows);
    forall rid ensures Total(s.tasks, Debts)[rid] == owed[rid] { assert DebtsAgree(s, rid); }
    assert Total(s.tasks, Debts) == owed;
    TotalCounts(s.tasks, Debts);
  }

  ghost predicate OwesRow(s: State, t: nat, rid: int)
  {
    t in s.tasks && rid in Debts(s.tasks[t])
  }

  lemma OwedByOne(s: State, rid: int)
    requires Inv(s)
    ensures Outstanding(s.sh.rows, rid) <==> exists t :: OwesRow(s, t, rid)
    ensures forall t, u :: OwesRow(s, t, rid) && OwesRow(s, u, rid) ==> t == u
  {
    assert DebtsAgree(s, rid);
    OwedIs(s.sh.rows, rid);
    TotalHas(s.tasks, Debts, rid);
    if t :| t in s.tasks && rid in Debts(s.tasks[t]) {
      assert OwesRow(s, t, rid);
    }
    forall t, u | OwesRow(s, t, rid) && OwesRow(s, u, rid) ensures t == u {
      TotalOnce(s.tasks, Debts, t, u, rid);
    }
  }

  /** Every inserted run has had its boot update or is owed it by exactly one pending
      collection or reboot task, and none is updated twice. */
  lemma BootConservation(s0: State, es: seq<Event>)
    requires Init(s0)
    ensures var s := ExecAll(s0, es);
            && |s.sh.rows| == |Booted(s.sh.rows)| + |Owing(s)|
            && (forall i :: 0 <= i < |s.sh.rows| ==> s.sh.rows[i].attempts <= 1)
            && (forall rid :: Outstanding(s.sh.rows, rid) <==> exists t :: OwesRow(s, t, rid))
            && (forall rid, t, u :: OwesRow(s, t, rid) && OwesRow(s, u, rid) ==> t == u)
  {
    InitInv(s0);
    ReachableInv(s0, es);
    var s := ExecAll(s0, es);
    BootedPlusOwed(s.sh.rows);
    OwedCount(s);
    forall rid ensures Outstanding(s.sh.rows, rid) <==> exists t :: OwesRow(s, t, rid) { OwedByOne(s, rid); }
    forall rid, t, u | OwesRow(s, t, rid) && OwesRow(s, u, rid) ensures t == u { OwedByOne(s, rid); }
  }

  // ── One pod per device ──

  predicate IsPodOf(pods: map<string, Pod>, name: string, serial: Serial)
  {
    name in pods && pods[name].managed && pods[name].device == serial
  }

  /** No device ever has two managed pods, although every creator lists first and
      creates later without a lock. */
  lemma OnePodPerDevice(s0: State, es: seq<Event>, serial: Serial)
    requires Init(s0)
    ensures var pods := ExecAll(s0, es).sh.pods;
            forall n, k :: IsPodOf(pods, n, serial) && IsPodOf(pods, k, serial) ==> n == k
  {
    InitInv(s0);
    ReachableInv(s0, es);
  }
}
