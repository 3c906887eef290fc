/** Whole cycles of the hub-mode manager, handler after handler. */
module K8sLifecycle {
  import opened AdbDevices
  import opened K8sFields
  import opened K8sInvariants
  import opened K8sManager
  import opened K8sPasses
  import opened K8sState
  import opened K8sTheorems
  import opened Ledger
  import opened Options
  import opened RunTable

  /** A device in `stabilizing` has its settle goroutine, and the goroutine is asleep. */
  lemma SettleGoroutine(m: Manager, serial: Serial)
    requires m.Valid() && serial in m.stabilizing
    ensures exists id :: IsSettle(m.goroutines, id, serial)
  {
    assert TokensAgree(m.View(), serial);
    TotalHas(m.goroutines, Tokens, serial);
    var id :| id in m.goroutines && serial in Tokens(m.goroutines[id]);
    assert IsSettle(m.goroutines, id, serial);
  }

  predicate IsSettle(goroutines: map<nat, Task>, id: nat, serial: Serial)
  {
    id in goroutines && goroutines[id].rest == NoRest && goroutines[id].pc.Sleeping?
      && goroutines[id].pc.dev.serial == serial
  }

  /** No device is stranded: whatever the manager's state, a ready device whose image is
      configured and whose pod name nobody else holds ends up with a pod once its settle
      wait is over and its battery has reached the resume level, if no API call fails. */
  method ReadyUntilPod(m: Manager, dev: HubDevice, info: Option<int>, level: int)
    requires m.Valid() && ImageSet(m.cfg, dev) && !m.Squatted(dev.serial)
    requires level >= 35
    modifies m
    ensures m.Valid() && m.faults >= old(m.faults)
    ensures m.faults == old(m.faults) ==> HasPod(m.pods, dev.serial)
  {
    var f := m.faults;
    m.OnDeviceReady(dev, info);
    if m.faults != f { return; }
    if dev.serial in m.stabilizing {
      SettleGoroutine(m, dev.serial);
      var id :| id in m.goroutines && IsSettle(m.goroutines, id, dev.serial);
      var settling := m.goroutines[id].pc.dev;
      m.Settle(id, settling);
      if m.faults != f { return; }
    }
    if dev.serial in m.lowBattery {
      m.OnBatteryUpdated(dev.serial, level);
    }
  }

  /** Battery hysteresis. From a deferral on, along any sequence of battery updates for
      the device, nothing is requested while every level stays below 35, at most one pod
      is requested in all, and once a level of 35 or more arrives the deferral is gone and
      the device has a pod unless a call failed or its name is taken. */
  method BatteryUpdates(m: Manager, serial: Serial, levels: seq<int>)
    requires m.Valid() && serial in m.lowBattery
    modifies m
    ensures m.Valid() && m.faults >= old(m.faults)
    ensures old(m.requests) <= m.requests && |m.requests| <= |old(m.requests)| + 1
    ensures |m.requests| > |old(m.requests)| ==>
              m.requests[|old(m.requests)|].serial == serial && m.requests[|old(m.requests)|].level >= 35
    ensures AllBelow(levels) ==> m.requests == old(m.requests) && m.pods == old(m.pods) && serial in m.lowBattery
    ensures !AllBelow(levels) ==> serial !in m.lowBattery
    ensures !AllBelow(levels) && m.faults == old(m.faults) ==> (HasPod(m.pods, serial) <==> !old(m.Squatted(serial)))
  {
    var i := 0;
    while i < |levels|
      invariant i <= |levels| && m.Valid() && m.faults >= old(m.faults)
      invariant AllBelow(levels[..i]) <==> serial in m.lowBattery
      invariant AllBelow(levels[..i]) ==>
                m.requests == old(m.requests) && m.pods == old(m.pods) && m.faults == old(m.faults)
      invariant old(m.requests) <= m.requests && |m.requests| <= |old(m.requests)| + 1
      invariant |m.requests| > |old(m.requests)| ==>
                m.requests[|old(m.requests)|].serial == serial && m.requests[|old(m.requests)|].level >= 35
      invariant !AllBelow(levels[..i]) && m.faults == old(m.faults) ==>
                (HasPod(m.pods, serial) <==> !old(m.Squatted(serial)))
    {
      BelowStep(levels, i);
      m.OnBatteryUpdated(serial, levels[i]);
      i := i + 1;
    }
    assert levels[..i] == levels;
  }

  predicate AllBelow(levels: seq<int>)
  {
    forall i :: 0 <= i < |levels| ==> levels[i] < 35
  }

  lemma BelowStep(levels: seq<int>, i: nat)
    requires i < |levels|
    ensures AllBelow(levels[..i + 1]) <==> AllBelow(levels[..i]) && levels[i] < 35
  {
    assert levels[..i + 1] == levels[..i] + [levels[i]];
    if AllBelow(levels[..i + 1]) {
      assert levels[..i + 1][i] == levels[i];
      forall k | 0 <= k < i ensures levels[..i][k] < 35 { assert levels[..i + 1][k] == levels[k]; }
    }
  }

  /** What is left after a pass without faults. */
  function Undue(pods: map<string, Pod>): map<string, Pod>
  {
    map n | n in pods && !Due(pods[n]) :: pods[n]
  }

  lemma NothingDueTwice(pods: map<string, Pod>)
    ensures DuePodKeys(Undue(pods)) == {} && Undue(Undue(pods)) == Undue(pods)
  {}

  /** One pass, with the number of runs it adds. */
  method CheckOnce(m: Manager) returns (added: nat)
    requires m.Valid()
    modifies m
    ensures m.Valid() && m.faults >= old(m.faults) && |m.rows| == |old(m.rows)| + added
    ensures m.faults == old(m.faults) ==>
              && m.pods == Undue(old(m.pods)) && m.reported == old(m.reported) + DuePodKeys(old(m.pods))
              && added == |DuePodKeys(old(m.pods)) - old(m.reported)|
  {
    var n := |m.rows|;
    ghost var sh := m.Sh();
    m.CheckPods();
    GrowsLength(sh, m.Sh());
    added := |m.rows| - n;
    NewKeysSize(m.View(), n);
  }

  /** Two passes in a row: the first adds one run per due pod whose key is new, the second
      adds none and changes nothing else. */
  method CheckTwice(m: Manager) returns (first: nat, second: nat)
    requires m.Valid()
    modifies m
    ensures m.Valid()
    ensures m.faults == old(m.faults) ==>
              && first == |DuePodKeys(old(m.pods)) - old(m.reported)| && second == 0
              && m.pods == Undue(old(m.pods)) && m.reported == old(m.reported) + DuePodKeys(old(m.pods))
  {
    first := CheckOnce(m);
    NothingDueTwice(old(m.pods));
    second := CheckOnce(m);
  }

  lemma GrowsLength(sh: Shared, sh': Shared)
    requires Later(sh, sh')
    ensures |sh.rows| <= |sh'.rows|
  {}

  /** Runs have distinct keys, so counting new keys counts new runs. */
  lemma NewKeysSize(s: State, n: nat)
    requires Inv(s) && n <= |s.sh.rows|
    ensures |NewKeys(s.sh.rows, n)| == |s.sh.rows| - n
  {
    var rows := s.sh.rows;
    forall i, j | 0 <= i < j < |rows| ensures rows[i].key != rows[j].key { RowsOnce(s, i, j); }
    DistinctSize(rows, n);
  }

  lemma {:induction false} DistinctSize(rows: seq<Row>, n: nat)
    requires n <= |rows| && forall i, j :: 0 <= i < j < |rows| ==> rows[i].key != rows[j].key
    ensures |NewKeys(rows, n)| == |rows| - n
    decreases |rows| - n
  {
    if n < |rows| {
      DistinctSize(rows, n + 1);
      assert NewKeys(rows, n) == NewKeys(rows, n + 1) + {rows[n].key};
    }
  }
}
