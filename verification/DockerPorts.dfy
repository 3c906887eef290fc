/** Ports over one pass: every attempt to create an Appium container with its outcome made
    explicit, and exactly which outcomes make two devices share a port. */
module DockerPorts {
  import opened AdbDevices
  import opened DockerState
  import opened Options

  /** Managed Appium containers have pairwise distinct non-zero ports. */
  ghost predicate PortsDistinct(cs: map<string, Container>)
  {
    && (forall n :: IsAppium(cs, n) ==> cs[n].port > 0)
    && (forall n, k :: IsAppium(cs, n) && IsAppium(cs, k) && cs[n].port == cs[k].port ==> n == k)
  }

  // ── The lowest free port ──

  /** Only positive ports count as used. */
  predicate PortTaken(existing: map<Serial, DC>, port: int)
  {
    port > 0 && exists s :: s in existing && existing[s].appiumPort == port
  }

  predicate LeastFree(existing: map<Serial, DC>, base: int, port: int)
  {
    port >= base && !PortTaken(existing, port) && forall p :: base <= p < port ==> PortTaken(existing, p)
  }

  function UsedPorts(existing: map<Serial, DC>): set<int>
  {
    set s | s in existing && existing[s].appiumPort > 0 :: existing[s].appiumPort
  }

  /** The search of `nextPort`: from `port` on, past every used one. */
  function FreeFrom(used: set<int>, port: int): (free: int)
    ensures free >= port && free !in used && forall p :: port <= p < free ==> p in used
  {
    if port !in used then port
    else
      var free := FreeFrom(used - {port}, port + 1);
      assert forall p :: port < p < free ==> p in used - {port};
      free
  }

  function FreePort(existing: map<Serial, DC>, base: int): (free: int)
    ensures LeastFree(existing, base, free)
  {
    var free := FreeFrom(UsedPorts(existing), base);
    assert forall p :: p in UsedPorts(existing) <==> PortTaken(existing, p);
    free
  }

  lemma LeastFreeUnique(existing: map<Serial, DC>, base: int, p: int, q: int)
    requires LeastFree(existing, base, p) && LeastFree(existing, base, q)
    ensures p == q
  {}

  // ── One attempt ──

  /** The records and the containers, as the creation loop has them. */
  datatype Book = Book(existing: map<Serial, DC>, cs: map<string, Container>)

  /** What the world decides about one attempt: whether the exited container goes, how the
      creation ends, and which container Docker lists first if the name is taken. */
  datatype Choice = Choice(serial: Serial, dropped: bool, id: string, outcome: Outcome, found: string)

  /** One call of `createAppium`. `isNew`: the device had no port on record. `others` are the
      ports of the other devices' Appium containers when `killPortHolder` frees the port.
      `borrowed`: the container reused is not the device's own. */
  datatype Attempt = Attempt(serial: Serial, port: int, isNew: bool, outcome: Outcome, others: set<int>, borrowed: bool)

  function OtherPorts(cs: map<string, Container>, serial: Serial): set<int>
  {
    set n | n in cs && cs[n].managed && cs[n].role == Appium && cs[n].device != serial :: cs[n].port
  }

  /** Its own port, or the lowest free one. */
  function ChosenPort(existing: map<Serial, DC>, base: int, serial: Serial): int
  {
    if PortOf(existing, serial) != 0 then PortOf(existing, serial) else FreePort(existing, base)
  }

  function AfterDrop(cs: map<string, Container>, c: Choice): map<string, Container>
  {
    if Find(cs, Appium, c.serial).Some? && c.dropped then cs - {NameOf(Appium, c.serial)} else cs
  }

  /** A container is reused only if the name is taken. */
  function OutcomeOf(cs: map<string, Container>, c: Choice): Outcome
  {
    var cs' := AfterDrop(cs, c);
    if NameOf(Appium, c.serial) in cs' then (if c.outcome == Reused && c.found in cs' then Reused else Refused)
    else if c.outcome == Reused then Refused else c.outcome
  }

  predicate Borrows(cs: map<string, Container>, c: Choice, outcome: Outcome)
  {
    outcome == Reused && !Owns(AfterDrop(cs, c), c.found, Appium, c.serial)
  }

  function AttemptOf(base: int, b: Book, c: Choice): Attempt
  {
    var outcome := OutcomeOf(b.cs, c);
    Attempt(c.serial, ChosenPort(b.existing, base, c.serial), PortOf(b.existing, c.serial) == 0, outcome,
            OtherPorts(b.cs, c.serial), Borrows(b.cs, c, outcome))
  }

  /** What `createAppium` returns, with the test half of the record kept. */
  function Result(cs: map<string, Container>, c: Choice, outcome: Outcome, port: int, rec: DC): DC
  {
    if outcome == Reused && c.found in cs then
      var it := cs[c.found];
      DC(it.id, if it.port != 0 then it.port else port, it.state, rec.testID, rec.testStatus)
    else DC(c.id, port, "running", rec.testID, rec.testStatus)
  }

  predicate Recording(outcome: Outcome)
  {
    outcome == Started || outcome == Reused
  }

  function TryAppium(base: int, b: Book, c: Choice): Book
  {
    var a, cs := AttemptOf(base, b, c), AfterDrop(b.cs, c);
    var dc := Result(cs, c, a.outcome, a.port, Rec(b.existing, c.serial));
    Book(if Recording(a.outcome) then b.existing[c.serial := dc] else b.existing,
         Created(cs, Appium, c.serial, c.id, a.port, a.outcome))
  }

  /** The ports of the other devices are the same before and after the exited container goes. */
  lemma SameOthers(cs: map<string, Container>, c: Choice)
    ensures OtherPorts(AfterDrop(cs, c), c.serial) == OtherPorts(cs, c.serial)
  {
    var cs' := AfterDrop(cs, c);
    forall n | n in cs && n !in cs' ensures Owns(cs, n, Appium, c.serial) {}
  }

  /** The steps of the code add up to one attempt. */
  lemma TryIs(base: int, b: Book, c: Choice, cs: map<string, Container>, port: int)
    requires cs == AfterDrop(b.cs, c) && port == ChosenPort(b.existing, base, c.serial)
    requires if NameOf(Appium, c.serial) in cs then c.outcome == Refused || (c.outcome == Reused && c.found in cs)
             else c.outcome != Reused
    ensures AttemptOf(base, b, c) ==
              Attempt(c.serial, port, PortOf(b.existing, c.serial) == 0, c.outcome, OtherPorts(cs, c.serial),
                      c.outcome == Reused && !Owns(cs, c.found, Appium, c.serial))
    ensures var dc := Result(cs, c, c.outcome, port, Rec(b.existing, c.serial));
            TryAppium(base, b, c) == Book(if Recording(c.outcome) then b.existing[c.serial := dc] else b.existing,
                                          Created(cs, Appium, c.serial, c.id, port, c.outcome))
  {
    SameOthers(b.cs, c);
  }

  lemma OwnNameOnly(base: int, b: Book, c: Choice)
    ensures var cs' := TryAppium(base, b, c).cs;
            forall n :: n != NameOf(Appium, c.serial) ==> (n in cs' <==> n in b.cs) && (n in b.cs ==> cs'[n] == b.cs[n])
  {}

  // ── What the outcomes of a pass come to ──

  /** The attempt put a container on its port that another device's container has. */
  predicate Collides(a: Attempt)
  {
    (a.outcome == Started || a.outcome == Leaked) && a.port in a.others
  }

  predicate NoneCollide(ats: seq<Attempt>)
  {
    forall i :: 0 <= i < |ats| ==> !Collides(ats[i])
  }

  predicate NoneBorrow(ats: seq<Attempt>)
  {
    forall i :: 0 <= i < |ats| ==> !ats[i].borrowed
  }

  /** A container was left behind on a port that is on nobody's record. */
  predicate Strays(a: Attempt)
  {
    a.isNew && a.outcome == Leaked
  }

  /** A new device's creation that leaves a container. */
  predicate Leaves(a: Attempt)
  {
    a.isNew && (a.outcome == Started || a.outcome == Leaked)
  }

  /** A stray container is followed by a new device's creation that leaves one. */
  predicate Clashes(ats: seq<Attempt>)
  {
    exists i, j :: 0 <= i < j < |ats| && Strays(ats[i]) && Leaves(ats[j])
  }

  /** A stray container is followed by a new device that reaches `createAppium` at all. */
  predicate Hits(ats: seq<Attempt>)
  {
    exists i, j :: 0 <= i < j < |ats| && Strays(ats[i]) && ats[j].isNew
  }

  /** No port was freed by force that another device's Appium container had. */
  predicate KillsSafe(ats: seq<Attempt>)
  {
    forall i :: 0 <= i < |ats| ==> ats[i].port !in ats[i].others
  }

  /** Ports are distinct exactly if no attempt collided. When no attempt borrowed a container,
      the outcomes alone say whether they are, and whether a port of another device was freed
      by force. */
  ghost predicate PortsFollow(cs: map<string, Container>, ats: seq<Attempt>)
  {
    && (PortsDistinct(cs) <==> NoneCollide(ats))
    && (NoneBorrow(ats) ==> (PortsDistinct(cs) <==> !Clashes(ats)) && (KillsSafe(ats) <==> !Hits(ats)))
  }

  datatype Phase = Tidy | Stray(serial: Serial) | Clashed

  function PhaseAfter(ph: Phase, a: Attempt): Phase
  {
    match ph
    case Tidy => if Strays(a) then Stray(a.serial) else Tidy
    case Stray(_) => if Leaves(a) then Clashed else ph
    case Clashed => Clashed
  }

  function PhaseOf(ats: seq<Attempt>): Phase
  {
    if ats == [] then Tidy else PhaseAfter(PhaseOf(ats[..|ats| - 1]), ats[|ats| - 1])
  }

  lemma {:induction false} PhaseMeans(ats: seq<Attempt>)
    ensures PhaseOf(ats) == Tidy <==> forall i :: 0 <= i < |ats| ==> !Strays(ats[i])
    ensures PhaseOf(ats) == Clashed <==> Clashes(ats)
  {
    if ats != [] {
      var front, a := ats[..|ats| - 1], ats[|ats| - 1];
      PhaseMeans(front);
      ClashesSnoc(front, a);
      assert front + [a] == ats;
    }
  }

  lemma ClashesSnoc(ats: seq<Attempt>, a: Attempt)
    ensures Clashes(ats + [a]) <==> Clashes(ats) || (Leaves(a) && exists i :: 0 <= i < |ats| && Strays(ats[i]))
    ensures Hits(ats + [a]) <==> Hits(ats) || (a.isNew && exists i :: 0 <= i < |ats| && Strays(ats[i]))
    ensures KillsSafe(ats + [a]) <==> KillsSafe(ats) && a.port !in a.others
    ensures NoneCollide(ats + [a]) <==> NoneCollide(ats) && !Collides(a)
    ensures NoneBorrow(ats + [a]) <==> NoneBorrow(ats) && !a.borrowed
  {
    var all := ats + [a];
    assert forall i :: 0 <= i < |ats| ==> all[i] == ats[i];
    assert all[|ats|] == a;
  }

  // ── The invariant of the creation loop ──

  /** Names of managed Appium containers follow the naming rule. */
  ghost predicate Named(cs: map<string, Container>)
  {
    forall n :: IsAppium(cs, n) ==> n == NameOf(Appium, cs[n].device)
  }

  /** No two devices have the same port on record. */
  predicate RecordsDistinct(existing: map<Serial, DC>)
  {
    && (forall s :: s in existing ==> existing[s].appiumPort >= 0)
    && (forall s, t :: s in existing && t in existing && existing[s].appiumPort == existing[t].appiumPort != 0 ==>
        s == t)
  }

  /** The container's port is positive and the one on record for its device. */
  predicate Tracked(b: Book, n: string)
    requires n in b.cs
  {
    b.cs[n].port > 0 && PortOf(b.existing, b.cs[n].device) == b.cs[n].port
  }

  /** `s` has a container on the lowest free port and no port on record. */
  predicate IsStray(base: int, b: Book, s: Serial)
  {
    && Find(b.cs, Appium, s).Some? && PortOf(b.existing, s) == 0
    && Find(b.cs, Appium, s).value.port == FreePort(b.existing, base)
  }

  predicate SharedPort(cs: map<string, Container>, s: Serial, t: Serial)
  {
    && s != t && Find(cs, Appium, s).Some? && Find(cs, Appium, t).Some?
    && Find(cs, Appium, s).value.port == Find(cs, Appium, t).value.port
  }

  /** The ports in each phase; `done` are the devices already handled. */
  ghost predicate Shape(base: int, b: Book, ph: Phase, done: set<Serial>)
  {
    && Named(b.cs) && (ph != Clashed ==> RecordsDistinct(b.existing))
    && match ph
       case Tidy => forall n :: IsAppium(b.cs, n) ==> Tracked(b, n)
       case Stray(s) =>
         s in done && IsStray(base, b, s) && forall n :: IsAppium(b.cs, n) && b.cs[n].device != s ==> Tracked(b, n)
       case Clashed => exists s, t :: s in done && t in done && SharedPort(b.cs, s, t)
  }

  /** The shape says whether the ports are distinct. */
  lemma ShapeDecides(base: int, b: Book, ph: Phase, done: set<Serial>)
    requires Shape(base, b, ph, done) && base > 0
    ensures PortsDistinct(b.cs) <==> ph != Clashed
  {
    match ph {
      case Tidy =>
      case Stray(s) =>
        assert Owns(b.cs, NameOf(Appium, s), Appium, s);
        forall n | IsAppium(b.cs, n) && b.cs[n].device != s ensures b.cs[n].port != FreePort(b.existing, base) {
          assert b.cs[n].device in b.existing;
        }
      case Clashed =>
        var s, t :| s in done && t in done && SharedPort(b.cs, s, t);
        SharedBreaks(b.cs, s, t);
    }
  }

  // ── One more device ──

  /** An attempt touches only the device's own name, and its own record. */
  lemma TryFrame(base: int, b: Book, c: Choice)
    requires Named(b.cs)
    ensures var b', a := TryAppium(base, b, c), AttemptOf(base, b, c);
            && (forall s :: s != c.serial ==> Find(b'.cs, Appium, s) == Find(b.cs, Appium, s))
            && (forall n :: IsAppium(b'.cs, n) && b'.cs[n].device != c.serial ==>
                IsAppium(b.cs, n) && b'.cs[n] == b.cs[n])
            && (forall s :: s != c.serial ==> PortOf(b'.existing, s) == PortOf(b.existing, s))
            && Named(b'.cs)
  {
    var n0, b' := NameOf(Appium, c.serial), TryAppium(base, b, c);
    assert forall n :: n != n0 ==> (n in b'.cs <==> n in b.cs) && (n in b.cs ==> b'.cs[n] == b.cs[n]);
    if n0 in b.cs && !Owns(b.cs, n0, Appium, c.serial) {
      assert b'.cs == b.cs;
    }
  }

  /** Devices still to come have their containers on record; reusing its own container
      therefore changes no port on record. */
  ghost predicate OwnOnRecord(b: Book, s: Serial)
  {
    forall n :: IsAppium(b.cs, n) && b.cs[n].device == s ==> Tracked(b, n)
  }

  lemma RecordsStep(base: int, b: Book, c: Choice)
    requires RecordsDistinct(b.existing) && base > 0 && OwnOnRecord(b, c.serial) && !AttemptOf(base, b, c).borrowed
    ensures RecordsDistinct(TryAppium(base, b, c).existing)
    ensures AttemptOf(base, b, c).outcome != Started ==>
              PortOf(TryAppium(base, b, c).existing, c.serial) == PortOf(b.existing, c.serial)
  {
    var a := AttemptOf(base, b, c);
    if a.outcome == Reused {
      assert IsAppium(b.cs, c.found) && Tracked(b, c.found);
    } else if a.isNew {
      forall s | s in b.existing ensures b.existing[s].appiumPort != a.port {
        assert !PortTaken(b.existing, a.port);
      }
    }
  }

  /** The lowest free port depends on the ports on record only. */
  lemma SameFreePort(existing: map<Serial, DC>, existing': map<Serial, DC>, base: int)
    requires forall s :: PortOf(existing', s) == PortOf(existing, s)
    ensures FreePort(existing', base) == FreePort(existing, base)
  {
    forall p ensures PortTaken(existing, p) <==> PortTaken(existing', p) {
      if PortTaken(existing, p) {
        var s :| s in existing && existing[s].appiumPort == p;
        assert PortOf(existing', s) == PortOf(existing, s);
      }
      if PortTaken(existing', p) {
        var s :| s in existing' && existing'[s].appiumPort == p;
        assert PortOf(existing', s) == PortOf(existing, s);
      }
    }
    LeastFreeUnique(existing, base, FreePort(existing, base), FreePort(existing', base));
  }

  /** The device's own container after the attempt is on record, unless it is stray. */
  lemma OwnTracked(base: int, b: Book, c: Choice, n: string)
    requires Named(b.cs) && base > 0 && RecordsDistinct(b.existing)
    requires OwnOnRecord(b, c.serial) && !AttemptOf(base, b, c).borrowed
    requires var cs' := TryAppium(base, b, c).cs; IsAppium(cs', n) && cs'[n].device == c.serial
    ensures Tracked(TryAppium(base, b, c), n) <==> !Strays(AttemptOf(base, b, c))
  {
    TryFrame(base, b, c);
    RecordsStep(base, b, c);
    assert n == NameOf(Appium, c.serial);
  }

  lemma TidyStep(base: int, b: Book, done: set<Serial>, c: Choice)
    requires Shape(base, b, Tidy, done) && base > 0 && c.serial !in done && !AttemptOf(base, b, c).borrowed
    ensures Shape(base, TryAppium(base, b, c), PhaseAfter(Tidy, AttemptOf(base, b, c)), done + {c.serial})
  {
    var b', a := TryAppium(base, b, c), AttemptOf(base, b, c);
    TryFrame(base, b, c);
    RecordsStep(base, b, c);
    forall n | IsAppium(b'.cs, n) && (b'.cs[n].device != c.serial || !Strays(a)) ensures Tracked(b', n) {
      if b'.cs[n].device == c.serial {
        OwnTracked(base, b, c, n);
      } else {
        assert Tracked(b, n);
      }
    }
  }

  lemma StrayStep(base: int, b: Book, s: Serial, done: set<Serial>, c: Choice)
    requires Shape(base, b, Stray(s), done) && base > 0 && c.serial !in done && !AttemptOf(base, b, c).borrowed
    ensures Shape(base, TryAppium(base, b, c), PhaseAfter(Stray(s), AttemptOf(base, b, c)), done + {c.serial})
  {
    var b', a := TryAppium(base, b, c), AttemptOf(base, b, c);
    TryFrame(base, b, c);
    RecordsStep(base, b, c);
    assert Find(b'.cs, Appium, s) == Find(b.cs, Appium, s);
    if Leaves(a) {
      assert SharedPort(b'.cs, s, c.serial);
    } else {
      SameFreePort(b.existing, b'.existing, base);
      forall n | IsAppium(b'.cs, n) && b'.cs[n].device != s ensures Tracked(b', n) {
        if b'.cs[n].device == c.serial {
          OwnTracked(base, b, c, n);
        } else {
          assert Tracked(b, n);
        }
      }
    }
  }

  lemma ClashedStep(base: int, b: Book, done: set<Serial>, c: Choice)
    requires Shape(base, b, Clashed, done) && base > 0 && c.serial !in done
    ensures Shape(base, TryAppium(base, b, c), Clashed, done + {c.serial})
  {
    var s, t :| s in done && t in done && SharedPort(b.cs, s, t);
    TryFrame(base, b, c);
    assert SharedPort(TryAppium(base, b, c).cs, s, t);
  }

  /** With all ports on record the port freed is nobody else's; with a stray container it is
      the stray's exactly when the device is new. */
  lemma KillStep(base: int, b: Book, ph: Phase, done: set<Serial>, c: Choice)
    requires Shape(base, b, ph, done) && base > 0 && c.serial !in done && ph != Clashed
    ensures var a := AttemptOf(base, b, c); a.port in a.others <==> ph.Stray? && a.isNew
  {
    var a := AttemptOf(base, b, c);
    if ph.Stray? {
      var n0 := NameOf(Appium, ph.serial);
      assert IsAppium(b.cs, n0) && b.cs[n0].device != c.serial;
      if a.isNew { assert b.cs[n0].port in a.others; }
    }
    forall n | IsAppium(b.cs, n) && b.cs[n].device != c.serial && Tracked(b, n) ensures b.cs[n].port != a.port {
      assert b.cs[n].device in b.existing;
    }
  }

  // ── A whole pass ──

  /** Whatever the outcomes: devices still to come have their containers on record, on ports
      that no other device has; two devices share a port exactly if an attempt collided. */
  ghost predicate Apart(b: Book, ats: seq<Attempt>, done: set<Serial>)
  {
    && Named(b.cs) && (forall n :: IsAppium(b.cs, n) ==> b.cs[n].port > 0)
    && (forall n :: IsAppium(b.cs, n) && b.cs[n].device !in done ==> Tracked(b, n))
    && (forall t :: t !in done ==> PortOf(b.existing, t) >= 0)
    && (forall s, t :: s !in done && t !in done && PortOf(b.existing, s) == PortOf(b.existing, t) != 0 ==> s == t)
    && (forall n, t :: IsAppium(b.cs, n) && b.cs[n].device in done && t !in done ==>
        b.cs[n].port != PortOf(b.existing, t))
    && if NoneCollide(ats) then PortsDistinct(b.cs) else exists s, t :: s in done && t in done && SharedPort(b.cs, s, t)
  }

  /** A device still to come has no container on the port of another device's attempt. */
  lemma HolderDone(base: int, b: Book, ats: seq<Attempt>, done: set<Serial>, c: Choice, n: string)
    requires Apart(b, ats, done) && base > 0 && c.serial !in done
    requires IsAppium(b.cs, n) && b.cs[n].device != c.serial
    ensures b.cs[n].device !in done ==> b.cs[n].port != AttemptOf(base, b, c).port
  {
    if b.cs[n].device !in done {
      assert Tracked(b, n);
      assert b.cs[n].device in b.existing;
    }
  }

  lemma ApartStep(base: int, b: Book, ats: seq<Attempt>, done: set<Serial>, c: Choice)
    requires Apart(b, ats, done) && base > 0 && c.serial !in done
    ensures Apart(TryAppium(base, b, c), ats + [AttemptOf(base, b, c)], done + {c.serial})
  {
    TryFrame(base, b, c);
    ClashesSnoc(ats, AttemptOf(base, b, c));
    ApartPorts(base, b, ats, done, c);
    if NoneCollide(ats) && !Collides(AttemptOf(base, b, c)) {
      StillDistinct(base, b, c);
    } else {
      SharesAfter(base, b, ats, done, c);
    }
  }

  lemma SharesAfter(base: int, b: Book, ats: seq<Attempt>, done: set<Serial>, c: Choice)
    requires Apart(b, ats, done) && base > 0 && c.serial !in done
    requires !NoneCollide(ats) || Collides(AttemptOf(base, b, c))
    ensures var done' := done + {c.serial};
            exists s, t :: s in done' && t in done' && SharedPort(TryAppium(base, b, c).cs, s, t)
  {
    var b', a := TryAppium(base, b, c), AttemptOf(base, b, c);
    TryFrame(base, b, c);
    if !NoneCollide(ats) {
      var s, t :| s in done && t in done && SharedPort(b.cs, s, t);
      assert SharedPort(b'.cs, s, t);
    } else {
      var n :| n in b.cs && b.cs[n].managed && b.cs[n].role == Appium && b.cs[n].device != c.serial
          && b.cs[n].port == a.port;
      HolderDone(base, b, ats, done, c, n);
      NewShares(base, b, c, n);
    }
  }

  lemma NewShares(base: int, b: Book, c: Choice, n: string)
    requires Named(b.cs) && IsAppium(b.cs, n) && b.cs[n].device != c.serial
    requires b.cs[n].port == AttemptOf(base, b, c).port && Collides(AttemptOf(base, b, c))
    ensures SharedPort(TryAppium(base, b, c).cs, b.cs[n].device, c.serial)
  {
    TryFrame(base, b, c);
    assert Find(b.cs, Appium, b.cs[n].device) == Some(b.cs[n]);
  }

  /** The device's own container afterwards is where it was or on the attempt's port. */
  lemma OwnPort(base: int, b: Book, c: Choice, n: string)
    requires Named(b.cs) && IsAppium(TryAppium(base, b, c).cs, n) && TryAppium(base, b, c).cs[n].device == c.serial
    ensures var b', a := TryAppium(base, b, c), AttemptOf(base, b, c);
            (IsAppium(b.cs, n) && b'.cs[n] == b.cs[n])
              || ((a.outcome == Started || a.outcome == Leaked) && b'.cs[n].port == a.port)
  {}

  lemma ApartPorts(base: int, b: Book, ats: seq<Attempt>, done: set<Serial>, c: Choice)
    requires Apart(b, ats, done) && base > 0 && c.serial !in done
    ensures var b', done' := TryAppium(base, b, c), done + {c.serial};
            && (forall n :: IsAppium(b'.cs, n) ==> b'.cs[n].port > 0)
            && (forall n :: IsAppium(b'.cs, n) && b'.cs[n].device !in done' ==> Tracked(b', n))
            && (forall n, t :: IsAppium(b'.cs, n) && b'.cs[n].device in done' && t !in done' ==>
                b'.cs[n].port != PortOf(b'.existing, t))
  {
    var b', done', a := TryAppium(base, b, c), done + {c.serial}, AttemptOf(base, b, c);
    TryFrame(base, b, c);
    assert a.port > 0;
    forall n | IsAppium(b'.cs, n)
      ensures b'.cs[n].port > 0 && (b'.cs[n].device !in done' ==> Tracked(b', n))
      ensures forall t :: b'.cs[n].device in done' && t !in done' ==> b'.cs[n].port != PortOf(b'.existing, t)
    {
      if b'.cs[n].device == c.serial {
        OwnPort(base, b, c, n);
        forall t | t !in done' ensures b'.cs[n].port != PortOf(b.existing, t) {
          if IsAppium(b.cs, n) && b'.cs[n] == b.cs[n] { assert Tracked(b, n); }
          else if a.isNew { assert !PortTaken(b.existing, a.port); }
        }
      } else {
        assert b'.cs[n].device !in done ==> Tracked(b, n);
      }
    }
  }

  lemma StillDistinct(base: int, b: Book, c: Choice)
    requires PortsDistinct(b.cs) && Named(b.cs) && base > 0 && PortOf(b.existing, c.serial) >= 0
    requires !Collides(AttemptOf(base, b, c))
    ensures PortsDistinct(TryAppium(base, b, c).cs)
  {
    var b', a := TryAppium(base, b, c), AttemptOf(base, b, c);
    TryFrame(base, b, c);
    forall n | IsAppium(b'.cs, n) ensures b'.cs[n].device == c.serial ==> n == NameOf(Appium, c.serial) {}
    forall n | IsAppium(b'.cs, n) && b'.cs[n].device != c.serial ensures b'.cs[n].port in a.others {}
    forall n | IsAppium(b'.cs, n) && b'.cs[n].device == c.serial
      ensures (IsAppium(b.cs, n) && b'.cs[n] == b.cs[n]) || (b'.cs[n].port == a.port && a.port !in a.others)
    {
      OwnPort(base, b, c, n);
    }
  }

  /** The creation loop so far. */
  ghost predicate Going(base: int, b: Book, ats: seq<Attempt>, done: set<Serial>)
  {
    Apart(b, ats, done) && (NoneBorrow(ats) ==> Shape(base, b, PhaseOf(ats), done) && (KillsSafe(ats) <==> !Hits(ats)))
  }

  /** At the start of the loop, when some containers have gone since they were listed. */
  lemma GoingStart(base: int, existing: map<Serial, DC>, cs: map<string, Container>, ids: set<string>,
                   left: map<string, Container>)
    requires DockerOk(cs, ids) && Reflects(existing, cs) && PortsDistinct(cs)
    requires forall n :: n in left ==> n in cs && left[n] == cs[n]
    ensures Going(base, Book(existing, left), [], {})
  {
    ListedTracked(existing, cs, ids, left);
    ListedRecords(existing, cs, ids);
  }

  lemma ListedTracked(existing: map<Serial, DC>, cs: map<string, Container>, ids: set<string>,
                      left: map<string, Container>)
    requires DockerOk(cs, ids) && Reflects(existing, cs) && PortsDistinct(cs)
    requires forall n :: n in left ==> n in cs && left[n] == cs[n]
    ensures forall n :: IsAppium(left, n) ==> Tracked(Book(existing, left), n)
    ensures Named(left) && PortsDistinct(left)
  {
    forall n | IsAppium(left, n) ensures IsAppium(cs, n) && Tracked(Book(existing, left), n) {
      assert Find(cs, Appium, cs[n].device) == Some(cs[n]);
    }
  }

  /** Records built from containers with distinct ports have no port twice. */
  lemma ListedRecords(existing: map<Serial, DC>, cs: map<string, Container>, ids: set<string>)
    requires DockerOk(cs, ids) && Reflects(existing, cs) && PortsDistinct(cs)
    ensures RecordsDistinct(existing)
  {}

  lemma GoingStep(base: int, b: Book, ats: seq<Attempt>, done: set<Serial>, c: Choice)
    requires Going(base, b, ats, done) && base > 0 && c.serial !in done
    ensures Going(base, TryAppium(base, b, c), ats + [AttemptOf(base, b, c)], done + {c.serial})
  {
    ApartStep(base, b, ats, done, c);
    ClashesSnoc(ats, AttemptOf(base, b, c));
    if NoneBorrow(ats) && !AttemptOf(base, b, c).borrowed {
      ShapeStep(base, b, ats, done, c);
    }
  }

  lemma ShapeStep(base: int, b: Book, ats: seq<Attempt>, done: set<Serial>, c: Choice)
    requires Shape(base, b, PhaseOf(ats), done) && (KillsSafe(ats) <==> !Hits(ats))
    requires base > 0 && c.serial !in done && !AttemptOf(base, b, c).borrowed
    ensures var all := ats + [AttemptOf(base, b, c)];
            Shape(base, TryAppium(base, b, c), PhaseOf(all), done + {c.serial}) && (KillsSafe(all) <==> !Hits(all))
  {
    var ph, a := PhaseOf(ats), AttemptOf(base, b, c);
    assert (ats + [a])[..|ats|] == ats;
    PhaseMeans(ats);
    ClashesSnoc(ats, a);
    match ph {
      case Tidy =>
        TidyStep(base, b, done, c);
        KillStep(base, b, ph, done, c);
      case Stray(s) =>
        StrayStep(base, b, s, done, c);
        KillStep(base, b, ph, done, c);
      case Clashed =>
        ClashedStep(base, b, done, c);
        ClashHits(ats);
    }
  }

  lemma ClashHits(ats: seq<Attempt>)
    requires Clashes(ats)
    ensures Hits(ats)
  {
    var i, j :| 0 <= i < j < |ats| && Strays(ats[i]) && Leaves(ats[j]);
    assert ats[j].isNew;
  }

  /** A device for which no attempt is made, or other work on a device's test container. */
  lemma GoingOn(base: int, b: Book, cs: map<string, Container>, ats: seq<Attempt>, done: set<Serial>,
                done': set<Serial>)
    requires Going(base, b, ats, done) && done <= done' && AppiumKept(b.cs, cs)
    ensures Going(base, Book(b.existing, cs), ats, done')
  {
    ApartOn(b, cs, ats, done, done');
    if NoneBorrow(ats) { ShapeOn(base, b, cs, PhaseOf(ats), done, done'); }
  }

  lemma ApartOn(b: Book, cs: map<string, Container>, ats: seq<Attempt>, done: set<Serial>, done': set<Serial>)
    requires Apart(b, ats, done) && done <= done' && AppiumKept(b.cs, cs)
    ensures Apart(Book(b.existing, cs), ats, done')
  {
    var b' := Book(b.existing, cs);
    forall n | IsAppium(cs, n) && cs[n].device !in done ensures Tracked(b', n) { assert Tracked(b, n); }
    if !NoneCollide(ats) {
      var s, t :| s in done && t in done && SharedPort(b.cs, s, t);
      assert SharedPort(cs, s, t);
    }
  }

  lemma ShapeOn(base: int, b: Book, cs: map<string, Container>, ph: Phase, done: set<Serial>, done': set<Serial>)
    requires Shape(base, b, ph, done) && done <= done' && AppiumKept(b.cs, cs)
    ensures Shape(base, Book(b.existing, cs), ph, done')
  {
    var b' := Book(b.existing, cs);
    match ph {
      case Tidy => forall n | IsAppium(cs, n) ensures Tracked(b', n) { assert Tracked(b, n); }
      case Stray(s) => forall n | IsAppium(cs, n) && cs[n].device != s ensures Tracked(b', n) { assert Tracked(b, n); }
      case Clashed =>
        var s, t :| s in done && t in done && SharedPort(b.cs, s, t);
        assert SharedPort(cs, s, t);
    }
  }

  /** What the outcomes mean for the ports once the loop is through. */
  lemma GoingDecides(base: int, b: Book, ats: seq<Attempt>, done: set<Serial>)
    requires Going(base, b, ats, done) && base > 0
    ensures PortsFollow(b.cs, ats)
  {
    if !NoneCollide(ats) {
      var s, t :| s in done && t in done && SharedPort(b.cs, s, t);
      SharedBreaks(b.cs, s, t);
    }
    if NoneBorrow(ats) {
      ShapeDecides(base, b, PhaseOf(ats), done);
      PhaseMeans(ats);
    }
  }

  lemma SharedBreaks(cs: map<string, Container>, s: Serial, t: Serial)
    requires SharedPort(cs, s, t)
    ensures !PortsDistinct(cs)
  {
    assert IsAppium(cs, NameOf(Appium, s)) && IsAppium(cs, NameOf(Appium, t));
    assert NameOf(Appium, s) != NameOf(Appium, t);
  }

  /** All the attempts of a pass, one after the other. */
  function BookAfter(base: int, b: Book, cs: seq<Choice>): Book
  {
    if cs == [] then b else TryAppium(base, BookAfter(base, b, cs[..|cs| - 1]), cs[|cs| - 1])
  }

  function AttemptsOf(base: int, b: Book, cs: seq<Choice>): seq<Attempt>
  {
    if cs == [] then []
    else AttemptsOf(base, b, cs[..|cs| - 1]) + [AttemptOf(base, BookAfter(base, b, cs[..|cs| - 1]), cs[|cs| - 1])]
  }

  function Serials(cs: seq<Choice>): set<Serial>
  {
    set c | c in cs :: c.serial
  }

  lemma SerialsSnoc(cs: seq<Choice>, c: Choice)
    ensures Serials(cs + [c]) == Serials(cs) + {c.serial}
  {
    assert forall d :: d in cs + [c] <==> d in cs || d == c;
  }

  predicate OncePerDevice(cs: seq<Choice>)
  {
    forall i, j :: 0 <= i < j < |cs| ==> cs[i].serial != cs[j].serial
  }

  /** From distinct ports on record, over every sequence of outcomes: the ports are distinct
      afterwards if and only if no attempt put a container on another's port. And when no
      attempt borrowed a container: if and only if no stray container is followed by a new
      device's container; and the ports freed by force are nobody else's if and only if no
      stray container is followed by a new device's attempt. */
  lemma PortsAfterPass(base: int, b: Book, cs: seq<Choice>)
    requires base > 0 && Going(base, b, [], {}) && OncePerDevice(cs)
    ensures PortsFollow(BookAfter(base, b, cs).cs, AttemptsOf(base, b, cs))
  {
    PassGoing(base, b, cs);
    GoingDecides(base, BookAfter(base, b, cs), AttemptsOf(base, b, cs), Serials(cs));
  }

  lemma {:induction false} PassGoing(base: int, b: Book, cs: seq<Choice>)
    requires base > 0 && Going(base, b, [], {}) && OncePerDevice(cs)
    ensures Going(base, BookAfter(base, b, cs), AttemptsOf(base, b, cs), Serials(cs))
  {
    if cs != [] {
      var front, last := cs[..|cs| - 1], cs[|cs| - 1];
      PassGoing(base, b, front);
      SerialsSnoc(front, last);
      assert cs == front + [last];
      GoingStep(base, BookAfter(base, b, front), AttemptsOf(base, b, front), Serials(front), last);
    }
  }

  /** The attempts of the loop so far: one for each device in `done` that tries, none twice,
      new exactly when the device had no port on record at the start. */
  ghost predicate AttemptsFit(existing: map<Serial, DC>, done: set<Serial>, trying: set<Serial>, ats: seq<Attempt>)
  {
    && (forall i :: 0 <= i < |ats| ==>
        ats[i].serial in done && ats[i].serial in trying && (ats[i].isNew <==> PortOf(existing, ats[i].serial) == 0))
    && (forall i, j :: 0 <= i < j < |ats| ==> ats[i].serial != ats[j].serial)
    && (forall s :: s in done && s in trying ==> exists i :: 0 <= i < |ats| && ats[i].serial == s)
  }

  /** One iteration for `c.serial`: an attempt or none, then work on tests only. */
  ghost predicate Tried(base: int, c: Choice, tries: bool, b: Book, b': Book, made: seq<Attempt>)
  {
    var m := if tries then TryAppium(base, b, c) else b;
    && b'.existing == m.existing && AppiumKept(m.cs, b'.cs)
    && made == if tries then [AttemptOf(base, b, c)] else []
  }

  lemma TriedOn(base: int, c: Choice, tries: bool, b: Book, m: Book, cs: map<string, Container>, made: seq<Attempt>)
    requires Tried(base, c, tries, b, m, made) && AppiumKept(m.cs, cs)
    ensures Tried(base, c, tries, b, Book(m.existing, cs), made)
  {}

  /** The creation loop's invariant for records, attempts and, if `sound`, ports. */
  ghost predicate Attempting(base: int, b: Book, existing: map<Serial, DC>, ready: set<Serial>, left: set<Serial>,
                             trying: set<Serial>, ats: seq<Attempt>, sound: bool)
  {
    && (forall s :: s in left ==> Rec(b.existing, s) == Rec(existing, s))
    && AttemptsFit(existing, ready - left, trying, ats)
    && (sound ==> base > 0 && Going(base, b, ats, ready - left))
  }

  lemma AttemptingStart(base: int, existing: map<Serial, DC>, cs: map<string, Container>, ready: set<Serial>,
                        trying: set<Serial>, sound: bool)
    requires sound ==> base > 0 && Going(base, Book(existing, cs), [], {})
    ensures Attempting(base, Book(existing, cs), existing, ready, ready, trying, [], sound)
  {
    assert ready - ready == {};
  }

  lemma AttemptingStep(base: int, b: Book, b': Book, existing: map<Serial, DC>, ready: set<Serial>, left: set<Serial>,
                       trying: set<Serial>, ats: seq<Attempt>, made: seq<Attempt>, sound: bool, c: Choice)
    requires Attempting(base, b, existing, ready, left, trying, ats, sound) && c.serial in left && left <= ready
    requires Tried(base, c, c.serial in trying, b, b', made)
    ensures Attempting(base, b', existing, ready, left - {c.serial}, trying, ats + made, sound)
  {
    var done := ready - left;
    assert done + {c.serial} == ready - (left - {c.serial});
    assert PortOf(b.existing, c.serial) == Rec(b.existing, c.serial).appiumPort == PortOf(existing, c.serial);
    FitStep(existing, done, trying, ats, c.serial, made);
    if sound { GoingNext(base, b, b', ats, done, c, c.serial in trying, made); }
  }

  lemma GoingNext(base: int, b: Book, b': Book, ats: seq<Attempt>, done: set<Serial>, c: Choice, tries: bool,
                  made: seq<Attempt>)
    requires Going(base, b, ats, done) && base > 0 && c.serial !in done && Tried(base, c, tries, b, b', made)
    ensures Going(base, b', ats + made, done + {c.serial})
  {
    if tries {
      GoingStep(base, b, ats, done, c);
      GoingOn(base, TryAppium(base, b, c), b'.cs, ats + made, done + {c.serial}, done + {c.serial});
    } else {
      assert ats + [] == ats;
      GoingOn(base, b, b'.cs, ats, done, done + {c.serial});
    }
  }

  lemma FitStep(existing: map<Serial, DC>, done: set<Serial>, trying: set<Serial>, ats: seq<Attempt>, serial: Serial,
                made: seq<Attempt>)
    requires AttemptsFit(existing, done, trying, ats) && serial !in done
    requires if serial in trying then |made| == 1 && made[0].serial == serial
             && (made[0].isNew <==> PortOf(existing, serial) == 0)
             else made == []
    ensures AttemptsFit(existing, done + {serial}, trying, ats + made)
  {
    var all := ats + made;
    forall s | s in done + {serial} && s in trying ensures exists i :: 0 <= i < |all| && all[i].serial == s {
      if s == serial {
        assert all[|ats|].serial == s;
      } else {
        var i :| 0 <= i < |ats| && ats[i].serial == s;
        assert all[i].serial == s;
      }
    }
  }

  lemma AttemptingDone(base: int, b: Book, existing: map<Serial, DC>, ready: set<Serial>, trying: set<Serial>,
                       ats: seq<Attempt>, sound: bool)
    requires Attempting(base, b, existing, ready, {}, trying, ats, sound)
    ensures AttemptsFit(existing, ready, trying, ats) && (sound ==> PortsFollow(b.cs, ats))
  {
    assert ready - {} == ready;
    if sound { GoingDecides(base, b, ats, ready); }
  }

  lemma SliceOn(before: seq<Attempt>, now: seq<Attempt>, made: seq<Attempt>)
    requires before <= now
    ensures before <= now + made && (now + made)[|before|..] == now[|before|..] + made
  {}

  // ── Many passes ──

  /** A run: the containers before and after each step, and the attempts each step made. From
      distinct ports a step leads to distinct ports unless its own outcomes clash. */
  ghost predicate PortRun(states: seq<map<string, Container>>, made: seq<seq<Attempt>>)
  {
    |states| == |made| + 1 && forall k :: 0 <= k < |made| && PortsDistinct(states[k]) ==>
        PortsFollow(states[k + 1], made[k])
  }

  /** Ports are distinct all along the run if and only if no attempt of it collides; and, when
      none borrows, if and only if no pass clashes. */
  lemma {:induction false} DistinctAllAlong(states: seq<map<string, Container>>, made: seq<seq<Attempt>>, n: nat)
    requires PortRun(states, made) && PortsDistinct(states[0]) && n <= |made|
    ensures (forall k :: 0 <= k <= n ==> PortsDistinct(states[k])) <==>
                (forall k :: 0 <= k < n ==> NoneCollide(made[k]))
    ensures (forall k :: 0 <= k < n ==> NoneBorrow(made[k])) ==>
              ((forall k :: 0 <= k <= n ==> PortsDistinct(states[k])) <==>
               (forall k :: 0 <= k < n ==> !Clashes(made[k])))
  {
    if n > 0 {
      DistinctAllAlong(states, made, n - 1);
      if forall k :: 0 <= k < n ==> PortsDistinct(states[k]) {
        assert PortsFollow(states[n - 1 + 1], made[n - 1]);
      }
    }
  }

  // ── Witnesses ──

  const NOTHING := Book(map[], map[])

  /** Two new devices, whose attempts end as given. */
  function TwoDevices(first: Outcome, second: Outcome): seq<Choice>
  {
    [Choice("a", false, "c1", first, ""), Choice("b", false, "c2", second, "")]
  }

  lemma NothingGoing(base: int)
    ensures Going(base, NOTHING, [], {})
  {
    GoingStart(base, map[], map[], {}, map[]);
  }

  lemma TwoAttempts(base: int, first: Outcome, second: Outcome)
    requires base > 0 && first != Reused && second != Reused
    ensures OncePerDevice(TwoDevices(first, second))
    ensures var ats := AttemptsOf(base, NOTHING, TwoDevices(first, second));
            |ats| == 2 && ats[0].isNew && ats[0].outcome == first && ats[1].isNew && ats[1].outcome == second
              && NoneBorrow(ats)
  {
    var c, d := Choice("a", false, "c1", first, ""), Choice("b", false, "c2", second, "");
    assert TwoDevices(first, second) == [c, d];
    TwoSteps(base, NOTHING, c, d);
    FirstAttempt(base, c);
  }

  lemma FirstAttempt(base: int, c: Choice)
    requires c.serial == "a" && !c.dropped && c.outcome != Reused
    ensures var b1, a1 := TryAppium(base, NOTHING, c), AttemptOf(base, NOTHING, c);
            && a1.isNew && a1.outcome == c.outcome && !a1.borrowed
            && NameOf(Appium, "b") !in b1.cs && PortOf(b1.existing, "b") == 0
  {
    assert NameOf(Appium, "a")[7] == 'a' && NameOf(Appium, "b")[7] == 'b';
  }

  /** A pass of two attempts. */
  lemma TwoSteps(base: int, b: Book, c: Choice, d: Choice)
    ensures var b1 := TryAppium(base, b, c);
            && BookAfter(base, b, [c, d]) == TryAppium(base, b1, d)
            && AttemptsOf(base, b, [c, d]) == [AttemptOf(base, b, c), AttemptOf(base, b1, d)]
  {
    var cs, one := [c, d], [c];
    assert cs[..|cs| - 1] == one && one[..|one| - 1] == [];
    assert BookAfter(base, b, one) == TryAppium(base, b, c);
    assert AttemptsOf(base, b, one) == [AttemptOf(base, b, c)];
  }

  /** A stray container and then a new device's container: the two share a port, and the
      second attempt freed the first one's port by force. */
  lemma LeakThenStart(base: int)
    requires base > 0
    ensures var cs := TwoDevices(Leaked, Started);
            !PortsDistinct(BookAfter(base, NOTHING, cs).cs) && !KillsSafe(AttemptsOf(base, NOTHING, cs))
  {
    NothingGoing(base);
    TwoAttempts(base, Leaked, Started);
    PortsAfterPass(base, NOTHING, TwoDevices(Leaked, Started));
  }

  /** A stray container alone does not make ports clash: here the second creation leaves
      nothing, though its attempt does free the stray container's port. */
  lemma LeakThenFail(base: int)
    requires base > 0
    ensures var cs := TwoDevices(Leaked, StartFailed);
            PortsDistinct(BookAfter(base, NOTHING, cs).cs) && !KillsSafe(AttemptsOf(base, NOTHING, cs))
  {
    NothingGoing(base);
    TwoAttempts(base, Leaked, StartFailed);
    PortsAfterPass(base, NOTHING, TwoDevices(Leaked, StartFailed));
  }

  /** An exited container that could not be removed, and another device's, whose name begins
      with the first one's. */
  const TWINS := Book(
    map["x" := DC("c1", 4700, "exited", "", ""), "xy" := DC("c2", 4701, "running", "", "")],
    map[NameOf(Appium, "x") := Container("c1", true, "x", Appium, 4700, "exited"),
        NameOf(Appium, "xy") := Container("c2", true, "xy", Appium, 4701, "running")])

  lemma TwinNames()
    ensures NameOf(Appium, "x") < NameOf(Appium, "xy")
    ensures NameOf(Appium, "z") != NameOf(Appium, "x") && NameOf(Appium, "z") != NameOf(Appium, "xy")
  {
    assert Sanitize("x") == "x" && Sanitize("xy") == "xy" && Sanitize("z") == "z";
    assert NameOf(Appium, "xy") == NameOf(Appium, "x") + "y";
    assert NameOf(Appium, "z")[7] == 'z' && NameOf(Appium, "x")[7] == 'x';
  }

  /** Two containers on different ports, each under its own name. */
  lemma PairOk(n: string, k: string, c: Container, d: Container)
    requires c.managed && d.managed && n == NameOf(c.role, c.device) && k == NameOf(d.role, d.device) && n != k
    requires c.id != d.id && c.id != "" && d.id != "" && c.port != d.port && c.port > 0 && d.port > 0
    ensures DockerOk(map[n := c, k := d], {c.id, d.id}) && PortsDistinct(map[n := c, k := d])
  {}

  lemma TwinsGoing()
    ensures Going(4700, TWINS, [], {})
  {
    TwinNames();
    PairOk(NameOf(Appium, "x"), NameOf(Appium, "xy"),
           Container("c1", true, "x", Appium, 4700, "exited"), Container("c2", true, "xy", Appium, 4701, "running"));
    forall s ensures (s in TWINS.existing <==> InUse(TWINS.cs, s))
        && (s in TWINS.existing ==> TWINS.existing[s] == SlotOf(TWINS.cs, s)) {
      RolesApart("x", s);
      RolesApart("xy", s);
    }
    GoingStart(4700, TWINS.existing, TWINS.cs, {"c1", "c2"}, TWINS.cs);
  }

  const BORROWS := Choice("x", false, "c3", Reused, NameOf(Appium, "xy"))

  lemma BorrowFirst()
    ensures var b1, a1 := TryAppium(4700, TWINS, BORROWS), AttemptOf(4700, TWINS, BORROWS);
            && a1.outcome == Reused && a1.borrowed && !a1.isNew && b1.cs == TWINS.cs
            && b1.existing == TWINS.existing["x" := DC("c2", 4701, "running", "", "")]
            && FreePort(b1.existing, 4700) == 4700
  {
    TwinNames();
    var b1, a1 := TryAppium(4700, TWINS, BORROWS), AttemptOf(4700, TWINS, BORROWS);
    assert a1.outcome == Reused;
    assert LeastFree(b1.existing, 4700, 4700);
    LeastFreeUnique(b1.existing, 4700, 4700, FreePort(b1.existing, 4700));
  }

  lemma BorrowSecond(b1: Book, d: Choice)
    requires b1.cs == TWINS.cs && PortOf(b1.existing, "z") == 0 && FreePort(b1.existing, 4700) == 4700
    requires d.serial == "z" && d.outcome == Started
    ensures !PortsDistinct(TryAppium(4700, b1, d).cs)
  {
    TwinNames();
    var b2 := TryAppium(4700, b1, d);
    assert AttemptOf(4700, b1, d).port == 4700;
    assert SharedPort(b2.cs, "x", "z");
    SharedBreaks(b2.cs, "x", "z");
  }

  /** What two attempts come to. */
  lemma TwoMean(a: Attempt, d: Attempt)
    ensures Clashes([a, d]) <==> Strays(a) && Leaves(d)
    ensures Hits([a, d]) <==> Strays(a) && d.isNew
    ensures NoneBorrow([a, d]) <==> !a.borrowed && !d.borrowed
  {
    var ats := [a, d];
    assert ats[0] == a && ats[1] == d;
  }

  /** Docker lists the wrong container first, so `x` is recorded with the port of `xy`; the
      new device then gets the port `x` still has. No creation failed. */
  lemma BorrowThenStart()
    ensures Going(4700, TWINS, [], {})
    ensures var cs := [BORROWS, Choice("z", false, "c4", Started, "")];
            && OncePerDevice(cs) && !PortsDistinct(BookAfter(4700, TWINS, cs).cs)
            && !Clashes(AttemptsOf(4700, TWINS, cs)) && !NoneBorrow(AttemptsOf(4700, TWINS, cs))
  {
    var d := Choice("z", false, "c4", Started, "");
    TwinsGoing();
    BorrowFirst();
    TwoSteps(4700, TWINS, BORROWS, d);
    var b1 := TryAppium(4700, TWINS, BORROWS);
    assert PortOf(b1.existing, "z") == 0;
    BorrowSecond(b1, d);
    TwoMean(AttemptOf(4700, TWINS, BORROWS), AttemptOf(4700, b1, d));
  }
}
