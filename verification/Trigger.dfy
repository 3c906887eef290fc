/** The coalescing reconcile trigger: any number of requesters, a channel with one slot, and
    one consumer that receives, sleeps, drains and runs. */
module Trigger {

  datatype Pc = Waiting | Sleeping | DrainCheck | DrainReceive | Starting | Running

  datatype Actor = Requester | Consumer

  /** `covered` is how many requests had been made when the last run started. */
  datatype State = State(token: bool, pc: Pc, requests: nat, covered: nat, runs: nat)

  const START := State(false, Waiting, 0, 0, 0)

  /** A receive on the empty channel blocks. */
  predicate Blocked(s: State, a: Actor)
  {
    a == Consumer && (s.pc == Waiting || s.pc == DrainReceive) && !s.token
  }

  /** One atomic step. A full channel drops the request's send. */
  function Step(s: State, a: Actor): State
    requires !Blocked(s, a)
  {
    if a == Requester then s.(token := true, requests := s.requests + 1)
    else
      match s.pc
      case Waiting => s.(token := false, pc := Sleeping)
      case Sleeping => s.(pc := DrainCheck)
      case DrainCheck => s.(pc := if s.token then DrainReceive else Starting)
      case DrainReceive => s.(token := false, pc := DrainCheck)
      case Starting => s.(pc := Running, covered := s.requests, runs := s.runs + 1)
      case Running => s.(pc := Waiting)
  }

  // ── Safety ──

  /** The consumer has received and has not started the run yet. */
  predicate Committed(s: State)
  {
    s.pc != Waiting && s.pc != Running
  }

  /** No request is lost, the drain never blocks, and there are no more runs than requests. */
  predicate Inv(s: State)
  {
    && s.covered <= s.requests
    && (s.covered < s.requests ==> s.token || Committed(s))
    && (s.pc == DrainReceive ==> s.token)
    && s.runs + (if s.token then 1 else 0) + (if Committed(s) then 1 else 0) <= s.requests
  }

  lemma StepKeeps(s: State, a: Actor)
    requires Inv(s) && !Blocked(s, a)
    ensures Inv(Step(s, a)) && s.covered <= Step(s, a).covered && s.requests <= Step(s, a).requests
  {}

  // ── Progress ──

  /** How many consumer steps can pass before the next run starts, if nobody requests. */
  function Distance(s: State): nat
  {
    match s.pc
    case Running => 6
    case Waiting => 5
    case Sleeping => if s.token then 5 else 3
    case DrainCheck => if s.token then 4 else 2
    case DrainReceive => 3
    case Starting => 1
  }

  /** A schedule; a blocked actor's turn passes. */
  function Play(s: State, schedule: seq<Actor>): State
    decreases |schedule|
  {
    if schedule == [] then s
    else Play(if Blocked(s, schedule[0]) then s else Step(s, schedule[0]), schedule[1..])
  }

  function Count(schedule: seq<Actor>, a: Actor): nat
  {
    if schedule == [] then 0 else (if schedule[0] == a then 1 else 0) + Count(schedule[1..], a)
  }

  lemma {:induction false} PlayKeeps(s: State, schedule: seq<Actor>)
    requires Inv(s)
    ensures Inv(Play(s, schedule)) && s.covered <= Play(s, schedule).covered
    ensures Play(s, schedule).requests == s.requests + Count(schedule, Requester)
    decreases |schedule|
  {
    if schedule != [] && !Blocked(s, schedule[0]) {
      StepKeeps(s, schedule[0]);
      PlayKeeps(Step(s, schedule[0]), schedule[1..]);
    } else if schedule != [] {
      PlayKeeps(s, schedule[1..]);
    }
  }

  /** In every interleaving, all requests made so far are covered by a run once the consumer
      has had `Distance` steps and two more for each later request. */
  lemma {:induction false} EveryRequestServed(s: State, schedule: seq<Actor>)
    requires Inv(s) && Count(schedule, Consumer) >= Distance(s) + 2 * Count(schedule, Requester)
    ensures Play(s, schedule).covered >= s.requests
    decreases |schedule|
  {
    if s.covered == s.requests {
      PlayKeeps(s, schedule);
    } else {
      var a := schedule[0];
      assert !Blocked(s, a);
      StepKeeps(s, a);
      if a == Consumer && s.pc == Starting {
        PlayKeeps(Step(s, a), schedule[1..]);
      } else {
        assert Distance(Step(s, a)) <= if a == Consumer then Distance(s) - 1 else Distance(s) + 2;
        EveryRequestServed(Step(s, a), schedule[1..]);
      }
    }
  }

  /** Safety over every interleaving from the start. */
  lemma NothingLost(schedule: seq<Actor>)
    ensures var s := Play(START, schedule);
            (s.covered < s.requests ==> s.token || Committed(s)) && !(s.pc == DrainReceive && Blocked(s, Consumer))
              && s.runs <= s.requests
  {
    PlayKeeps(START, schedule);
  }

  function Times(n: nat, a: Actor): seq<Actor>
  {
    if n == 0 then [] else [a] + Times(n - 1, a)
  }

  lemma {:induction false} PlayConcat(s: State, first: seq<Actor>, second: seq<Actor>)
    ensures Play(s, first + second) == Play(Play(s, first), second)
    decreases |first|
  {
    if first == [] {
      assert first + second == second;
    } else {
      assert (first + second)[1..] == first[1..] + second;
      PlayConcat(if Blocked(s, first[0]) then s else Step(s, first[0]), first[1..], second);
    }
  }

  lemma {:induction false} Burst(s: State, n: nat)
    ensures Play(s, Times(n, Requester)) == if n == 0 then s else s.(token := true, requests := s.requests + n)
    decreases n
  {
    if n > 0 {
      assert Times(n, Requester)[1..] == Times(n - 1, Requester);
      Burst(Step(s, Requester), n - 1);
    }
  }

  lemma Solo(s: State)
    ensures s.pc == Sleeping && s.token ==>
              Play(s, Times(5, Consumer))
                == s.(token := false, pc := Running, covered := s.requests, runs := s.runs + 1)
    ensures s.pc == Sleeping && !s.token ==>
              Play(s, Times(3, Consumer)) == s.(pc := Running, covered := s.requests, runs := s.runs + 1)
  {
    assert Times(3, Consumer) == [Consumer, Consumer, Consumer];
    assert Times(5, Consumer) == [Consumer, Consumer, Consumer, Consumer, Consumer];
    if s.pc == Sleeping {
      var s1 := Step(s, Consumer);
      var s2 := Step(s1, Consumer);
      var s3 := Step(s2, Consumer);
      PlayOne(s, 2); PlayOne(s1, 1); PlayOne(s2, 0);
      if s.token {
        var s4 := Step(s3, Consumer);
        PlayOne(s, 4); PlayOne(s1, 3); PlayOne(s2, 2); PlayOne(s3, 1); PlayOne(s4, 0);
      }
    }
  }

  lemma PlayOne(s: State, n: nat)
    requires !Blocked(s, Consumer)
    ensures Play(s, Times(n + 1, Consumer)) == Play(Step(s, Consumer), Times(n, Consumer))
  {
    assert Times(n + 1, Consumer)[1..] == Times(n, Consumer);
  }

  lemma Asleep(s: State, n: nat)
    requires s.pc == Sleeping
    ensures var steps := if s.token || n > 0 then 5 else 3;
            Play(s, Times(n, Requester) + Times(steps, Consumer))
            == State(false, Running, s.requests + n, s.requests + n, s.runs + 1)
  {
    Burst(s, n);
    PlayConcat(s, Times(n, Requester), Times(if s.token || n > 0 then 5 else 3, Consumer));
    Solo(Play(s, Times(n, Requester)));
  }

  lemma Received(s: State, n: nat)
    requires s.pc == Waiting && s.token
    ensures var steps := if n > 0 then 5 else 3;
            Play(s, [Consumer] + (Times(n, Requester) + Times(steps, Consumer)))
            == State(false, Running, s.requests + n, s.requests + n, s.runs + 1)
  {
    var rest := Times(n, Requester) + Times(if n > 0 then 5 else 3, Consumer);
    assert ([Consumer] + rest)[1..] == rest;
    Asleep(Step(s, Consumer), n);
  }

  /** However many requests come in before the consumer receives and while it then sleeps, they share
      one run, and the channel is empty when it starts: after the receive, three steps of the consumer
      lead to the run, and two more if it has anything to drain. */
  lemma Coalesce(s: State, m: nat, n: nat)
    requires s.pc == Waiting && (s.token || m > 0)
    ensures var steps := if n > 0 then 5 else 3;
            Play(s, Times(m, Requester) + ([Consumer] + (Times(n, Requester) + Times(steps, Consumer))))
            == State(false, Running, s.requests + m + n, s.requests + m + n, s.runs + 1)
  {
    Burst(s, m);
    PlayConcat(s, Times(m, Requester), [Consumer] + (Times(n, Requester) + Times(if n > 0 then 5 else 3, Consumer)));
    Received(Play(s, Times(m, Requester)), n);
  }

  // ── The program ──

  class Coalescer {
    var token: bool                 // the channel's one slot
    var pc: Pc
    var requests: nat               // history
    var covered: nat                // history
    var runs: nat                   // history

    function Now(): State
      reads this
    {
      State(token, pc, requests, covered, runs)
    }

    constructor ()
      ensures Now() == START && Inv(Now())
    {
      token, pc, requests, covered, runs := false, Waiting, 0, 0, 0;
    }

    /** The select with a default: it always returns. */
    method Request()
      requires Inv(Now())
      modifies this
      ensures Now() == Step(old(Now()), Requester) && Inv(Now())
    {
      requests := requests + 1;
      if !token {
        token := true;
      }
    }

    /** One step of the consumer's loop. */
    method Consume()
      requires Inv(Now()) && !Blocked(Now(), Consumer)
      modifies this
      ensures Now() == Step(old(Now()), Consumer) && Inv(Now())
    {
      match pc {
        case Waiting => token, pc := false, Sleeping;
        case Sleeping => pc := DrainCheck;
        case DrainCheck => if token { pc := DrainReceive; } else { pc := Starting; }
        case DrainReceive => token, pc := false, DrainCheck;
        case Starting => covered, runs, pc := requests, runs + 1, Running;
        case Running => pc := Waiting;
      }
    }

    /** The two sides in any interleaving. */
    method Interleave(schedule: seq<Actor>)
      requires Inv(Now())
      modifies this
      ensures Now() == Play(old(Now()), schedule) && Inv(Now())
      ensures Count(schedule, Consumer) >= Distance(old(Now())) + 2 * Count(schedule, Requester) ==>
                covered >= old(requests)
    {
      ghost var s0 := Now();
      for i := 0 to |schedule|
        invariant Inv(Now()) && Play(s0, schedule) == Play(Now(), schedule[i..])
      {
        if schedule[i] == Requester {
          Request();
        } else if token || (pc != Waiting && pc != DrainReceive) {
          Consume();
        }
        assert schedule[i..][1..] == schedule[i + 1..];
      }
      if Count(schedule, Consumer) >= Distance(s0) + 2 * Count(schedule, Requester) {
        EveryRequestServed(s0, schedule);
      }
    }
  }
}
