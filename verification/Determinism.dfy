/** Determinism.  Threads run arbitrary programs over the turn-based operations
    (no blocking system calls, no non-det regions).  What a thread does with
    the turn is a function of what happened under earlier turns: that is what
    data-race freedom gives.  When each thread reaches getTurn is left open.
    Every physical interleaving is then a prefix of one sequential schedule. */
module Determinism {
  import opened Queues
  import opened SchedCore
  import opened SchedSpec
  import opened Protocol
  import opened ProtocolInv
  import opened ProtocolSteps
  import opened ProtocolTheorems

  /** What the turn holder does next: act on the synchronisation objects
      (pthread_mutex_trylock, sem_post, ++narrived, ...) or call the scheduler. */
  datatype Cmd<A> = Act(a: A) | Call(l: Label)

  /** The scheduler calls available to a thread that keeps to turns. */
  predicate TurnCall(l: Label) {
    l.Inc? || l.Sig? || l.Create? || l.PutTurn? || l.End? || l.WaitOn? || l.BeginScan?
  }

  datatype Out<R> = Number(n: nat) | Value(r: R)

  datatype Event<A, R> =
    | Got(turn: nat, t: Tid, status: int)
    | Did(turn: nat, t: Tid, cmd: Cmd<A>, out: Out<R>)

  datatype Program<!M, !A, !R> = Program(
    cfg: Config,
    next: (Tid, seq<Event<A, R>>) -> Cmd<A>,
    act: (Tid, A, M) -> (M, R))

  datatype Sys<M, A, R> = Sys(s: State, mem: M, log: seq<Event<A, R>>)

  /** One physical step: a thread reaches getTurn, or the turn moves on. */
  datatype Choice = Arrives(t: Tid) | Token

  /** The step of the protocol by which the turn moves on. */
  ghost function TokenLabel<M, A, R>(p: Program<M, A, R>, x: Sys<M, A, R>): Label {
    match x.s.phase
    case InFlight => Take(if x.s.h.core.runq == [] then 0 else x.s.h.core.runq[0])
    case Held(t, _) => (match p.next(t, x.log) case Act(_) => Look case Call(l) => l)
    case Scanning(_) => Scan
    case Promised => LeaveIdle
    case Draining(_, _) => DrainWakeups([])
    case Seeking(_, _) => Look
    case Granting(_) => Post
    case Stopped => Look
  }

  ghost predicate Acts<M, A, R>(p: Program<M, A, R>, x: Sys<M, A, R>) {
    x.s.phase.Held? && p.next(x.s.phase.t, x.log).Act?
  }

  ghost predicate MoveEnabled(cfg: Config, s: State, l: Label)
    requires Shape(s)
  {
    Guard(s, l) && Asserts(cfg, s, l) && (s.phase.Held? ==> TurnCall(l))
  }

  /** The turn can move on.  (The assertions always hold: TurnNeverFails.) */
  ghost predicate TokenEnabled<M, A, R>(p: Program<M, A, R>, x: Sys<M, A, R>) {
    && Shape(x.s)
    && if Acts(p, x) then HolderIs(x.s, Wanting)
       else MoveEnabled(p.cfg, x.s, TokenLabel(p, x))
  }

  ghost function EventOf<M, A, R>(p: Program<M, A, R>, x: Sys<M, A, R>): seq<Event<A, R>>
    requires TokenEnabled(p, x)
  {
    var turn := x.s.h.core.turn;
    match x.s.phase
    case InFlight =>
      var t := TokenLabel(p, x).t;
      [Got(turn, t, x.s.h.core.waits[t].status)]
    case Held(t, _) =>
      var cmd := p.next(t, x.log);
      [Did(turn, t, cmd, if cmd.Act? then Value(p.act(t, cmd.a, x.mem).1)
                         else Number(if cmd.l.Create? then |x.s.pc| else turn))]
    case _ => []
  }

  ghost function TokenStep<M, A, R>(p: Program<M, A, R>, x: Sys<M, A, R>): Sys<M, A, R>
    requires TokenEnabled(p, x)
  {
    if Acts(p, x)
    then x.(mem := p.act(x.s.phase.t, p.next(x.s.phase.t, x.log).a, x.mem).0, log := x.log + EventOf(p, x))
    else x.(s := Apply(p.cfg, x.s, TokenLabel(p, x)), log := x.log + EventOf(p, x))
  }

  /** A physical run. */
  ghost predicate Runs<M, A, R>(p: Program<M, A, R>, x: Sys<M, A, R>, cs: seq<Choice>, x': Sys<M, A, R>)
    decreases |cs|
  {
    if cs == [] then x == x'
    else match cs[0]
      case Arrives(t) =>
        && Shape(x.s) && Guard(x.s, Arrive(t))
        && Runs(p, x.(s := Apply(p.cfg, x.s, Arrive(t))), cs[1..], x')
      case Token => TokenEnabled(p, x) && Runs(p, TokenStep(p, x), cs[1..], x')
  }

  ghost function Tokens(cs: seq<Choice>): nat {
    if cs == [] then 0 else (if cs[0].Token? then 1 else 0) + Tokens(cs[1..])
  }

  // ----- the sequential schedule ---------------------------------------------------

  ghost function Arrived(pc: seq<Pc>): (r: seq<Pc>)
    ensures |r| == |pc|
    ensures forall i :: 0 <= i < |pc| ==> r[i] == if pc[i] == App then Wanting else pc[i]
  {
    seq(|pc|, i requires 0 <= i < |pc| => if pc[i] == App then Wanting else pc[i])
  }

  /** The same system with every thread already waiting for its turn. */
  ghost function AllArrived<M, A, R>(x: Sys<M, A, R>): Sys<M, A, R> {
    x.(s := x.s.(pc := Arrived(x.s.pc)))
  }

  ghost function Iterate<M, A, R>(f: Sys<M, A, R> -> Sys<M, A, R>, x: Sys<M, A, R>, n: nat): Sys<M, A, R>
    decreases n
  {
    if n == 0 then x else Iterate(f, f(x), n - 1)
  }

  ghost function Forward<M, A, R>(p: Program<M, A, R>, x: Sys<M, A, R>): Sys<M, A, R> {
    if TokenEnabled(p, x) then AllArrived(TokenStep(p, x)) else x
  }

  /** The schedule in which no thread ever lets the turn wait. */
  ghost function Schedule<M, A, R>(p: Program<M, A, R>, x: Sys<M, A, R>, n: nat): Sys<M, A, R> {
    Iterate(y => Forward(p, y), x, n)
  }

  lemma ArrivedUpdate(pc: seq<Pc>, t: Tid, v: Pc)
    requires t < |pc|
    ensures Arrived(pc[t := v]) == Arrived(Arrived(pc)[t := v])
  {
  }

  /** A step of the protocol by which the turn moves commutes with arrivals. */
  lemma ApplyCommutes(cfg: Config, s: State, l: Label)
    requires Shape(s) && Guard(s, l) && Asserts(cfg, s, l)
    requires s.phase.Held? ==> TurnCall(l)
    requires !l.Start? && !l.Finish? && !l.Wake? && !l.Arrive?
    ensures var e := s.(pc := Arrived(s.pc));
            && Shape(e) && Guard(e, l) && Asserts(cfg, e, l)
            && Apply(cfg, e, l).h == Apply(cfg, s, l).h && Apply(cfg, e, l).phase == Apply(cfg, s, l).phase
            && Arrived(Apply(cfg, e, l).pc) == Arrived(Apply(cfg, s, l).pc)
  {
    var e := s.(pc := Arrived(s.pc));
    assert Arrived(e.pc) == Arrived(s.pc);
    match l
    case Create => assert Arrived(e.pc + [App]) == Arrived(s.pc + [App]);
    case PutTurn => ArrivedUpdate(s.pc, s.phase.t, App);
    case End => ArrivedUpdate(s.pc, s.phase.t, Ended);
    case LeaveIdle => ArrivedUpdate(s.pc, IDLE, Parked);
    case Look =>
      if Launched(s) {
        ArrivedUpdate(s.pc, IDLE, App);
      }
    case _ =>
  }

  lemma EventCommutes<M, A, R>(p: Program<M, A, R>, x: Sys<M, A, R>)
    requires TokenEnabled(p, x) && TokenEnabled(p, AllArrived(x))
    ensures EventOf(p, AllArrived(x)) == EventOf(p, x)
  {
  }

  lemma LabelCommutes<M, A, R>(p: Program<M, A, R>, x: Sys<M, A, R>)
    ensures TokenLabel(p, AllArrived(x)) == TokenLabel(p, x)
    ensures Acts(p, AllArrived(x)) == Acts(p, x)
  {
  }

  lemma EnabledCommutes<M, A, R>(p: Program<M, A, R>, x: Sys<M, A, R>, l: Label)
    requires TokenEnabled(p, x) && !Acts(p, x) && l == TokenLabel(p, x)
    ensures TokenEnabled(p, AllArrived(x))
    ensures Shape(x.s) && MoveEnabled(p.cfg, x.s, l)
    ensures MoveEnabled(p.cfg, AllArrived(x).s, l)
  {
    LabelCommutes(p, x);
    ApplyCommutes(p.cfg, x.s, l);
  }

  lemma ActCommutes<M, A, R>(p: Program<M, A, R>, x: Sys<M, A, R>)
    requires TokenEnabled(p, x) && Acts(p, x)
    ensures TokenEnabled(p, AllArrived(x))
    ensures AllArrived(TokenStep(p, AllArrived(x))) == AllArrived(TokenStep(p, x))
  {
    assert Arrived(Arrived(x.s.pc)) == Arrived(x.s.pc);
  }

  lemma TokenCommutes<M, A, R>(p: Program<M, A, R>, x: Sys<M, A, R>)
    requires TokenEnabled(p, x)
    ensures TokenEnabled(p, AllArrived(x))
    ensures AllArrived(TokenStep(p, AllArrived(x))) == AllArrived(TokenStep(p, x))
  {
    LabelCommutes(p, x);
    if Acts(p, x) {
      ActCommutes(p, x);
    } else {
      EnabledCommutes(p, x, TokenLabel(p, x));
      EventCommutes(p, x);
      ApplyCommutes(p.cfg, x.s, TokenLabel(p, x));
      StepsAgree(TokenStep(p, x), TokenStep(p, AllArrived(x)));
    }
  }

  lemma StepsAgree<M, A, R>(x: Sys<M, A, R>, y: Sys<M, A, R>)
    requires x.s.h == y.s.h && x.s.phase == y.s.phase && Arrived(x.s.pc) == Arrived(y.s.pc)
    requires x.mem == y.mem && x.log == y.log
    ensures AllArrived(x) == AllArrived(y)
  {
  }

  lemma ArriveSame<M, A, R>(p: Program<M, A, R>, x: Sys<M, A, R>, t: Tid)
    requires Shape(x.s) && Guard(x.s, Arrive(t)) && Asserts(p.cfg, x.s, Arrive(t))
    ensures AllArrived(x.(s := Apply(p.cfg, x.s, Arrive(t)))) == AllArrived(x)
  {
    assert Arrived(Apply(p.cfg, x.s, Arrive(t)).pc) == Arrived(x.s.pc);
  }

  lemma ScheduleStep<M, A, R>(p: Program<M, A, R>, x: Sys<M, A, R>, n: nat)
    requires TokenEnabled(p, x)
    ensures Schedule(p, AllArrived(x), n + 1) == Schedule(p, AllArrived(TokenStep(p, x)), n)
  {
    TokenCommutes(p, x);
    assert Forward(p, AllArrived(x)) == AllArrived(TokenStep(p, x));
  }

  /** Every physical run is, up to who is already waiting for the turn, the
      sequential schedule cut after as many turn steps as the run made. */
  lemma {:induction false} RunIsSchedule<M, A, R>(p: Program<M, A, R>, x: Sys<M, A, R>, cs: seq<Choice>,
                                                  x': Sys<M, A, R>)
    requires Runs(p, x, cs, x')
    ensures AllArrived(x') == Schedule(p, AllArrived(x), Tokens(cs))
    decreases |cs|
  {
    if cs == [] {
    } else {
      match cs[0]
      case Arrives(t) =>
        ArriveSame(p, x, t);
        RunIsSchedule(p, x.(s := Apply(p.cfg, x.s, Arrive(t))), cs[1..], x');
      case Token =>
        ScheduleStep(p, x, Tokens(cs[1..]));
        RunIsSchedule(p, TokenStep(p, x), cs[1..], x');
    }
  }

  lemma {:induction false} IterateGrows<M(!new), A(!new), R(!new)>(f: Sys<M, A, R> -> Sys<M, A, R>, x: Sys<M, A, R>,
                                                                   m: nat, n: nat)
    requires m <= n && forall y: Sys<M, A, R> :: y.log <= f(y).log
    ensures Iterate(f, x, m).log <= Iterate(f, x, n).log
    decreases n
  {
    if m > 0 {
      IterateGrows(f, f(x), m - 1, n - 1);
    } else if n > 0 {
      IterateGrows(f, f(x), 0, n - 1);
    }
  }

  lemma ForwardGrows<M, A, R>(p: Program<M, A, R>, y: Sys<M, A, R>)
    ensures y.log <= Forward(p, y).log
  {
  }

  lemma ScheduleGrows<M(!new), A(!new), R(!new)>(p: Program<M, A, R>, x: Sys<M, A, R>, m: nat, n: nat)
    requires m <= n
    ensures Schedule(p, x, m).log <= Schedule(p, x, n).log
  {
    var f := (y: Sys<M, A, R>) => Forward(p, y);
    forall y: Sys<M, A, R> ensures y.log <= f(y).log {
      ForwardGrows(p, y);
    }
    IterateGrows(f, x, m, n);
  }

  /** Determinism: of any two runs of the same program from the same state, one
      log is a prefix of the other, and runs with as many turn steps agree on
      everything except who is already waiting for the turn. */
  lemma Deterministic<M(!new), A(!new), R(!new)>(p: Program<M, A, R>, x: Sys<M, A, R>,
                               cs1: seq<Choice>, x1: Sys<M, A, R>, cs2: seq<Choice>, x2: Sys<M, A, R>)
    requires Runs(p, x, cs1, x1) && Runs(p, x, cs2, x2)
    ensures x1.log <= x2.log || x2.log <= x1.log
    ensures Tokens(cs1) == Tokens(cs2) ==>
              x1.log == x2.log && x1.mem == x2.mem && x1.s.h == x2.s.h && x1.s.phase == x2.s.phase
  {
    RunIsSchedule(p, x, cs1, x1);
    RunIsSchedule(p, x, cs2, x2);
    assert AllArrived(x1).log == x1.log && AllArrived(x2).log == x2.log;
    if Tokens(cs1) <= Tokens(cs2) {
      ScheduleGrows(p, AllArrived(x), Tokens(cs1), Tokens(cs2));
    } else {
      ScheduleGrows(p, AllArrived(x), Tokens(cs2), Tokens(cs1));
    }
  }

  // ----- these systems are runs of the protocol -------------------------------------

  lemma ReachableNext(cfg: Config, s: State, l: Label)
    requires Reachable(cfg, s) && Shape(s) && Guard(s, l) && Asserts(cfg, s, l)
    ensures Reachable(cfg, Apply(cfg, s, l))
  {
    var ls :| Reaches(cfg, Init(), ls, s);
    RunExtends(cfg, Init(), ls, s, l);
  }

  /** Every state of every physical run from the start is a reachable state of
      the protocol, so its theorems apply. */
  lemma {:induction false} RunsReachable<M, A, R>(p: Program<M, A, R>, x: Sys<M, A, R>, cs: seq<Choice>,
                                                  x': Sys<M, A, R>)
    requires Reachable(p.cfg, x.s) && Runs(p, x, cs, x')
    ensures Reachable(p.cfg, x'.s)
    decreases |cs|
  {
    if cs == [] {
      assert x == x';
    } else {
      match cs[0]
      case Arrives(t) =>
        ReachableNext(p.cfg, x.s, Arrive(t));
        RunsReachable(p, x.(s := Apply(p.cfg, x.s, Arrive(t))), cs[1..], x');
      case Token =>
        TokenReachable(p, x);
        RunsReachable(p, TokenStep(p, x), cs[1..], x');
    }
  }

  lemma TokenReachable<M, A, R>(p: Program<M, A, R>, x: Sys<M, A, R>)
    requires Reachable(p.cfg, x.s) && TokenEnabled(p, x)
    ensures Reachable(p.cfg, TokenStep(p, x).s)
  {
    if !Acts(p, x) {
      ReachableNext(p.cfg, x.s, TokenLabel(p, x));
    }
  }

  /** Whether the turn can move on is a matter of control flow alone: in no state
      of a physical run does an assertion stand in its way. */
  lemma TurnNeverFails<M, A, R>(p: Program<M, A, R>, x: Sys<M, A, R>, cs: seq<Choice>, x': Sys<M, A, R>)
    requires x.s == Init() && Runs(p, x, cs, x') && !Acts(p, x')
    ensures Shape(x'.s)
    ensures TokenEnabled(p, x') <==>
            Guard(x'.s, TokenLabel(p, x')) && (x'.s.phase.Held? ==> TurnCall(TokenLabel(p, x')))
  {
    assert Reaches(p.cfg, Init(), [], Init());
    RunsReachable(p, x, cs, x');
    NoAssertionFails(p.cfg, x'.s, TokenLabel(p, x'));
  }

  // ----- what the log records -----------------------------------------------------------

  /** Taking the turn is logged with the turn number, the taker and the result of
      its wait; what a holder does, with the turn number, the holder, the command
      its program asks for and what it answers; nothing else is. */
  lemma LogRecords<M, A, R>(p: Program<M, A, R>, x: Sys<M, A, R>)
    requires TokenEnabled(p, x)
    ensures x.s.phase.InFlight? ==> x.s.h.core.runq != [] && x.s.h.core.runq[0] < |x.s.h.core.waits|
    ensures var x1, c := TokenStep(p, x), x.s.h.core;
            match x.s.phase
            case InFlight => x1.mem == x.mem && x1.log == x.log + [Got(c.turn, c.runq[0], c.waits[c.runq[0]].status)]
            case Held(t, _) =>
              (match p.next(t, x.log)
               case Act(a) =>
                 && x1.s == x.s && x1.mem == p.act(t, a, x.mem).0
                 && x1.log == x.log + [Did(c.turn, t, Act(a), Value(p.act(t, a, x.mem).1))]
               case Call(l) =>
                 && x1.mem == x.mem
                 && x1.log == x.log + [Did(c.turn, t, Call(l), Number(if l.Create? then |x.s.pc| else c.turn))])
            case _ => x1.mem == x.mem && x1.log == x.log
  {
    match x.s.phase
    case InFlight => TakeLogged(p, x);
    case Held(_, _) => HeldLogged(p, x);
    case _ => QuietLogged(p, x);
  }

  lemma TakeLogged<M, A, R>(p: Program<M, A, R>, x: Sys<M, A, R>)
    requires TokenEnabled(p, x) && x.s.phase.InFlight?
    ensures var x1, c := TokenStep(p, x), x.s.h.core;
            && c.runq != [] && c.runq[0] < |c.waits|
            && x1.mem == x.mem && x1.log == x.log + [Got(c.turn, c.runq[0], c.waits[c.runq[0]].status)]
  {
  }

  lemma HeldLogged<M, A, R>(p: Program<M, A, R>, x: Sys<M, A, R>)
    requires TokenEnabled(p, x) && x.s.phase.Held?
    ensures var x1, turn, t := TokenStep(p, x), x.s.h.core.turn, x.s.phase.t;
            match p.next(t, x.log)
            case Act(a) =>
              && x1.s == x.s && x1.mem == p.act(t, a, x.mem).0
              && x1.log == x.log + [Did(turn, t, Act(a), Value(p.act(t, a, x.mem).1))]
            case Call(l) =>
              && x1.mem == x.mem
              && x1.log == x.log + [Did(turn, t, Call(l), Number(if l.Create? then |x.s.pc| else turn))]
  {
    if p.next(x.s.phase.t, x.log).Act? {
      ActLogged(p, x);
    } else {
      CallLogged(p, x);
    }
  }

  lemma ActLogged<M, A, R>(p: Program<M, A, R>, x: Sys<M, A, R>)
    requires TokenEnabled(p, x) && x.s.phase.Held? && p.next(x.s.phase.t, x.log).Act?
    ensures var x1, t := TokenStep(p, x), x.s.phase.t;
            var a := p.next(t, x.log).a;
            && x1.s == x.s && x1.mem == p.act(t, a, x.mem).0
            && x1.log == x.log + [Did(x.s.h.core.turn, t, Act(a), Value(p.act(t, a, x.mem).1))]
  {
  }

  lemma CallLogged<M, A, R>(p: Program<M, A, R>, x: Sys<M, A, R>)
    requires TokenEnabled(p, x) && x.s.phase.Held? && p.next(x.s.phase.t, x.log).Call?
    ensures var x1, turn, t := TokenStep(p, x), x.s.h.core.turn, x.s.phase.t;
            var l := p.next(t, x.log).l;
            && x1.mem == x.mem
            && x1.log == x.log + [Did(turn, t, Call(l), Number(if l.Create? then |x.s.pc| else turn))]
  {
  }

  lemma QuietLogged<M, A, R>(p: Program<M, A, R>, x: Sys<M, A, R>)
    requires TokenEnabled(p, x) && !x.s.phase.InFlight? && !x.s.phase.Held?
    ensures TokenStep(p, x).mem == x.mem && TokenStep(p, x).log == x.log
  {
    assert x.log + [] == x.log;
  }

  /** A scheduler call of the holder is the step of the protocol its program asks for. */
  lemma CallApplies<M, A, R>(p: Program<M, A, R>, x: Sys<M, A, R>, l: Label)
    requires TokenEnabled(p, x) && x.s.phase.Held? && p.next(x.s.phase.t, x.log) == Call(l)
    ensures Shape(x.s) && Guard(x.s, l) && Asserts(p.cfg, x.s, l) && TokenStep(p, x).s == Apply(p.cfg, x.s, l)
  {
  }

  ghost function Gots<A, R>(log: seq<Event<A, R>>): nat {
    if log == [] then 0 else Gots(log[..|log| - 1]) + if log[|log| - 1].Got? then 1 else 0
  }

  ghost function Acted<A, R>(log: seq<Event<A, R>>): nat {
    if log == [] then 0 else Acted(log[..|log| - 1]) + if log[|log| - 1].Did? then 1 else 0
  }

  /** The log of a run has one Got for each turn taken and one Did for each act of
      a holder, `takes` and `acts` in all. */
  ghost predicate RunsCounting<M, A, R>(p: Program<M, A, R>, x: Sys<M, A, R>, cs: seq<Choice>, x': Sys<M, A, R>,
                                        takes: nat, acts: nat)
    decreases |cs|
  {
    if cs == [] then x == x' && takes == 0 && acts == 0
    else match cs[0]
      case Arrives(t) =>
        && Shape(x.s) && Guard(x.s, Arrive(t))
        && RunsCounting(p, x.(s := Apply(p.cfg, x.s, Arrive(t))), cs[1..], x', takes, acts)
      case Token =>
        var isTake, isAct := x.s.phase.InFlight?, x.s.phase.Held?;
        && TokenEnabled(p, x) && (isTake ==> takes > 0) && (isAct ==> acts > 0)
        && RunsCounting(p, TokenStep(p, x), cs[1..], x',
                        if isTake then takes - 1 else takes, if isAct then acts - 1 else acts)
  }

  lemma {:induction false} LogCounts<M, A, R>(p: Program<M, A, R>, x: Sys<M, A, R>, cs: seq<Choice>, x': Sys<M, A, R>,
                                              takes: nat, acts: nat)
    requires RunsCounting(p, x, cs, x', takes, acts)
    ensures Gots(x'.log) == Gots(x.log) + takes && Acted(x'.log) == Acted(x.log) + acts
    ensures Runs(p, x, cs, x')
    decreases |cs|
  {
    if cs == [] {
      assert x == x';
    } else {
      match cs[0]
      case Arrives(t) =>
        LogCounts(p, x.(s := Apply(p.cfg, x.s, Arrive(t))), cs[1..], x', takes, acts);
      case Token =>
        var isTake, isAct := x.s.phase.InFlight?, x.s.phase.Held?;
        TokenCounts(p, x);
        LogCounts(p, TokenStep(p, x), cs[1..], x',
                  if isTake then takes - 1 else takes, if isAct then acts - 1 else acts);
    }
  }

  lemma TokenCounts<M, A, R>(p: Program<M, A, R>, x: Sys<M, A, R>)
    requires TokenEnabled(p, x)
    ensures var x1 := TokenStep(p, x);
            && Gots(x1.log) == Gots(x.log) + (if x.s.phase.InFlight? then 1 else 0)
            && Acted(x1.log) == Acted(x.log) + (if x.s.phase.Held? then 1 else 0)
  {
    LogRecords(p, x);
    var x1 := TokenStep(p, x);
    if x1.log != x.log {
      assert x1.log[..|x1.log| - 1] == x.log;
    }
  }
}
