/**
 * The session's state machine under any number of concurrent callers: what happens under the lock, and what does not.
 */
module Lifecycle {
  import opened Wrappers

  datatype LifecycleState = New | Starting | Started | Closing | Closed

  datatype Session = Session(state: LifecycleState, runActive: bool)

  datatype Reply =
    | Granted | Nothing | SessionClosed | SessionStarting | SessionClosing | NotStarted | RunActive | Failed
    | UnknownState

  datatype Section = Section(reply: Reply, session: Session)

  // ----- The sequential protocol -----

  datatype Event =
    | StartBegan | StartDone | StartFailed | RunBegan | RunEnded | ResetDone | CloseBegan | CloseDone | ClosedUnstarted

  datatype Phase = Unstarted | BeingStarted | Ready | Running | BeingClosed | Gone

  /** One event at a time: a run only while ready, a reset only at rest, closing only while ready, nothing after. */
  function Next(phase: Phase, e: Event): Option<Phase> {
    match (phase, e)
    case (Unstarted, StartBegan) => Some(BeingStarted)
    case (Unstarted, ResetDone) => Some(Unstarted)
    case (Unstarted, ClosedUnstarted) => Some(Gone)
    case (BeingStarted, StartDone) => Some(Ready)
    case (BeingStarted, StartFailed) => Some(Unstarted)
    case (Ready, RunBegan) => Some(Running)
    case (Ready, ResetDone) => Some(Ready)
    case (Ready, CloseBegan) => Some(BeingClosed)
    case (Running, RunEnded) => Some(Ready)
    case (BeingClosed, CloseDone) => Some(Gone)
    case _ => None
  }

  function PhaseOf(s: Session): Phase {
    match s.state
    case New => Unstarted
    case Starting => BeingStarted
    case Started => if s.runActive then Running else Ready
    case Closing => BeingClosed
    case Closed => Gone
  }

  /** Only a started session has an active run. */
  predicate WellFormed(s: Session) {
    s.runActive ==> s.state == Started
  }

  /**
   * What a caller is told and what happens, by the protocol: granted with the event taking place, or refused with no
   * effect.
   */
  ghost predicate GrantedIffPossible(before: Session, granted: bool, after: Session, e: Event) {
    if granted then Next(PhaseOf(before), e) == Some(PhaseOf(after))
    else Next(PhaseOf(before), e).None? && after == before
  }

  // ----- The critical sections -----

  function BeginStart(s: Session): Section {
    match s.state
    case Closed => Section(SessionClosed, s)
    case Started => Section(Nothing, s)
    case Starting => Section(SessionStarting, s)
    case Closing => Section(SessionClosing, s)
    case New => Section(Granted, s.(state := Starting))
  }

  /** The end of a start, after the work outside the lock has succeeded or failed. */
  function EndStart(s: Session, ok: bool): Section {
    if !ok then Section(Failed, if s.state == Starting then s.(state := New) else s)
    else if s.state != Starting then Section(UnknownState, s)
    else Section(Nothing, s.(state := Started))
  }

  function BeginRun(s: Session): Section {
    match s.state
    case Closed => Section(SessionClosed, s)
    case New => Section(NotStarted, s)
    case Starting => Section(SessionStarting, s)
    case Closing => Section(SessionClosing, s)
    case Started => if s.runActive then Section(RunActive, s) else Section(Granted, s.(runActive := true))
  }

  function EndRun(s: Session): Section {
    Section(Nothing, s.(runActive := false))
  }

  /** The whole reset happens under the lock. */
  function Reset(s: Session, ok: bool): Section {
    if s.state == Closed then Section(SessionClosed, s)
    else if s.state == Starting then Section(SessionStarting, s)
    else if s.state == Closing then Section(SessionClosing, s)
    else if s.runActive then Section(RunActive, s)
    else Section(if ok then Nothing else Failed, s)
  }

  function BeginClose(s: Session): Section {
    match s.state
    case Closed => Section(Nothing, s)
    case Starting => Section(SessionStarting, s)
    case Closing => Section(SessionClosing, s)
    case New => Section(Nothing, s.(state := Closed))
    case Started => if s.runActive then Section(RunActive, s) else Section(Granted, s.(state := Closing))
  }

  /** The end of a close: the session is closed whether or not its resources closed cleanly. */
  function EndClose(s: Session, ok: bool): Section {
    Section(if ok then Nothing else Failed, s.(state := Closed))
  }

  /** The session object; each method is one critical section. */
  class SessionObject {
    var state: LifecycleState
    var runActive: bool

    function Value(): Session
      reads this
    {
      Session(state, runActive)
    }

    constructor ()
      ensures Value() == Session(New, false)
    {
      state, runActive := New, false;
    }

    method AcquireStart() returns (reply: Reply)
      modifies this
      ensures Section(reply, Value()) == BeginStart(old(Value()))
      ensures GrantedIffPossible(old(Value()), reply == Granted, Value(), StartBegan)
    {
      match state {
        case Closed => return SessionClosed;
        case Started => return Nothing;
        case Starting => return SessionStarting;
        case Closing => return SessionClosing;
        case New => state := Starting;
      }
      reply := Granted;
    }

    method FinishStart(ok: bool) returns (reply: Reply)
      modifies this
      ensures Section(reply, Value()) == EndStart(old(Value()), ok)
      ensures old(WellFormed(Value()) && state == Starting) ==>
                Next(PhaseOf(old(Value())), if ok then StartDone else StartFailed) == Some(PhaseOf(Value()))
                && reply != UnknownState
    {
      if !ok {
        if state == Starting {
          state := New;
        }
        return Failed;
      }
      if state != Starting {
        return UnknownState;
      }
      state := Started;
      reply := Nothing;
    }

    method AcquireRun() returns (reply: Reply)
      modifies this
      ensures Section(reply, Value()) == BeginRun(old(Value()))
      ensures GrantedIffPossible(old(Value()), reply == Granted, Value(), RunBegan)
    {
      match state {
        case Closed => return SessionClosed;
        case New => return NotStarted;
        case Starting => return SessionStarting;
        case Closing => return SessionClosing;
        case Started =>
          if runActive {
            return RunActive;
          }
          runActive := true;
      }
      reply := Granted;
    }

    method ReleaseRun() returns (reply: Reply)
      modifies this
      ensures Section(reply, Value()) == EndRun(old(Value()))
      ensures old(state == Started && runActive) ==> Next(PhaseOf(old(Value())), RunEnded) == Some(PhaseOf(Value()))
    {
      runActive := false;
      reply := Nothing;
    }

    method ResetConversation(ok: bool) returns (reply: Reply)
      ensures Section(reply, Value()) == Reset(Value(), ok)
      ensures WellFormed(Value()) && ok ==>
              (reply == Nothing <==> Next(PhaseOf(Value()), ResetDone) == Some(PhaseOf(Value())))
    {
      if state == Closed {
        return SessionClosed;
      }
      if state == Starting {
        return SessionStarting;
      }
      if state == Closing {
        return SessionClosing;
      }
      if runActive {
        return RunActive;
      }
      reply := if ok then Nothing else Failed;
    }

    method AcquireClose() returns (reply: Reply)
      modifies this
      ensures Section(reply, Value()) == BeginClose(old(Value()))
      ensures old(state) != New ==> GrantedIffPossible(old(Value()), reply == Granted, Value(), CloseBegan)
      ensures old(state) == New ==> Next(PhaseOf(old(Value())), ClosedUnstarted) == Some(PhaseOf(Value()))
    {
      match state {
        case Closed => return Nothing;
        case Starting => return SessionStarting;
        case Closing => return SessionClosing;
        case New =>
          state := Closed;
          return Nothing;
        case Started =>
      }
      if runActive {
        return RunActive;
      }
      state := Closing;
      reply := Granted;
    }

    method FinishClose(ok: bool) returns (reply: Reply)
      modifies this
      ensures Section(reply, Value()) == EndClose(old(Value()), ok)
      ensures old(state) == Closing ==> Next(PhaseOf(old(Value())), CloseDone) == Some(PhaseOf(Value()))
    {
      state := Closed;
      reply := if ok then Nothing else Failed;
    }
  }

  // ----- Callers -----

  /** Where a caller is: outside, or between the two critical sections of a call, working without the lock. */
  datatype Caller = Idle | InStart | InRun | InClose

  /**
   * The call an idle caller makes; a caller inside a call takes its second critical section, with its work done well
   * or not.
   */
  datatype Move = CallStart(ok: bool) | CallRun(ok: bool) | CallReset(ok: bool) | CallClose(ok: bool)

  datatype System = System(session: Session, callers: seq<Caller>, log: seq<Event>)

  datatype Taken = Taken(section: Section, caller: Caller, events: seq<Event>)

  /** One critical section, by a caller at `at`. */
  function Take(s: Session, at: Caller, m: Move): Taken {
    match at
    case InStart => Taken(EndStart(s, m.ok), Idle,
                          [if EndStart(s, m.ok).reply == Nothing then StartDone else StartFailed])
    case InRun => Taken(EndRun(s), Idle, [RunEnded])
    case InClose => Taken(EndClose(s, m.ok), Idle, [CloseDone])
    case Idle =>
      match m
      case CallStart(_) =>
        var section := BeginStart(s);
        if section.reply == Granted then Taken(section, InStart, [StartBegan]) else Taken(section, Idle, [])
      case CallRun(_) =>
        var section := BeginRun(s);
        if section.reply == Granted then Taken(section, InRun, [RunBegan]) else Taken(section, Idle, [])
      case CallReset(ok) => Taken(Reset(s, ok), Idle, if Reset(s, ok).reply == Nothing then [ResetDone] else [])
      case CallClose(_) =>
        var section := BeginClose(s);
        if section.reply == Granted then Taken(section, InClose, [CloseBegan])
        else Taken(section, Idle, if s.state == New then [ClosedUnstarted] else [])
  }

  function Step(sys: System, i: nat, m: Move): System
    requires i < |sys.callers|
  {
    var taken := Take(sys.session, sys.callers[i], m);
    System(taken.section.session, sys.callers[i := taken.caller], sys.log + taken.events)
  }

  function Initial(callers: nat): System {
    System(Session(New, false), seq(callers, _ => Idle), [])
  }

  /** Any interleaving: each entry names the caller that takes its next critical section. */
  function RunSchedule(callers: nat, schedule: seq<(nat, Move)>): (sys: System)
    requires forall k :: 0 <= k < |schedule| ==> schedule[k].0 < callers
    ensures |sys.callers| == callers
  {
    if schedule == [] then Initial(callers)
    else
      var last := schedule[|schedule| - 1];
      Step(RunSchedule(callers, schedule[..|schedule| - 1]), last.0, last.1)
  }

  function PhaseAfter(log: seq<Event>): Option<Phase> {
    if log == [] then Some(Unstarted)
    else match PhaseAfter(log[..|log| - 1]) case None => None case Some(phase) => Next(phase, log[|log| - 1])
  }

  ghost predicate OnlyAt(callers: seq<Caller>, at: Caller, busy: bool) {
    && (busy ==> exists i :: 0 <= i < |callers| && callers[i] == at)
    && (!busy ==> forall i :: 0 <= i < |callers| ==> callers[i] != at)
    && (forall i, j :: 0 <= i < |callers| && 0 <= j < |callers| && callers[i] == at && callers[j] == at ==> i == j)
  }

  /** The session says who is inside a call, and there is never more than one of a kind. */
  ghost predicate Consistent(sys: System) {
    && OnlyAt(sys.callers, InStart, sys.session.state == Starting)
    && OnlyAt(sys.callers, InRun, sys.session.runActive)
    && OnlyAt(sys.callers, InClose, sys.session.state == Closing)
    && WellFormed(sys.session)
    && PhaseAfter(sys.log) == Some(PhaseOf(sys.session))
  }

  lemma {:induction false} PhaseStep(log: seq<Event>, events: seq<Event>)
    requires |events| <= 1
    ensures PhaseAfter(log + events) ==
            if events == [] then PhaseAfter(log)
            else match PhaseAfter(log) case None => None case Some(phase) => Next(phase, events[0])
  {
    if events == [] {
      assert log + events == log;
    } else {
      assert (log + events)[..|log|] == log;
    }
  }

  lemma {:induction false} OthersStay(callers: seq<Caller>, i: nat, next: Caller, at: Caller, busy: bool)
    requires i < |callers| && OnlyAt(callers, at, busy)
    ensures callers[i] != at && next != at ==> OnlyAt(callers[i := next], at, busy)
    ensures callers[i] == at && next != at ==> OnlyAt(callers[i := next], at, false)
    ensures !busy && next == at ==> OnlyAt(callers[i := next], at, true)
  {
    var after := callers[i := next];
    if busy && callers[i] != at && next != at {
      var k :| 0 <= k < |callers| && callers[k] == at;
      assert after[k] == at;
    }
    if !busy && next == at {
      assert after[i] == at;
    }
  }

  /** What one critical section does, for a caller the session agrees is there. */
  lemma {:induction false} TakeKeeps(s: Session, at: Caller, m: Move)
    requires at == InStart ==> s.state == Starting
    requires at == InRun ==> s.runActive
    requires at == InClose ==> s.state == Closing
    requires WellFormed(s)
    ensures
      var t := Take(s, at, m);
      var s' := t.section.session;
      && WellFormed(s') && t.section.reply != UnknownState && |t.events| <= 1
      && (if t.events == [] then PhaseOf(s') == PhaseOf(s) else Next(PhaseOf(s), t.events[0]) == Some(PhaseOf(s')))
      && ((s'.state == Starting) ==
          (if at == InStart then false else if t.caller == InStart then true else s.state == Starting))
      && (s'.runActive == (if at == InRun then false else if t.caller == InRun then true else s.runActive))
      && ((s'.state == Closing) ==
          (if at == InClose then false else if t.caller == InClose then true else s.state == Closing))
      && (at != Idle ==> t.caller == Idle)
      && (t.caller == InStart ==> s.state != Starting) && (t.caller == InRun ==> !s.runActive)
      && (t.caller == InClose ==> s.state != Closing)
  {
  }

  lemma {:induction false} StepKeeps(sys: System, i: nat, m: Move)
    requires Consistent(sys) && i < |sys.callers|
    ensures Consistent(Step(sys, i, m))
    ensures Take(sys.session, sys.callers[i], m).section.reply != UnknownState
  {
    hide Take, PhaseAfter, PhaseOf, Next, OnlyAt;
    var at, t := sys.callers[i], Take(sys.session, sys.callers[i], m);
    InsideMeansBusy(sys, i);
    TakeKeeps(sys.session, at, m);
    PhaseStep(sys.log, t.events);
    OthersStay(sys.callers, i, t.caller, InStart, sys.session.state == Starting);
    OthersStay(sys.callers, i, t.caller, InRun, sys.session.runActive);
    OthersStay(sys.callers, i, t.caller, InClose, sys.session.state == Closing);
  }

  lemma {:induction false} InsideMeansBusy(sys: System, i: nat)
    requires Consistent(sys) && i < |sys.callers|
    ensures sys.callers[i] == InStart ==> sys.session.state == Starting
    ensures sys.callers[i] == InRun ==> sys.session.runActive
    ensures sys.callers[i] == InClose ==> sys.session.state == Closing
  {
  }

  /**
   * Over every interleaving of any number of callers: an active run implies a started session, at most one caller
   * is starting, one running and one closing, and the events form a sequential history in which runs, resets and
   * closing never overlap and nothing follows a close.
   */
  lemma {:induction false} EveryInterleavingIsSafe(callers: nat, schedule: seq<(nat, Move)>)
    requires forall k :: 0 <= k < |schedule| ==> schedule[k].0 < callers
    ensures Consistent(RunSchedule(callers, schedule))
  {
    hide Consistent, Step;
    if schedule == [] {
      InitialIsConsistent(callers);
    } else {
      var last := schedule[|schedule| - 1];
      EveryInterleavingIsSafe(callers, schedule[..|schedule| - 1]);
      StepKeeps(RunSchedule(callers, schedule[..|schedule| - 1]), last.0, last.1);
    }
  }

  lemma {:induction false} InitialIsConsistent(callers: nat)
    ensures Consistent(Initial(callers))
  {
  }

  /** No caller that finishes a start ever finds the session in another state than starting. */
  lemma {:induction false} UnknownStateIsUnreachable(callers: nat, schedule: seq<(nat, Move)>, i: nat, m: Move)
    requires i < callers && forall k :: 0 <= k < |schedule| ==> schedule[k].0 < callers
    ensures
      var sys := RunSchedule(callers, schedule);
      Take(sys.session, sys.callers[i], m).section.reply != UnknownState
  {
    hide Consistent, Take, Step;
    EveryInterleavingIsSafe(callers, schedule);
    StepKeeps(RunSchedule(callers, schedule), i, m);
  }

  // ----- What the sequential history excludes -----

  lemma {:induction false} PrefixAccepted(log: seq<Event>, n: nat)
    requires n <= |log| && PhaseAfter(log).Some?
    ensures PhaseAfter(log[..n]).Some?
    decreases |log|
  {
    if n == |log| {
      assert log[..n] == log;
    } else {
      PrefixAccepted(log[..|log| - 1], n);
      assert log[..|log| - 1][..n] == log[..n];
    }
  }

  /** A run that began has ended before the next run, reset or close begins, and nothing begins once a close began. */
  lemma {:induction false} NothingOverlaps(callers: nat, schedule: seq<(nat, Move)>, n: nat)
    requires forall k :: 0 <= k < |schedule| ==> schedule[k].0 < callers
    requires n + 1 < |RunSchedule(callers, schedule).log|
    ensures
      var log := RunSchedule(callers, schedule).log;
      && (log[n] == RunBegan ==> log[n + 1] == RunEnded)
      && (log[n] == CloseBegan ==> log[n + 1] == CloseDone)
      && log[n] != CloseDone && log[n] != ClosedUnstarted
  {
    hide Consistent, PhaseAfter, RunSchedule;
    var log := RunSchedule(callers, schedule).log;
    EveryInterleavingIsSafe(callers, schedule);
    AcceptedLog(RunSchedule(callers, schedule));
    PrefixAccepted(log, n);
    PrefixAccepted(log, n + 1);
    PrefixAccepted(log, n + 2);
    LogStep(log, n);
    LogStep(log, n + 1);
  }

  lemma {:induction false} AcceptedLog(sys: System)
    requires Consistent(sys)
    ensures PhaseAfter(sys.log).Some?
  {
  }

  lemma {:induction false} LogStep(log: seq<Event>, n: nat)
    requires n < |log| && PhaseAfter(log[..n]).Some?
    ensures PhaseAfter(log[..n + 1]) == Next(PhaseAfter(log[..n]).value, log[n])
  {
    assert log[..n + 1][..n] == log[..n];
  }
}
