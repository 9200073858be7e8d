/** Tool and hook providers: every successful Start is matched by one Close, in reverse order, whatever fails. */
module Providers {
  import opened Wrappers
  import T = ToolPolicy

  datatype Kind = ToolProviders | HookProviders

  /** Calls the providers receive; a failed Start is not one of them. A provider is its position in its hub. */
  datatype Event = Opened(kind: Kind, provider: nat) | Shut(kind: Kind, provider: nat)

  /** What a hub registers, by its key: a tool by its name, a hook by its event and name. */
  datatype Item = Tool(entry: T.Entry) | Hook(event: string, name: string)

  function Key(item: Item): string {
    match item
    case Tool(entry) => entry.name
    case Hook(event, name) => event + "\0" + name
  }

  /** A descriptor that does not validate, or what it offers. */
  datatype Descriptor = Invalid | Offers(item: Item)

  /** What starting one provider meets, and where it fails; descriptors are checked one by one after the start. */
  datatype Outcome = Refused | StartFails | ListFails | Lists(descriptors: seq<Descriptor>)

  // ----- Registration -----

  predicate Taken(active: seq<Item>, key: string) {
    exists i :: 0 <= i < |active| && Key(active[i]) == key
  }

  /** The items registered once these descriptors are; an invalid one, an empty key or a key twice is refused. */
  function Registered(active: seq<Item>, descriptors: seq<Descriptor>): Option<seq<Item>>
    decreases |descriptors|
  {
    if descriptors == [] then Some(active)
    else match descriptors[0]
      case Invalid => None
      case Offers(item) =>
        if Key(item) == "" || Taken(active, Key(item)) then None else Registered(active + [item], descriptors[1..])
  }

  ghost predicate UniqueKeys(active: seq<Item>) {
    forall i, j :: 0 <= i < j < |active| ==> Key(active[i]) != Key(active[j])
  }

  lemma {:induction false} OneMoreKey(active: seq<Item>, item: Item)
    requires UniqueKeys(active) && !Taken(active, Key(item))
    ensures UniqueKeys(active + [item])
    ensures forall key :: Taken(active + [item], key) <==> Taken(active, key) || key == Key(item)
  {
    hide Key;
    var more := active + [item];
    assert more[|active|] == item && forall i :: 0 <= i < |active| ==> more[i] == active[i];
    forall key | Taken(active, key) ensures Taken(more, key) {
      var i :| 0 <= i < |active| && Key(active[i]) == key;
      assert Key(more[i]) == key;
    }
    assert Key(more[|active|]) == Key(item);
  }

  /** Whatever providers list, what is registered has a key of its own each. */
  lemma {:induction false} RegisteredIsUnique(active: seq<Item>, descriptors: seq<Descriptor>)
    requires UniqueKeys(active)
    ensures Registered(active, descriptors).Some? ==> UniqueKeys(Registered(active, descriptors).value)
    decreases |descriptors|
  {
    hide Key, Taken, UniqueKeys;
    if descriptors != [] && descriptors[0].Offers? && !Taken(active, Key(descriptors[0].item)) {
      OneMoreKey(active, descriptors[0].item);
      RegisteredIsUnique(active + [descriptors[0].item], descriptors[1..]);
    }
  }

  ghost predicate SeenAre(seen: set<string>, active: seq<Item>) {
    UniqueKeys(active) && forall key :: key in seen <==> Taken(active, key)
  }

  lemma {:induction false} SeenOneMore(seen: set<string>, active: seq<Item>, item: Item)
    requires SeenAre(seen, active) && Key(item) !in seen
    ensures SeenAre(seen + {Key(item)}, active + [item])
  {
    hide Key, Taken, UniqueKeys;
    OneMoreKey(active, item);
  }

  /** Registers descriptors one by one and stops at the first that is refused. */
  method Register(active: seq<Item>, seen: set<string>, descriptors: seq<Descriptor>)
    returns (active': seq<Item>, seen': set<string>, ok: bool)
    requires SeenAre(seen, active)
    ensures ok <==> Registered(active, descriptors).Some?
    ensures ok ==> active' == Registered(active, descriptors).value && SeenAre(seen', active')
  {
    hide Key, Taken, UniqueKeys;
    active', seen' := active, seen;
    assert descriptors[0..] == descriptors;
    for j := 0 to |descriptors|
      invariant SeenAre(seen', active')
      invariant Registered(active, descriptors) == Registered(active', descriptors[j..])
    {
      assert descriptors[j..][0] == descriptors[j] && descriptors[j..][1..] == descriptors[j + 1..];
      if descriptors[j].Invalid? {
        return active', seen', false;
      }
      var item := descriptors[j].item;
      if Key(item) == "" || Key(item) in seen' {
        return active', seen', false;
      }
      SeenOneMore(seen', active', item);
      seen' := seen' + {Key(item)};
      active' := active' + [item];
    }
    ok := true;
  }

  // ----- One hub -----

  function Ups(kind: Kind, n: nat): seq<Event> {
    seq(n, i requires 0 <= i < n => Opened(kind, i))
  }

  /** Closes of providers `n - 1` down to 0. */
  function Downs(kind: Kind, n: nat): seq<Event> {
    seq(n, i requires 0 <= i < n => Shut(kind, n - 1 - i))
  }

  predicate NeverStarts(o: Outcome) {
    o.StartFails? || o.Refused?
  }

  /** How many providers have been started, whether all is well, and what is registered. */
  datatype Progress = Progress(started: nat, ok: bool, active: seq<Item>)

  /** A hub start over these providers, with `base` registered before them. */
  function Reach(base: seq<Item>, outcomes: seq<Outcome>): Progress {
    if outcomes == [] then Progress(0, true, base)
    else
      var before, last := Reach(base, outcomes[..|outcomes| - 1]), outcomes[|outcomes| - 1];
      if !before.ok then before
      else if NeverStarts(last) then before.(ok := false)
      else if last.Lists? && Registered(before.active, last.descriptors).Some? then
        Progress(before.started + 1, true, Registered(before.active, last.descriptors).value)
      else Progress(before.started + 1, false, before.active)
  }

  /** The calls a whole hub start makes: providers up to the first failure, and their closes unless it was a refusal. */
  function StartEvents(kind: Kind, base: Option<seq<Item>>, outcomes: seq<Outcome>): seq<Event> {
    if base.None? then []
    else
      var n := Reach(base.value, outcomes).started;
      if Reach(base.value, outcomes).ok || RefusedAt(base.value, outcomes) then Ups(kind, n)
      else Ups(kind, n) + Downs(kind, n)
  }

  /** The failing provider was refused before its Start: the hub itself closes nothing then. */
  predicate RefusedAt(base: seq<Item>, outcomes: seq<Outcome>) {
    if outcomes == [] then false
    else
      var rest := outcomes[..|outcomes| - 1];
      if !Reach(base, rest).ok then RefusedAt(base, rest) else outcomes[|outcomes| - 1].Refused?
  }

  /** A started hub has a key of its own for everything it registered. */
  lemma {:induction false} ReachIsUnique(base: seq<Item>, outcomes: seq<Outcome>)
    requires UniqueKeys(base)
    ensures UniqueKeys(Reach(base, outcomes).active)
  {
    hide UniqueKeys, Registered;
    if outcomes != [] {
      var before := Reach(base, outcomes[..|outcomes| - 1]);
      ReachIsUnique(base, outcomes[..|outcomes| - 1]);
      if outcomes[|outcomes| - 1].Lists? {
        RegisteredIsUnique(before.active, outcomes[|outcomes| - 1].descriptors);
      }
    }
  }

  class Ledger {
    ghost var events: seq<Event>

    constructor ()
      ensures events == []
    {
      events := [];
    }
  }

  /** One hub of providers; it remembers in order those whose Start succeeded. */
  class Hub {
    const kind: Kind
    var started: seq<nat>
    var active: seq<Item>
    const ledger: Ledger

    constructor (kind: Kind, ledger: Ledger)
      ensures this.kind == kind && this.ledger == ledger && started == [] && active == []
    {
      this.kind, this.ledger, started, active := kind, ledger, [], [];
    }

    /** Closes the started providers from the last to the first, and forgets them. */
    method Close()
      modifies this`started, ledger
      ensures started == []
      ensures ledger.events == old(ledger.events) + ClosesOf(kind, old(started))
    {
      ghost var before := ledger.events;
      var i := |started|;
      assert started[i..] == [] && before + ClosesOf(kind, []) == before;
      while i > 0
        invariant 0 <= i <= |started| && started == old(started)
        invariant ledger.events == before + ClosesOf(kind, started[i..])
      {
        i := i - 1;
        ClosesStep(kind, started, i);
        assert before + (ClosesOf(kind, started[i + 1..]) + [Shut(kind, started[i])])
            == (before + ClosesOf(kind, started[i + 1..])) + [Shut(kind, started[i])];
        ledger.events := ledger.events + [Shut(kind, started[i])];
      }
      assert started[0..] == started;
      started := [];
    }

    /** Registers the built-in items, then starts the providers in order and registers what each lists. */
    method Start(builtins: Option<seq<Descriptor>>, outcomes: seq<Outcome>) returns (ok: bool)
      requires started == [] && active == []
      modifies this, ledger
      ensures ok == Goes(builtins, outcomes)
      ensures ledger.events == old(ledger.events) + StartEvents(kind, Base(builtins), outcomes)
      ensures started == LeftOpen(builtins, outcomes)
      ensures active == if ok then Reach(Base(builtins).value, outcomes).active else []
    {
      hide Downs, ClosesOf, Reach, RefusedAt, Registered, UniqueKeys, Taken;
      ghost var before := ledger.events;
      assert before + [] == before && before + Ups(kind, 0) == before;
      if builtins.None? {
        return false;
      }
      NothingTaken();
      var entries, seen;
      entries, seen, ok := Register([], {}, builtins.value);
      if !ok {
        return false;
      }
      ghost var base := entries;
      NothingYet(base, outcomes);
      for i := 0 to |outcomes|
        invariant Reach(base, outcomes[..i]) == Progress(i, true, entries) && started == Range(i)
        invariant ledger.events == before + Ups(kind, i) && SeenAre(seen, entries) && active == []
      {
        StartStep(base, outcomes, i, entries);
        if outcomes[i].Refused? {
          return false;
        }
        if outcomes[i].StartFails? {
          Close();
          Joined(before, kind, i);
          return false;
        }
        ledger.events := ledger.events + [Opened(kind, i)];
        started := started + [i];
        assert before + Ups(kind, i) + [Opened(kind, i)] == before + Ups(kind, i + 1) && started == Range(i + 1);
        if outcomes[i].ListFails? {
          Close();
          Joined(before, kind, i + 1);
          return false;
        }
        entries, seen, ok := Register(entries, seen, outcomes[i].descriptors);
        if !ok {
          Close();
          Joined(before, kind, i + 1);
          return false;
        }
      }
      assert outcomes[..|outcomes|] == outcomes;
      active := entries;
      ok := true;
    }
  }

  /** What is registered before the first provider. */
  function Base(builtins: Option<seq<Descriptor>>): Option<seq<Item>> {
    if builtins.None? then None else Registered([], builtins.value)
  }

  /** A hub start that goes through. */
  predicate Goes(builtins: Option<seq<Descriptor>>, outcomes: seq<Outcome>) {
    Base(builtins).Some? && Reach(Base(builtins).value, outcomes).ok
  }

  /** The providers a hub start leaves open: all when it goes through, and those before a refused one. */
  function LeftOpen(builtins: Option<seq<Descriptor>>, outcomes: seq<Outcome>): seq<nat> {
    if Base(builtins).None? then []
    else
      var base := Base(builtins).value;
      if Reach(base, outcomes).ok || RefusedAt(base, outcomes) then Range(Reach(base, outcomes).started) else []
  }

  /** How many providers of a hub one start attempt starts. */
  function Started(builtins: Option<seq<Descriptor>>, outcomes: seq<Outcome>): nat {
    if Base(builtins).None? then 0 else Reach(Base(builtins).value, outcomes).started
  }

  lemma {:induction false} NothingTaken()
    ensures SeenAre({}, [])
  {
  }

  lemma {:induction false} NothingYet(base: seq<Item>, outcomes: seq<Outcome>)
    ensures Reach(base, outcomes[..0]) == Progress(0, true, base)
  {
  }

  function Range(n: nat): seq<nat> {
    seq(n, i => i)
  }

  /** Closes of these providers, last first. */
  function ClosesOf(kind: Kind, started: seq<nat>): seq<Event> {
    seq(|started|, i requires 0 <= i < |started| => Shut(kind, started[|started| - 1 - i]))
  }

  lemma {:induction false} ClosesStep(kind: Kind, started: seq<nat>, i: nat)
    requires i < |started|
    ensures ClosesOf(kind, started[i..]) == ClosesOf(kind, started[i + 1..]) + [Shut(kind, started[i])]
  {
  }

  lemma {:induction false} ClosesOfRange(kind: Kind, n: nat)
    ensures ClosesOf(kind, Range(n)) == Downs(kind, n)
  {
  }

  lemma {:induction false} Joined(before: seq<Event>, kind: Kind, n: nat)
    ensures before + Ups(kind, n) + ClosesOf(kind, Range(n)) == before + (Ups(kind, n) + Downs(kind, n))
  {
    ClosesOfRange(kind, n);
  }

  lemma {:induction false} FailureIsFinal(base: seq<Item>, outcomes: seq<Outcome>, n: nat)
    requires n <= |outcomes| && !Reach(base, outcomes[..n]).ok
    ensures Reach(base, outcomes) == Reach(base, outcomes[..n])
    ensures RefusedAt(base, outcomes) <==> RefusedAt(base, outcomes[..n])
    decreases |outcomes|
  {
    if n == |outcomes| {
      assert outcomes[..n] == outcomes;
    } else {
      assert outcomes[..|outcomes| - 1][..n] == outcomes[..n];
      FailureIsFinal(base, outcomes[..|outcomes| - 1], n);
    }
  }

  /** Whether the start goes on after provider `i`, and if it does not, what the whole start amounts to. */
  lemma {:induction false} StartStep(base: seq<Item>, outcomes: seq<Outcome>, i: nat, active: seq<Item>)
    requires i < |outcomes| && Reach(base, outcomes[..i]) == Progress(i, true, active)
    ensures
      var o, whole := outcomes[i], Reach(base, outcomes);
      if NeverStarts(o) then !whole.ok && whole.started == i && (RefusedAt(base, outcomes) <==> o.Refused?)
      else if o.Lists? && Registered(active, o.descriptors).Some? then
        Reach(base, outcomes[..i + 1]) == Progress(i + 1, true, Registered(active, o.descriptors).value)
      else !whole.ok && whole.started == i + 1 && !RefusedAt(base, outcomes)
  {
    hide Registered;
    assert outcomes[..i + 1][..i] == outcomes[..i];
    if !Reach(base, outcomes[..i + 1]).ok {
      FailureIsFinal(base, outcomes, i + 1);
    }
  }

  // ----- The session's providers -----

  /** What one session start meets: the runtime, the built-in tools, the providers, the agent, and the start hooks. */
  datatype StartEnv = StartEnv(runtimeOk: bool, builtins: Option<seq<Descriptor>>, tools: seq<Outcome>,
                               hooks: seq<Outcome>, agentOk: bool, startHooksOk: bool)

  const NO_BUILTINS: Option<seq<Descriptor>> := Some([])

  predicate Starts(e: StartEnv) {
    e.runtimeOk && Goes(e.builtins, e.tools) && Goes(NO_BUILTINS, e.hooks) && e.agentOk && e.startHooksOk
  }

  /** How many providers of a hub a start attempt starts. */
  function Reached(e: StartEnv, kind: Kind): nat {
    match kind
    case ToolProviders => if e.runtimeOk then Started(e.builtins, e.tools) else 0
    case HookProviders => if e.runtimeOk && Goes(e.builtins, e.tools) then Started(NO_BUILTINS, e.hooks) else 0
  }

  /** The provider calls of a start attempt: what was started, and all of it closed again if the attempt fails. */
  function StartCalls(e: StartEnv): seq<Event> {
    var tools, hooks := Reached(e, ToolProviders), Reached(e, HookProviders);
    Ups(ToolProviders, tools) + Ups(HookProviders, hooks)
    + if Starts(e) then [] else Downs(HookProviders, hooks) + Downs(ToolProviders, tools)
  }

  function CloseCalls(tools: nat, hooks: nat): seq<Event> {
    Downs(HookProviders, hooks) + Downs(ToolProviders, tools)
  }

  lemma {:induction false} ReachAll(base: seq<Item>, outcomes: seq<Outcome>)
    ensures Reach(base, outcomes).ok ==> Reach(base, outcomes).started == |outcomes| && !RefusedAt(base, outcomes)
    ensures Reach(base, outcomes).started <= |outcomes|
  {
    hide Registered;
    if outcomes != [] {
      ReachAll(base, outcomes[..|outcomes| - 1]);
    }
  }

  lemma {:induction false} AllStarted(builtins: Option<seq<Descriptor>>, outcomes: seq<Outcome>)
    ensures Goes(builtins, outcomes) ==>
              && Started(builtins, outcomes) == |outcomes| && LeftOpen(builtins, outcomes) == Range(|outcomes|)
              && forall kind :: StartEvents(kind, Base(builtins), outcomes) == Ups(kind, |outcomes|)
  {
    hide Reach, RefusedAt, Registered;
    if Base(builtins).Some? {
      ReachAll(Base(builtins).value, outcomes);
    }
  }

  /**
   * A hub start with the close the session adds after a failure: everything that started is closed once, in reverse.
   */
  lemma {:induction false} HubStartAndCleanup(kind: Kind, builtins: Option<seq<Descriptor>>, outcomes: seq<Outcome>)
    requires !Goes(builtins, outcomes)
    ensures
      var n := Started(builtins, outcomes);
      StartEvents(kind, Base(builtins), outcomes) + ClosesOf(kind, LeftOpen(builtins, outcomes)) ==
      Ups(kind, n) + Downs(kind, n)
  {
    hide Reach, RefusedAt, Registered;
    ClosesOfRange(kind, Started(builtins, outcomes));
  }

  class SessionProviders {
    var toolHub: Hub?
    var hookHub: Hub?
    const ledger: Ledger

    constructor ()
      ensures toolHub == null && hookHub == null && fresh(ledger) && ledger.events == []
    {
      toolHub, hookHub := null, null;
      ledger := new Ledger();
    }

    /** Starts both hubs; every later failure closes what was started, the hooks before the tools. */
    method Start(e: StartEnv) returns (ok: bool)
      requires toolHub == null && hookHub == null
      modifies this, ledger
      ensures ok == Starts(e) && ledger.events == old(ledger.events) + StartCalls(e)
      ensures !ok ==> toolHub == null && hookHub == null
      ensures ok ==> Holds(|e.tools|, |e.hooks|) && fresh(toolHub) && fresh(hookHub)
      ensures ok ==> toolHub.active == Reach(Base(e.builtins).value, e.tools).active
    {
      hide Reach, Base, Goes, LeftOpen, Started, StartEvents, Ups, Downs;
      ghost var before := ledger.events;
      AllStarted(e.builtins, e.tools);
      AllStarted(NO_BUILTINS, e.hooks);
      GoesFromBase(e.builtins, e.tools);
      if !e.runtimeOk {
        NothingStarted(e);
        assert before + [] == before;
        return false;
      }
      var tools := new Hub(ToolProviders, ledger);
      ok := tools.Start(e.builtins, e.tools);
      if !ok {
        HubStartAndCleanup(ToolProviders, e.builtins, e.tools);
        tools.Close();
        ToolsFailed(before, e);
        return;
      }
      var hooks := new Hub(HookProviders, ledger);
      ok := hooks.Start(NO_BUILTINS, e.hooks);
      if !ok {
        HubStartAndCleanup(HookProviders, NO_BUILTINS, e.hooks);
        hooks.Close();
        tools.Close();
        HooksFailed(before, e);
        return;
      }
      if !e.agentOk || !e.startHooksOk {
        hooks.Close();
        tools.Close();
        SessionFailed(before, e);
        return false;
      }
      SessionStarted(before, e);
      toolHub, hookHub := tools, hooks;
    }

    ghost predicate Holds(tools: nat, hooks: nat)
      reads this, toolHub, hookHub
    {
      && toolHub != null && toolHub.kind == ToolProviders && toolHub.started == Range(tools) && toolHub.ledger == ledger
      && hookHub != null && hookHub.kind == HookProviders && hookHub.started == Range(hooks) && hookHub.ledger == ledger
      && toolHub != hookHub
    }

    /** Closes the hooks, then the tools. */
    method Close(ghost tools: nat, ghost hooks: nat)
      requires Holds(tools, hooks)
      modifies this, toolHub, hookHub, ledger
      ensures toolHub == null && hookHub == null
      ensures ledger.events == old(ledger.events) + CloseCalls(tools, hooks)
    {
      hide Downs, ClosesOf;
      ghost var before := ledger.events;
      ClosesOfRange(HookProviders, hooks);
      ClosesOfRange(ToolProviders, tools);
      hookHub.Close();
      toolHub.Close();
      assert before + Downs(HookProviders, hooks) + Downs(ToolProviders, tools) == before + CloseCalls(tools, hooks);
      toolHub, hookHub := null, null;
    }
  }

  // ----- The pieces of a start attempt -----

  lemma {:induction false} NothingStarted(e: StartEnv)
    requires !e.runtimeOk
    ensures StartCalls(e) == []
  {
  }

  lemma {:induction false} GoesFromBase(builtins: Option<seq<Descriptor>>, outcomes: seq<Outcome>)
    ensures Goes(builtins, outcomes) ==> Base(builtins).Some?
  {
  }

  lemma {:induction false} ToolsFailed(before: seq<Event>, e: StartEnv)
    requires e.runtimeOk && !Goes(e.builtins, e.tools)
    requires
      var n := Started(e.builtins, e.tools);
      StartEvents(ToolProviders, Base(e.builtins), e.tools) + ClosesOf(ToolProviders, LeftOpen(e.builtins, e.tools))
      == Ups(ToolProviders, n) + Downs(ToolProviders, n)
    ensures before + StartEvents(ToolProviders, Base(e.builtins), e.tools)
            + ClosesOf(ToolProviders, LeftOpen(e.builtins, e.tools))
            == before + StartCalls(e)
  {
    hide Started, Base, LeftOpen, Goes, StartEvents, ClosesOf;
    var n := Started(e.builtins, e.tools);
    var events, closes := StartEvents(ToolProviders, Base(e.builtins), e.tools),
                          ClosesOf(ToolProviders, LeftOpen(e.builtins, e.tools));
    assert StartCalls(e) == Ups(ToolProviders, n) + Downs(ToolProviders, n);
    assert before + events + closes == before + (events + closes);
  }

  lemma {:induction false} HooksFailed(before: seq<Event>, e: StartEnv)
    requires e.runtimeOk && Goes(e.builtins, e.tools) && Started(e.builtins, e.tools) == |e.tools|
             && !Goes(NO_BUILTINS, e.hooks)
    requires
      var n := Started(NO_BUILTINS, e.hooks);
      StartEvents(HookProviders, Base(NO_BUILTINS), e.hooks) + ClosesOf(HookProviders, LeftOpen(NO_BUILTINS, e.hooks))
      == Ups(HookProviders, n) + Downs(HookProviders, n)
    ensures
      before + Ups(ToolProviders, |e.tools|) + StartEvents(HookProviders, Base(NO_BUILTINS), e.hooks)
      + ClosesOf(HookProviders, LeftOpen(NO_BUILTINS, e.hooks)) + ClosesOf(ToolProviders, Range(|e.tools|)) ==
      before + StartCalls(e)
  {
    hide Started, Base, LeftOpen, Goes, StartEvents, ClosesOf, Ups, Downs, Range;
    var tools, n := |e.tools|, Started(NO_BUILTINS, e.hooks);
    var events := StartEvents(HookProviders, Base(NO_BUILTINS), e.hooks);
    var closes := ClosesOf(HookProviders, LeftOpen(NO_BUILTINS, e.hooks));
    ClosesOfRange(ToolProviders, tools);
    Regroup(before, Ups(ToolProviders, tools), events, closes, Downs(ToolProviders, tools));
    Regroup(before, Ups(ToolProviders, tools), Ups(HookProviders, n), Downs(HookProviders, n),
            Downs(ToolProviders, tools));
  }

  lemma {:induction false} Regroup<T>(before: seq<T>, a: seq<T>, b: seq<T>, c: seq<T>, d: seq<T>)
    ensures before + a + b + c + d == before + (a + (b + c) + d)
    ensures before + a + b + c + d == before + (a + b + (c + d))
  {
  }

  lemma {:induction false} SessionFailed(before: seq<Event>, e: StartEnv)
    requires !Starts(e) && e.runtimeOk && Goes(e.builtins, e.tools) && Goes(NO_BUILTINS, e.hooks)
    requires Started(e.builtins, e.tools) == |e.tools| && Started(NO_BUILTINS, e.hooks) == |e.hooks|
    ensures
      before + Ups(ToolProviders, |e.tools|) + Ups(HookProviders, |e.hooks|) + ClosesOf(HookProviders, Range(|e.hooks|))
      + ClosesOf(ToolProviders, Range(|e.tools|)) == before + StartCalls(e)
  {
    hide Started, Goes, ClosesOf, Ups, Downs, Range;
    var tools, hooks := |e.tools|, |e.hooks|;
    ClosesOfRange(HookProviders, hooks);
    ClosesOfRange(ToolProviders, tools);
    Regroup(before, Ups(ToolProviders, tools), Ups(HookProviders, hooks), Downs(HookProviders, hooks),
            Downs(ToolProviders, tools));
  }

  lemma {:induction false} SessionStarted(before: seq<Event>, e: StartEnv)
    requires Starts(e) && Started(e.builtins, e.tools) == |e.tools| && Started(NO_BUILTINS, e.hooks) == |e.hooks|
    ensures before + Ups(ToolProviders, |e.tools|) + Ups(HookProviders, |e.hooks|) == before + StartCalls(e)
  {
    hide Started, Goes, Ups, Downs;
    var a, b := Ups(ToolProviders, |e.tools|), Ups(HookProviders, |e.hooks|);
    assert StartCalls(e) == a + b + [];
    assert before + a + b == before + (a + b + []);
  }

  // ----- The balance over whole lives -----

  /** Starts minus closes of one provider. */
  function Balance(events: seq<Event>, kind: Kind, i: nat): int {
    if events == [] then 0
    else
      var last := events[|events| - 1];
      Balance(events[..|events| - 1], kind, i)
      + if last == Opened(kind, i) then 1 else if last == Shut(kind, i) then -1 else 0
  }

  lemma {:induction false} BalanceAdds(a: seq<Event>, b: seq<Event>, kind: Kind, i: nat)
    ensures Balance(a + b, kind, i) == Balance(a, kind, i) + Balance(b, kind, i)
  {
    if b == [] {
      assert a + b == a;
    } else {
      BalanceAdds(a, b[..|b| - 1], kind, i);
      assert (a + b)[..|a + b| - 1] == a + b[..|b| - 1];
    }
  }

  lemma {:induction false} BalanceOfUps(k: Kind, n: nat, kind: Kind, i: nat)
    ensures Balance(Ups(k, n), kind, i) == if k == kind && i < n then 1 else 0
  {
    if n > 0 {
      BalanceOfUps(k, n - 1, kind, i);
      assert Ups(k, n)[..n - 1] == Ups(k, n - 1);
    }
  }

  lemma {:induction false} BalanceOfDowns(k: Kind, n: nat, kind: Kind, i: nat)
    ensures Balance(Downs(k, n), kind, i) == if k == kind && i < n then -1 else 0
  {
    if n > 0 {
      BalanceOfDowns(k, n - 1, kind, i);
      BalanceAdds([Shut(k, n - 1)], Downs(k, n - 1), kind, i);
      assert Downs(k, n) == [Shut(k, n - 1)] + Downs(k, n - 1);
      assert [Shut(k, n - 1)][..0] == [];
    }
  }

  datatype Rest = AtNew | AtStarted(tools: nat, hooks: nat) | AtClosed

  datatype Op = StartOp(env: StartEnv) | CloseOp

  /** Starts and closes never overlap, so a session's life is a sequence of them. */
  function AfterOp(rest: Rest, op: Op): Rest {
    match (rest, op)
    case (AtNew, StartOp(e)) => if Starts(e) then AtStarted(|e.tools|, |e.hooks|) else AtNew
    case (AtNew, CloseOp) => AtClosed
    case (AtStarted(_, _), CloseOp) => AtClosed
    case _ => rest
  }

  function CallsOf(rest: Rest, op: Op): seq<Event> {
    match (rest, op)
    case (AtNew, StartOp(e)) => StartCalls(e)
    case (AtStarted(tools, hooks), CloseOp) => CloseCalls(tools, hooks)
    case _ => []
  }

  function RestAfter(ops: seq<Op>): Rest {
    if ops == [] then AtNew else AfterOp(RestAfter(ops[..|ops| - 1]), ops[|ops| - 1])
  }

  function CallsAfter(ops: seq<Op>): seq<Event> {
    if ops == [] then []
    else CallsAfter(ops[..|ops| - 1]) + CallsOf(RestAfter(ops[..|ops| - 1]), ops[|ops| - 1])
  }

  function Owed(rest: Rest, kind: Kind, i: nat): int {
    match rest
    case AtStarted(tools, hooks) => if i < (if kind == ToolProviders then tools else hooks) then 1 else 0
    case _ => 0
  }

  lemma {:induction false} BalanceOfStart(e: StartEnv, kind: Kind, i: nat)
    ensures Balance(StartCalls(e), kind, i) == Owed(AfterOp(AtNew, StartOp(e)), kind, i)
  {
    hide Balance, Ups, Downs, Started, Goes, Base, LeftOpen, StartEvents;
    var tools, hooks := Reached(e, ToolProviders), Reached(e, HookProviders);
    AllStarted(e.builtins, e.tools);
    AllStarted(NO_BUILTINS, e.hooks);
    BalanceOfUps(ToolProviders, tools, kind, i);
    BalanceOfUps(HookProviders, hooks, kind, i);
    BalanceAdds(Ups(ToolProviders, tools), Ups(HookProviders, hooks), kind, i);
    BalanceOfClose(tools, hooks, kind, i);
    var up := Ups(ToolProviders, tools) + Ups(HookProviders, hooks);
    BalanceAdds(up, CloseCalls(tools, hooks), kind, i);
    assert Starts(e) ==> StartCalls(e) == up;
  }

  lemma {:induction false} BalanceOfClose(tools: nat, hooks: nat, kind: Kind, i: nat)
    ensures Balance(CloseCalls(tools, hooks), kind, i) == -Owed(AtStarted(tools, hooks), kind, i)
  {
    hide Balance, Ups, Downs;
    BalanceOfDowns(HookProviders, hooks, kind, i);
    BalanceOfDowns(ToolProviders, tools, kind, i);
    BalanceAdds(Downs(HookProviders, hooks), Downs(ToolProviders, tools), kind, i);
  }

  /**
   * Over any sequence of failing, retried and successful starts and closes: at rest in new or closed every provider
   * has as many closes as successful starts, and in started exactly one fewer.
   */
  lemma {:induction false} StartsAndClosesBalance(ops: seq<Op>, kind: Kind, i: nat)
    ensures Balance(CallsAfter(ops), kind, i) == Owed(RestAfter(ops), kind, i)
  {
    hide StartCalls, CloseCalls, Starts;
    if ops != [] {
      var before, op := ops[..|ops| - 1], ops[|ops| - 1];
      StartsAndClosesBalance(before, kind, i);
      BalanceAdds(CallsAfter(before), CallsOf(RestAfter(before), op), kind, i);
      match (RestAfter(before), op)
      case (AtNew, StartOp(e)) => BalanceOfStart(e, kind, i);
      case (AtStarted(tools, hooks), CloseOp) => BalanceOfClose(tools, hooks, kind, i);
      case _ =>
    }
  }

  // ----- The order of the closes -----

  /** The calls to the providers of one hub. */
  function Of(kind: Kind, events: seq<Event>): seq<Event> {
    if events == [] then []
    else Of(kind, events[..|events| - 1]) + if events[|events| - 1].kind == kind then [events[|events| - 1]] else []
  }

  lemma {:induction false} OfAppend(kind: Kind, a: seq<Event>, b: seq<Event>)
    ensures Of(kind, a + b) == Of(kind, a) + Of(kind, b)
  {
    if b == [] {
      assert a + b == a;
    } else {
      OfAppend(kind, a, b[..|b| - 1]);
      assert (a + b)[..|a + b| - 1] == a + b[..|b| - 1];
    }
  }

  lemma {:induction false} OfOneKind(kind: Kind, events: seq<Event>, k: Kind)
    requires forall j :: 0 <= j < |events| ==> events[j].kind == k
    ensures Of(kind, events) == if kind == k then events else []
  {
    if events != [] {
      OfOneKind(kind, events[..|events| - 1], k);
    }
  }

  /**
   * In a failed start each hub sees its providers start in order and close once each in reverse order, whoever cleaned
   * up.
   */
  lemma {:induction false} FailedStartClosesInReverse(e: StartEnv, kind: Kind)
    requires !Starts(e)
    ensures Of(kind, StartCalls(e)) == Ups(kind, Reached(e, kind)) + Downs(kind, Reached(e, kind))
  {
    hide Of, Started, Goes;
    var tools, hooks := Reached(e, ToolProviders), Reached(e, HookProviders);
    OfOneKind(kind, Ups(ToolProviders, tools), ToolProviders);
    OfOneKind(kind, Ups(HookProviders, hooks), HookProviders);
    OfOneKind(kind, Downs(ToolProviders, tools), ToolProviders);
    OfOneKind(kind, Downs(HookProviders, hooks), HookProviders);
    OfAppend(kind, Ups(ToolProviders, tools), Ups(HookProviders, hooks));
    OfAppend(kind, Downs(HookProviders, hooks), Downs(ToolProviders, tools));
    OfAppend(kind, Ups(ToolProviders, tools) + Ups(HookProviders, hooks),
             Downs(HookProviders, hooks) + Downs(ToolProviders, tools));
  }

  // ----- The tools of a started session -----

  function EntriesOf(active: seq<Item>): seq<T.Entry> {
    if active == [] then []
    else
      var last := active[|active| - 1];
      EntriesOf(active[..|active| - 1]) + if last.Tool? then [last.entry] else []
  }

  lemma {:induction false} EntriesAreItems(active: seq<Item>)
    ensures forall e :: e in EntriesOf(active) ==> exists i :: 0 <= i < |active| && active[i] == Tool(e)
  {
    if active != [] {
      var init := active[..|active| - 1];
      EntriesAreItems(init);
      forall e | e in EntriesOf(active) ensures exists i :: 0 <= i < |active| && active[i] == Tool(e) {
        if e in EntriesOf(init) {
          var i :| 0 <= i < |init| && init[i] == Tool(e);
          assert active[i] == Tool(e);
        } else {
          assert active[|active| - 1] == Tool(e);
        }
      }
    }
  }

  lemma {:induction false} EntriesAreUnique(active: seq<Item>)
    requires UniqueKeys(active)
    ensures T.UniqueNames(EntriesOf(active))
  {
    if active != [] {
      var init, last := active[..|active| - 1], active[|active| - 1];
      EntriesAreUnique(init);
      EntriesAreItems(init);
      var entries := EntriesOf(init);
      forall k | 0 <= k < |entries| && last.Tool? ensures entries[k].name != last.entry.name {
        var i :| 0 <= i < |init| && init[i] == Tool(entries[k]);
        assert Key(active[i]) != Key(active[|active| - 1]);
      }
    }
  }

  /**
   * In a started session, whatever its providers list, the tools exposed are exactly those whose calls are let
   * through.
   */
  lemma {:induction false} InSessionExposedIsCallable(e: StartEnv, mode: T.Mode, letters: T.Letters)
    requires Starts(e)
    ensures
      var available := EntriesOf(Reach(Base(e.builtins).value, e.tools).active);
      forall name :: T.Exposed(mode, name, available, letters) <==> T.CallAllowed(mode, name, available, letters)
  {
    hide T.Exposed, T.CallAllowed, Reach, Registered, UniqueKeys;
    var base := Base(e.builtins).value;
    NothingTaken();
    NoKeys();
    RegisteredIsUnique([], e.builtins.value);
    ReachIsUnique(base, e.tools);
    EntriesAreUnique(Reach(base, e.tools).active);
    T.DistinctNamesSuffice(mode, EntriesOf(Reach(base, e.tools).active), letters);
  }

  lemma {:induction false} NoKeys()
    ensures UniqueKeys([])
  {
  }
}
