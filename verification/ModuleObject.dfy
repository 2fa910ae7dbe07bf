/** The module's own code: the commands, the chat interface, the life of a script and the shutdown
    of mod_quickjs.c with the locking functions of utils.c, run under interference and proved to
    follow the Registry system. Every wait ends: whoever waits for the map mutex or for a counter
    waits for somebody who can go on, and the others have only so many steps left. */
module ModuleObject {
  import opened Sums
  import opened Registry
  import opened RegistryProgress
  import opened MapSweep

  datatype Actor = ClientThread(c: Cid) | ScriptThread(i: Sid) | Elsewhere

  function ActorOf(a: Action): Actor {
    match a
    case ClientStep(c, _) => ClientThread(c)
    case ScriptStep(i, _) => ScriptThread(i)
    case _ => Elsewhere
  }

  /** A stretch of a run in which `me` takes no step. */
  ghost predicate Path(states: seq<State>, actions: seq<Action>, me: Actor) {
    && |states| == |actions| + 1
    && forall k :: 0 <= k < |actions| ==>
         && Enabled(states[k], actions[k])
         && states[k + 1] == Apply(states[k], actions[k])
         && ActorOf(actions[k]) != me
  }

  /** How many playback threads and workers were launched. */
  function LaunchesIn(actions: seq<Action>): nat {
    if actions == [] then 0
    else LaunchesIn(actions[..|actions| - 1]) + if actions[|actions| - 1].OtherLaunched? then 1 else 0
  }

  /** The others ran from s to s' through the states `passed`, launching `launches` threads. */
  ghost predicate OthersRan(s: State, s': State, me: Actor, passed: seq<State>, launches: int) {
    exists states, actions ::
      && Path(states, actions, me) && states[0] == s && states[|actions|] == s'
      && passed == states[1..] && launches == LaunchesIn(actions)
  }

  lemma OneStepPath(s: State, a: Action, me: Actor)
    requires Enabled(s, a) && ActorOf(a) != me && !a.OtherLaunched?
    ensures OthersRan(s, Apply(s, a), me, [Apply(s, a)], 0)
  {
    var states, actions := [s, Apply(s, a)], [a];
    assert Path(states, actions, me) && states[1..] == [Apply(s, a)];
    assert actions[..0] == [] && LaunchesIn(actions) == 0;
  }

  /** What is left to happen, if at most `budget` more threads are launched. */
  function Remaining(s: State, budget: nat): nat { RegistryPotential(s) + s.g.others + 2 * budget }

  ghost predicate UsedUp(s: State, budget: nat, s': State, budget': nat, steps: nat) {
    Remaining(s', budget') + steps <= Remaining(s, budget)
  }

  function BudgetAfter(a: Action, budget: nat): nat
    requires a.OtherLaunched? ==> budget > 0
  {
    if a.OtherLaunched? then budget - 1 else budget
  }

  lemma StepUsesUp(s: State, a: Action, budget: nat)
    requires Inv(s) && Enabled(s, a) && (a.OtherLaunched? ==> budget > 0)
    ensures UsedUp(s, budget, Apply(s, a), BudgetAfter(a, budget), 1)
  {
    if !a.OtherLaunched? && !a.OtherFinished? {
      RegistryLowers(s, a);
      OthersKept(s, a);
    }
  }

  lemma UsesUpMore(s: State, budget: nat, s': State, budget': nat, steps: nat, a: Action)
    requires UsedUp(s, budget, s', budget', steps) && Inv(s') && Enabled(s', a) && (a.OtherLaunched? ==> budget' > 0)
    ensures UsedUp(s, budget, Apply(s', a), BudgetAfter(a, budget'), steps + 1)
  {
    StepUsesUp(s', a, budget');
  }

  /** The others cannot go on for ever. */
  lemma {:induction false} OthersUseUp(states: seq<State>, actions: seq<Action>, me: Actor, budget: nat)
    requires Path(states, actions, me) && Inv(states[0]) && LaunchesIn(actions) <= budget
    ensures Inv(states[|actions|])
    ensures UsedUp(states[0], budget, states[|actions|], budget - LaunchesIn(actions), |actions|)
    decreases |actions|
  {
    if actions != [] {
      var n := |actions| - 1;
      var before, s, a := actions[..n], states[n], actions[n];
      OthersUseUp(states[..n + 1], before, me, budget);
      assert Enabled(s, a) && states[n + 1] == Apply(s, a);
      StepKeepsInv(s, a);
      UsesUpMore(states[0], budget, s, budget - LaunchesIn(before), n, a);
    }
  }

  predicate SamePlace(sc: Script, sc': Script) {
    sc'.pc == sc.pc && Unchanged(sc, sc')
  }

  /** Still the same script, with as much left to run. */
  predicate Unchanged(sc: Script, sc': Script) { sc'.background == sc.background && sc'.fuel == sc.fuel }

  /** What the steps of the others leave alone: the position of the thread itself, requested
      interrupts and, while the thread holds the map mutex, the map. */
  ghost predicate Undisturbed(s: State, s': State, me: Actor) {
    && |s'.clients| == |s.clients| && |s'.scripts| == |s.scripts|
    && (forall i :: 0 <= i < |s.scripts| ==> KeepsInterrupt(s.scripts[i], s'.scripts[i]))
    && (s.g.shutdown ==> s'.g.shutdown)
    && (match me
        case ClientThread(c) =>
          c < |s.clients| ==>
            && s'.clients[c] == s.clients[c]
            && (s.g.lock == Some(c) ==>
                  s'.g.lock == s.g.lock && forall i :: 0 <= i < |s.scripts| ==>
                      s'.scripts[i].mem.mapped == s.scripts[i].mem.mapped)
        case ScriptThread(i) =>
          i < |s.scripts| && Launched(s.scripts[i].pc) ==>
            SamePlace(s.scripts[i], s'.scripts[i])
        case Elsewhere => true)
  }

  lemma ClientStepGlobals(s: State, c: Cid, fails: bool)
    requires Enabled(s, ClientStep(c, fails))
    ensures s.g.shutdown ==> StepClient(s, c, fails).g.shutdown
  {
  }

  /** What a client's step leaves of the script it works on. */
  lemma ClientLeavesScript(cl: Client, sc: Script, fails: bool)
    requires PairOk(cl, sc)
    ensures
      var sc' := ScriptAfter(cl, sc, fails);
      && KeepsInterrupt(sc, sc')
      && (sc.mem.mapped != sc'.mem.mapped ==> cl.pc.Launching?)
      && (Launched(sc.pc) ==> SamePlace(sc, sc'))
  {
    ScriptAfterKeeps(cl, sc, fails);
    ScriptAfterLife(cl, sc, fails);
    ScriptAfterBackground(cl, sc, fails);
  }

  lemma TargetIsPaired(s: State, c: Cid)
    requires Inv(s) && c < |s.clients| && Target(s.clients[c], |s.scripts|).Some?
    ensures PairOk(s.clients[c], s.scripts[Target(s.clients[c], |s.scripts|).value])
  {
    if Bound(s.clients[c], |s.scripts|).Some? { assert Addressed(s.clients[c], |s.scripts|); }
  }

  lemma ClientStepLeaves(s: State, c: Cid, fails: bool, me: Actor)
    requires Inv(s) && Enabled(s, ClientStep(c, fails)) && me != ClientThread(c)
    ensures Undisturbed(s, StepClient(s, c, fails), me)
  {
    var cl := s.clients[c];
    assert Addressed(cl, |s.scripts|) && (InSection(cl.pc) <==> s.g.lock == Some(c));
    ClientStepGlobals(s, c, fails);
    ClientEffectLock(s, c, fails);
    match Target(cl, |s.scripts|)
    case Some(i) =>
      TargetIsPaired(s, c);
      ClientLeavesScript(cl, s.scripts[i], fails);
    case None =>
  }

  lemma ScriptStepLeaves(s: State, i: Sid, ends: bool, me: Actor)
    requires Inv(s) && Enabled(s, ScriptStep(i, ends)) && me != ScriptThread(i)
    ensures Undisturbed(s, StepScript(s, i, ends), me)
  {
    OwnStepInterrupt(s.scripts[i], s.g.shutdown, ends);
    SumAt(s.scripts, i, Active);
    assert LifeOk(s.scripts[i]);
    OwnStepGlobals(s.scripts[i], s.g, ends);
  }

  lemma OtherStepLeavesMine(s: State, a: Action, me: Actor)
    requires Inv(s) && Enabled(s, a) && ActorOf(a) != me
    ensures Inv(Apply(s, a)) && Undisturbed(s, Apply(s, a), me)
  {
    StepKeepsInv(s, a);
    match a
    case ClientStep(c, fails) => ClientStepLeaves(s, c, fails, me);
    case ScriptStep(i, ends) => ScriptStepLeaves(s, i, ends, me);
    case _ =>
  }

  lemma UndisturbedTwice(s: State, s': State, s'': State, me: Actor)
    requires Undisturbed(s, s', me) && Undisturbed(s', s'', me)
    ensures Undisturbed(s, s'', me)
  {
    forall i | 0 <= i < |s.scripts| ensures KeepsInterrupt(s.scripts[i], s''.scripts[i]) {
      assert KeepsInterrupt(s.scripts[i], s'.scripts[i]) && KeepsInterrupt(s'.scripts[i], s''.scripts[i]);
    }
  }

  lemma {:induction false} OthersLeaveMine(states: seq<State>, actions: seq<Action>, me: Actor)
    requires Path(states, actions, me) && Inv(states[0])
    ensures Inv(states[|actions|]) && Undisturbed(states[0], states[|actions|], me)
    decreases |actions|
  {
    if actions != [] {
      var n := |actions| - 1;
      OthersLeaveMine(states[..n + 1], actions[..n], me);
      OtherStepLeavesMine(states[n], actions[n], me);
      UndisturbedTwice(states[0], states[n], states[n + 1], me);
    }
  }

  lemma FinishedIsNotOwner(s: State, c: Cid)
    requires Inv(s) && c < |s.clients| && !InSection(s.clients[c].pc)
    ensures s.g.lock != Some(c)
  {
  }

  lemma SomeHolder(s: State, i: Sid) returns (c: Cid)
    requires Inv(s) && i < |s.scripts| && s.scripts[i].sem != 0
    ensures c < |s.clients| && Held(s.clients[c], i) != 0
  {
    SumZero(s.clients, HeldBy(i));
    c :| 0 <= c < |s.clients| && HeldBy(i)(s.clients[c]) != 0;
  }

  lemma HoldingMoves(s: State, c: Cid, i: Sid)
    requires c < |s.clients| && Held(s.clients[c], i) != 0
    ensures Enabled(s, ClientStep(c, false)) && !s.clients[c].pc.Waiting?
  {
  }

  lemma SomeActive(s: State) returns (i: Sid)
    requires Inv(s) && s.g.active != 0 && s.g.others == 0
    ensures i < |s.scripts| && Active(s.scripts[i]) != 0
  {
    SumZero(s.scripts, Active);
    i :| 0 <= i < |s.scripts| && Active(s.scripts[i]) != 0;
  }

  ghost predicate OwnsMap(s: State, me: Actor) { me.ClientThread? && (me.c >= |s.clients| || s.g.lock == Some(me.c)) }

  lemma HolderMoves(s: State)
    requires Inv(s) && s.g.lock.Some?
    ensures Enabled(s, ClientStep(s.g.lock.value, false))
  {
    assert InSection(s.clients[s.g.lock.value].pc);
  }

  /** Only the client itself takes the map mutex for itself. */
  lemma StillNotOwner(s: State, s': State, me: Actor)
    requires Inv(s) && Inv(s') && Undisturbed(s, s', me) && !OwnsMap(s, me)
    ensures !OwnsMap(s', me)
  {
    if me.ClientThread? {
      assert InSection(s.clients[me.c].pc) <==> s.g.lock == Some(me.c);
      assert InSection(s'.clients[me.c].pc) <==> s'.g.lock == Some(me.c);
    }
  }

  /** A script in the map has its pool. */
  lemma SlotIsLive(s: State, i: Sid)
    requires Inv(s) && i < |s.scripts|
    ensures s.scripts[i].mem.mapped ==> s.scripts[i].mem.poolLive
  {
    assert LifeOk(s.scripts[i]);
  }

  /** A client that owes a reference is counted in the script's semaphore. */
  lemma HolderCounted(s: State, c: Cid, i: Sid)
    requires Inv(s) && c < |s.clients| && i < |s.scripts| && Held(s.clients[c], i) == 1
    ensures s.scripts[i].sem > 0 && Target(s.clients[c], |s.scripts|) == Some(i)
  {
    SumAt(s.clients, c, HeldBy(i));
    assert HeldBy(i)(s.clients[c]) == 1;
  }

  // ---- the code --------------------------------------------------------------------------

  /** What the program stores of a script. */
  datatype Record = Record(sem: nat, flags: Flags, mapped: bool, poolLive: bool)

  function RecordOf(sc: Script): Record { Record(sc.sem, sc.flags, sc.mem.mapped, sc.mem.poolLive) }

  function Records(scripts: seq<Script>): (records: seq<Record>)
    ensures |records| == |scripts|
    ensures forall i :: 0 <= i < |scripts| ==> records[i] == RecordOf(scripts[i])
  {
    seq(|scripts|, i requires 0 <= i < |scripts| => RecordOf(scripts[i]))
  }

  /** A sweep's look at a slot, in terms of what is stored. */
  lemma LookAtSlot(cl: Client, sc: Script, g: Globals, n: nat)
    requires cl.pc.Sweeping? && cl.pc.at < n && (sc.mem.mapped ==> sc.mem.poolLive)
    ensures
      var (r, taken) := (RecordOf(sc), sc.mem.mapped && sc.flags.ready);
      && Target(cl, n) == Some(cl.pc.at) && GlobalsAfter(cl, g, false) == g
      && RecordOf(ScriptAfter(cl, sc, false)) == (if taken then r.(sem := r.sem + 1) else r)
      && PcAfter(cl, sc, false) == (if taken then Visiting(cl.pc.at) else Sweeping(cl.pc.at + 1))
  {
  }

  /** Slot i is in the map, its script alive and, in a shutdown, told to stop. */
  predicate Seen(records: seq<Record>, command: Command, i: Sid) {
    i < |records| && records[i].mapped && records[i].poolLive && (command.ShutdownModule? ==> records[i].flags.interrupt)
  }

  ghost predicate AllSeen(records: seq<Record>, command: Command, visited: seq<Sid>) {
    forall k :: 0 <= k < |visited| ==> Seen(records, command, visited[k])
  }

  lemma SemKeepsSeen(records: seq<Record>, i: Sid, sem: nat, command: Command, visited: seq<Sid>)
    requires i < |records| && AllSeen(records, command, visited)
    ensures AllSeen(records[i := records[i].(sem := sem)], command, visited)
  {
    forall k | 0 <= k < |visited|
      ensures Seen(records[i := records[i].(sem := sem)], command, visited[k])
    {
      assert Seen(records, command, visited[k]);
    }
  }

  // ---- what was seen on the way ----------------------------------------------------------

  ghost predicate Extends(past: seq<State>, now: seq<State>) {
    |past| <= |now| && forall k :: 0 <= k < |past| ==> now[k] == past[k]
  }

  /** Of the slots below `at`, all that were ready since state m have been visited. */
  ghost predicate Complete(trace: seq<State>, m: nat, at: nat, visited: seq<Sid>) {
    forall i: nat :: i < at && ReadyDuring(trace, m, |trace|, i) ==> i in visited
  }

  lemma CompleteLater(past: seq<State>, now: seq<State>, m: nat, at: nat, visited: seq<Sid>)
    requires Extends(past, now) && Complete(past, m, at, visited)
    ensures Complete(now, m, at, visited)
  {
    forall i: nat | i < at && ReadyDuring(now, m, |now|, i)
      ensures i in visited
    {
      forall k | m <= k <= |past| && k < |past| ensures ReadyIn(past[k], i) {
        assert ReadyIn(now[k], i);
      }
      assert ReadyDuring(past, m, |past|, i);
    }
  }

  lemma CompleteNext(trace: seq<State>, m: nat, at: nat, visited: seq<Sid>, taken: bool)
    requires Complete(trace, m, at, visited) && m < |trace| && taken == ReadyIn(trace[|trace| - 1], at)
    ensures Complete(trace, m, at + 1, if taken then visited + [at] else visited)
  {
    if ReadyDuring(trace, m, |trace|, at) {
      assert ReadyIn(trace[|trace| - 1], at);
    }
  }

  lemma CompleteSlot(before: seq<State>, now: seq<State>, m: nat, at: nat, visited: seq<Sid>, taken: bool)
    requires Extends(before, now) && Complete(before, m, at, visited)
    requires m < |before| && taken == ReadyIn(before[|before| - 1], at)
    ensures Complete(now, m, at + 1, if taken then visited + [at] else visited)
  {
    CompleteNext(before, m, at, visited, taken);
    CompleteLater(before, now, m, at + 1, if taken then visited + [at] else visited);
  }

  /** Ready for longer is ready since later. */
  lemma ReadySince(trace: seq<State>, from: nat, m: nat)
    requires from <= m
    ensures forall i: nat :: ReadyDuring(trace, from, |trace|, i) ==> ReadyDuring(trace, m, |trace|, i)
  {
  }

  /** In state w every script that was in the map and ready since state m is told to stop. */
  ghost predicate AllTold(trace: seq<State>, m: nat, w: nat) {
    w < |trace| &&
    forall i: nat :: i < |trace[w].scripts| && ReadyDuring(trace, m, w, i) ==> trace[w].scripts[i].flags.interrupt
  }

  lemma VisitedAreTold(trace: seq<State>, records: seq<Record>, visited: seq<Sid>, m: nat)
    requires trace != [] && records == Records(trace[|trace| - 1].scripts) && AllSeen(records, ShutdownModule, visited)
    requires forall i: nat :: i < |records| && ReadyDuring(trace, m, |trace|, i) ==> i in visited
    ensures AllTold(trace, m, |trace| - 1)
  {
    var w := |trace| - 1;
    forall i: nat | i < |trace[w].scripts| && ReadyDuring(trace, m, w, i)
      ensures trace[w].scripts[i].flags.interrupt
    {
      assert ReadyDuring(trace, m, |trace|, i);
      var k :| 0 <= k < |visited| && visited[k] == i;
      assert Seen(records, ShutdownModule, visited[k]);
    }
  }

  lemma ToldLater(past: seq<State>, now: seq<State>, m: nat, w: nat)
    requires Extends(past, now) && m <= w < |past| && AllTold(past, m, w)
    ensures AllTold(now, m, w)
  {
    forall i: nat | i < |now[w].scripts| && ReadyDuring(now, m, w, i)
      ensures now[w].scripts[i].flags.interrupt
    {
      forall k | m <= k <= w && k < |past| ensures ReadyIn(past[k], i) {
        assert ReadyIn(now[k], i);
      }
      assert ReadyDuring(past, m, w, i);
    }
  }

  lemma ExtendsTwice(a: seq<State>, b: seq<State>, c: seq<State>)
    requires Extends(a, b) && Extends(b, c)
    ensures Extends(a, c)
  {
  }

  /** The module's globals and scripts. `view` adds the positions of all threads; the ghost fields
      are the states passed so far and how many threads scripts will still launch. */
  class QuickjsModule {
    var records: seq<Record>
    var mapOwner: Option<Cid>
    var shutdown: bool
    var activeThreads: nat
    var mapLive: bool
    var view: State
    ghost var trace: seq<State>
    ghost var budget: nat

    ghost predicate Stores(s: State)
      reads this
    {
      && records == Records(s.scripts)
      && mapOwner == s.g.lock && shutdown == s.g.shutdown && activeThreads == s.g.active && mapLive == s.g.mapLive
    }

    ghost predicate Valid()
      reads this
    {
      Inv(view) && Stores(view) && trace != [] && trace[|trace| - 1] == view
    }

    /** Any finite number of steps of the other threads. */
    method Interfere(ghost me: Actor)
      requires Valid()
      modifies this
      ensures Valid() && Undisturbed(old(view), view, me)
      ensures Extends(old(trace), trace)
      ensures OthersRan(old(view), view, me, trace[|old(trace)|..], old(budget) - budget)
    {
      assert Path([view], [], me) && [view][1..] == [];
      assert LaunchesIn([]) == 0;
    }

    /** switch_yield while somebody else can go on, such as by action `a`: the others run, and at
        least one step is taken. */
    method Yield(ghost me: Actor, a: Action)
      requires Valid() && Enabled(view, a) && ActorOf(a) != me && !a.OtherLaunched?
      modifies this
      ensures Valid() && Undisturbed(old(view), view, me)
      ensures Extends(old(trace), trace)
      ensures OthersRan(old(view), view, me, trace[|old(trace)|..], old(budget) - budget)
      ensures UsedUp(old(view), old(budget), view, budget, 1)
    {
      OtherStepLeavesMine(view, a, me);
      StepUsesUp(view, a, budget);
      OneStepPath(view, a, me);
      GoTo(Apply(view, a));
      assert trace[|old(trace)|..] == [view];
    }

    method GoTo(s: State)
      requires Inv(s)
      modifies this
      ensures Valid() && view == s && trace == old(trace) + [s] && budget == old(budget)
    {
      view := s;
      records := Records(s.scripts);
      mapOwner, shutdown, activeThreads, mapLive := s.g.lock, s.g.shutdown, s.g.active, s.g.mapLive;
      trace := trace + [s];
    }

    /** Records that the fields now hold what the next step of client c leaves. */
    method Advance(c: Cid, fails: bool)
      requires Inv(view) && Enabled(view, ClientStep(c, fails)) && Stores(StepClient(view, c, fails))
      modifies `view, `trace
      ensures Valid() && view == StepClient(old(view), c, fails)
      ensures Extends(old(trace), trace) && |trace| == |old(trace)| + 1
    {
      ClientStepKeepsInv(view, c, fails);
      view := StepClient(view, c, fails);
      trace := trace + [view];
    }

    /** The same for a step at which the client works on script i. */
    method AdvanceOn(c: Cid, fails: bool, ghost i: Sid)
      requires Inv(view) && Enabled(view, ClientStep(c, fails)) && Target(view.clients[c], |view.scripts|) == Some(i)
      requires records == Records(view.scripts)[i := RecordOf(ScriptAfter(view.clients[c], view.scripts[i], fails))]
      requires
        var g := GlobalsAfter(view.clients[c], view.g, fails);
        mapOwner == g.lock && shutdown == g.shutdown && activeThreads == g.active && mapLive == g.mapLive
      modifies `view, `trace
      ensures Valid() && view == StepClient(old(view), c, fails) && Extends(old(trace), trace)
      ensures view.clients[c] == old(view).clients[c].(pc := PcAfter(old(view).clients[c], old(view).scripts[i], fails))
      ensures |view.scripts| == |records|
      ensures view.scripts[i] == ScriptAfter(old(view).clients[c], old(view).scripts[i], fails)
    {
      assert records == Records(StepClient(view, c, fails).scripts);
      Advance(c, fails);
    }

    method AdvanceScript(i: Sid, ends: bool)
      requires Inv(view) && Enabled(view, ScriptStep(i, ends)) && Stores(StepScript(view, i, ends))
      modifies `view, `trace
      ensures Valid() && view == StepScript(old(view), i, ends) && Extends(old(trace), trace)
    {
      ScriptStepKeepsInv(view, i, ends);
      view := StepScript(view, i, ends);
      trace := trace + [view];
    }

    /** Waiting for the map mutex; its holder is on the way through the map. */
    method AwaitMap(ghost me: Actor)
      requires Valid() && !OwnsMap(view, me)
      modifies this
      ensures Valid() && Undisturbed(old(view), view, me) && Extends(old(trace), trace)
      ensures mapOwner == None
    {
      while mapOwner.Some?
        invariant Valid() && Undisturbed(old(view), view, me) && Extends(old(trace), trace) && !OwnsMap(view, me)
        decreases Remaining(view, budget)
      {
        ghost var before := view;
        HolderMoves(view);
        Yield(me, ClientStep(mapOwner.value, false));
        UndisturbedTwice(old(view), before, view, me);
        StillNotOwner(before, view, me);
      }
    }

    /** Where every command starts: all but the chat interface look at the shutdown flag. */
    method Begin(c: Cid, command: Command) returns (goesOn: bool)
      requires Valid() && c < |view.clients| && view.clients[c] == Client(command, Ready)
      modifies this
      ensures Valid() && view == StepClient(old(view), c, false)
      ensures Extends(old(trace), trace)
      ensures goesOn == (command.Message? || command.ShutdownModule? || !old(shutdown))
      ensures shutdown == (old(shutdown) || command.ShutdownModule?)
      ensures view.clients[c] == Client(command, if goesOn then FirstPc(command) else Finished)
    {
      assert Addressed(view.clients[c], |view.scripts|);
      goesOn := command.Message? || command.ShutdownModule? || !shutdown;
      if command.ShutdownModule? { shutdown := true; }
      Advance(c, false);
    }

    // ---- commands that look a script up ----------------------------------------------------

    /** script_lookup with the lock flag, under the map mutex. */
    method ScriptLookup(c: Cid, command: Command) returns (found: bool)
      requires Valid() && mapOwner == None && c < |view.clients|
      requires LooksUp(command) && view.clients[c] == Client(command, Looking)
      modifies this
      ensures Valid() && view == StepClient(old(view), c, false)
      ensures found == (command.sid < |records| && old(records)[command.sid].mapped)
      ensures
        if found then view.clients[c].pc.Holding? && records[command.sid].sem == old(records)[command.sid].sem + 1
        else view.clients[c].pc == Finished
    {
      var i := command.sid;
      found := i < |records| && records[i].mapped;
      if found { records := records[i := records[i].(sem := records[i].sem + 1)]; }
      if i < |records| { AdvanceOn(c, false, i); } else { Advance(c, false); }
    }

    /** What the command does with the script it found: `int` sets the interrupt flag of a script
        that is ready and not on its way out. */
    method UseFound(c: Cid, command: Command) returns (success: bool)
      requires Valid() && c < |view.clients|
      requires LooksUp(command) && view.clients[c].command == command && view.clients[c].pc.Holding?
      modifies this
      ensures Valid() && c < |view.clients| && view.clients[c].command == command && view.clients[c].pc.Releasing?
      ensures command.sid < |records| == |old(records)|
      ensures success == (old(records)[command.sid].flags.ready && !old(records)[command.sid].flags.destroyed)
      ensures
        var r := old(records)[command.sid];
        var r' := if success && command.Interrupt? then r.(flags := r.flags.(interrupt := true)) else r;
        records == old(records)[command.sid := r']
    {
      assert Addressed(view.clients[c], |view.scripts|);
      var i := command.sid;
      var flags := records[i].flags;
      success := flags.ready && !flags.destroyed;
      if command.Interrupt? && success { records := records[i := records[i].(flags := flags.(interrupt := true))]; }
      AdvanceOn(c, false, i);
    }

    /** script_sem_release. The guard of the decrement never fails: the reference is counted. */
    method ScriptSemRelease(c: Cid, i: Sid)
      requires Valid() && c < |view.clients| && i < |records|
      requires Held(view.clients[c], i) == 1 && (view.clients[c].pc.Releasing? || view.clients[c].pc.Marked?)
      modifies this
      ensures Valid() && view == StepClient(old(view), c, false)
      ensures |records| == |old(records)| && records == old(records)[i := old(records)[i].(sem := records[i].sem)]
      ensures records[i].sem + 1 == old(records)[i].sem && mapOwner == old(mapOwner) && Extends(old(trace), trace)
    {
      HolderCounted(view, c, i);
      if records[i].sem > 0 { records := records[i := records[i].(sem := records[i].sem - 1)]; }
      AdvanceOn(c, false, i);
    }

    /** The `int` command, and the chat interface around its push: look the script up, use it,
        give the reference back. A reported interrupt stays requested. */
    method LookupCommand(c: Cid, command: Command) returns (success: bool)
      requires Valid() && c < |view.clients| && LooksUp(command) && view.clients[c] == Client(command, Ready)
      modifies this
      ensures Valid() && c < |view.clients| && view.clients[c].pc == Finished
      ensures success ==> command.sid < |records|
      ensures success && command.Interrupt? ==> !old(shutdown) && records[command.sid].flags.interrupt
    {
      success := false;
      var goesOn := Begin(c, command);
      if !goesOn { return; }
      AwaitMap(ClientThread(c));
      var found := ScriptLookup(c, command);
      if !found { return; }
      success := UseHeld(c, command);
    }

    /** Interference as seen by a client that has set the interrupt flag of a script. */
    method InterfereKeeping(c: Cid, i: Sid)
      requires Valid() && c < |view.clients| && i < |records|
      modifies this
      ensures Valid() && c < |view.clients| && view.clients[c] == old(view).clients[c] && |records| == |old(records)|
      ensures old(records)[i].flags.interrupt ==> records[i].flags.interrupt
    {
      ghost var before := view;
      Interfere(ClientThread(c));
      assert KeepsInterrupt(before.scripts[i], view.scripts[i]);
    }

    /** From taking the reference to giving it back, the mutex being free for others. */
    method UseHeld(c: Cid, command: Command) returns (success: bool)
      requires Valid() && c < |view.clients| && LooksUp(command) && view.clients[c].command == command
      requires view.clients[c].pc.Holding?
      modifies this
      ensures Valid() && c < |view.clients| && view.clients[c].pc == Finished
      ensures success ==> command.sid < |records|
      ensures success && command.Interrupt? ==> records[command.sid].flags.interrupt
    {
      assert Addressed(view.clients[c], |view.scripts|);
      InterfereKeeping(c, command.sid);
      success := UseFound(c, command);
      GiveBack(c, command.sid);
    }

    /** The reference is given back after whatever the others do meanwhile. */
    method GiveBack(c: Cid, i: Sid)
      requires Valid() && c < |view.clients| && i < |records| && view.clients[c].pc.Releasing?
      requires Held(view.clients[c], i) == 1
      modifies this
      ensures Valid() && c < |view.clients| && i < |records| && view.clients[c].pc == Finished
      ensures old(records)[i].flags.interrupt ==> records[i].flags.interrupt
    {
      InterfereKeeping(c, i);
      ScriptSemRelease(c, i);
    }

    // ---- sweeps over the map ---------------------------------------------------------------

    /** The client holds the map mutex and is about to visit slot `at`. */
    ghost predicate SweepsAt(c: Cid, command: Command, at: nat)
      reads this
    {
      && Valid() && c < |view.clients| && mapOwner == Some(c) && Sweeps(command)
      && view.clients[c] == Client(command, Sweeping(at))
    }

    /** Interference as seen by the holder of the map mutex: what it has seen stays so. */
    method InterfereLocked(c: Cid, ghost command: Command, ghost visited: seq<Sid>)
      requires Valid() && c < |view.clients| && mapOwner == Some(c) && AllSeen(records, command, visited)
      modifies this
      ensures Valid() && |records| == |old(records)| && AllSeen(records, command, visited)
      ensures c < |view.clients| && mapOwner == Some(c) && view.clients[c] == old(view).clients[c]
      ensures Extends(old(trace), trace)
    {
      ghost var before := view;
      Interfere(ClientThread(c));
      forall k | 0 <= k < |visited|
        ensures Seen(records, command, visited[k])
      {
        var i := visited[k];
        assert KeepsInterrupt(before.scripts[i], view.scripts[i]) && LifeOk(view.scripts[i]);
      }
    }

    method LockMap(c: Cid, command: Command)
      requires Valid() && mapOwner == None && c < |view.clients|
      requires Sweeps(command) && view.clients[c] == Client(command, Locking)
      modifies this
      ensures SweepsAt(c, command, 0) && Extends(old(trace), trace) && |trace| == |old(trace)| + 1
    {
      mapOwner := Some(c);
      Advance(c, false);
    }

    /** script_sem_take on the script in slot `at`, if there is one: only a ready script is taken. */
    method ScriptSemTake(c: Cid, command: Command, at: nat) returns (taken: bool)
      requires SweepsAt(c, command, at) && at < |records|
      modifies this
      ensures Valid() && mapOwner == Some(c) && Extends(old(trace), trace)
      ensures taken == (old(records)[at].mapped && old(records)[at].flags.ready) == ReadyIn(old(view), at)
      ensures
        records == if taken then old(records)[at := old(records)[at].(sem := old(records)[at].sem + 1)] else old(records)
      ensures c < |view.clients|
      ensures view.clients[c] == Client(command, if taken then Visiting(at) else Sweeping(at + 1))
    {
      SlotIsLive(view, at);
      LookAtSlot(view.clients[c], view.scripts[at], view.g, |records|);
      taken := records[at].mapped && records[at].flags.ready;
      if taken { records := records[at := records[at].(sem := records[at].sem + 1)]; }
      AdvanceOn(c, false, at);
    }

    /** What a sweep does to a script it holds: the shutdown sets the interrupt flag. */
    method MarkScript(c: Cid, command: Command, at: nat, ghost visited: seq<Sid>)
      requires Valid() && c < |view.clients| && at < |records| && Sweeps(command)
      requires view.clients[c] == Client(command, Visiting(at)) && AllSeen(records, command, visited)
      modifies this
      ensures Valid() && mapOwner == old(mapOwner) && Extends(old(trace), trace)
      ensures c < |view.clients| && view.clients[c] == Client(command, Marked(at))
      ensures |records| == |old(records)| && AllSeen(records, command, visited + [at])
    {
      assert PairOk(view.clients[c], view.scripts[at]) && LifeOk(view.scripts[at]);
      if command.ShutdownModule? {
        records := records[at := records[at].(flags := records[at].flags.(interrupt := true))];
      }
      AdvanceOn(c, false, at);
    }

    method LeaveSlot(c: Cid, command: Command, at: nat, ghost visited: seq<Sid>)
      requires Valid() && c < |view.clients| && mapOwner == Some(c) && at < |records|
      requires Sweeps(command) && view.clients[c] == Client(command, Marked(at)) && AllSeen(records, command, visited)
      modifies this
      ensures SweepsAt(c, command, at + 1) && |records| == |old(records)| && AllSeen(records, command, visited)
      ensures Extends(old(trace), trace)
    {
      ghost var before := records;
      ScriptSemRelease(c, at);
      SemKeepsSeen(before, at, records[at].sem, command, visited);
    }

    /** The visit of a script whose reference was taken. */
    method VisitTaken(c: Cid, command: Command, at: nat, ghost visited: seq<Sid>)
      requires Valid() && c < |view.clients| && mapOwner == Some(c) && at < |records|
      requires Sweeps(command) && view.clients[c] == Client(command, Visiting(at)) && AllSeen(records, command, visited)
      modifies this
      ensures SweepsAt(c, command, at + 1) && |records| == |old(records)| && AllSeen(records, command, visited + [at])
      ensures Extends(old(trace), trace)
    {
      InterfereLocked(c, command, visited);
      MarkScript(c, command, at, visited);
      InterfereLocked(c, command, visited + [at]);
      LeaveSlot(c, command, at, visited + [at]);
    }

    /** One turn of the sweep: the slot is visited exactly if it is in the map and ready now. */
    method VisitSlot(c: Cid, command: Command, at: nat, ghost visited: seq<Sid>) returns (taken: bool)
      requires SweepsAt(c, command, at) && at < |records| && AllSeen(records, command, visited)
      modifies this
      ensures SweepsAt(c, command, at + 1) && |records| == |old(records)| && Extends(old(trace), trace)
      ensures taken == (old(records)[at].mapped && old(records)[at].flags.ready) == ReadyIn(old(view), at)
      ensures AllSeen(records, command, if taken then visited + [at] else visited)
    {
      SemKeepsSeen(records, at, records[at].sem + 1, command, visited);
      taken := ScriptSemTake(c, command, at);
      if taken { VisitTaken(c, command, at, visited); }
    }

    /** One turn of the sweep with what the others do after it. */
    method SweepSlot(c: Cid, command: Command, at: nat, visited: seq<Sid>, ghost m: nat) returns (now: seq<Sid>)
      requires SweepsAt(c, command, at) && at < |records| && AllSeen(records, command, visited)
      requires m < |trace| && Complete(trace, m, at, visited) && Ascending(visited + [at])
      modifies this
      ensures SweepsAt(c, command, at + 1) && |records| == |old(records)| && Extends(old(trace), trace)
      ensures AllSeen(records, command, now) && Complete(trace, m, at + 1, now) && Ascending(now + [at + 1])
    {
      AscendingNext(visited, at);
      ghost var before := trace;
      assert before[|before| - 1] == view;
      var taken := VisitSlot(c, command, at, visited);
      now := if taken then visited + [at] else visited;
      InterfereLocked(c, command, now);
      CompleteSlot(before, trace, m, at, visited, taken);
    }

    /** The loop of the `list` command and of the shutdown. Every script visited is alive and in the
        map until the mutex is released, no slot is visited twice, and every script that was in the
        map and ready all the time since state m is visited. */
    method SweepMap(c: Cid, command: Command, ghost m: nat) returns (visited: seq<Sid>)
      requires SweepsAt(c, command, 0) && m < |trace|
      modifies this
      ensures |records| == |old(records)| && SweepsAt(c, command, |records|) && Extends(old(trace), trace)
      ensures AllSeen(records, command, visited) && Ascending(visited)
      ensures Complete(trace, m, |records|, visited)
    {
      visited := [];
      var at := 0;
      while at < |records|
        invariant |records| == |old(records)| && at <= |records| && SweepsAt(c, command, at)
        invariant AllSeen(records, command, visited) && Ascending(visited + [at])
        invariant Extends(old(trace), trace) && Complete(trace, m, at, visited)
        decreases |records| - at
      {
        ghost var before := trace;
        visited := SweepSlot(c, command, at, visited, m);
        ExtendsTwice(old(trace), before, trace);
        at := at + 1;
      }
      AscendingNext(visited, at);
    }

    method UnlockMap(c: Cid, command: Command)
      requires SweepsAt(c, command, |records|)
      modifies this
      ensures Valid() && mapOwner == None && records == old(records) && Extends(old(trace), trace)
      ensures c < |view.clients|
      ensures view.clients[c] == Client(command, if command.ShutdownModule? then Waiting else Finished)
    {
      mapOwner := None;
      Advance(c, false);
    }

    /** Locking the map, sweeping it, unlocking it. `m` is the state in which the sweep began, with
        the mutex just taken; when it is released, everything visited is still as it was seen, and
        every script that stayed ready is among it. */
    method Sweep(c: Cid, command: Command) returns (visited: seq<Sid>, ghost m: nat)
      requires Valid() && c < |view.clients| && Sweeps(command) && view.clients[c] == Client(command, Locking)
      modifies this
      ensures Valid() && c < |view.clients| && mapOwner == None && Extends(old(trace), trace)
      ensures view.clients[c] == Client(command, if command.ShutdownModule? then Waiting else Finished)
      ensures |old(trace)| <= m < |trace| && c < |trace[m].clients| && trace[m].clients[c].pc == Sweeping(0)
      ensures AllSeen(records, command, visited) && Ascending(visited)
      ensures forall i: nat :: i < |records| && ReadyDuring(trace, m, |trace|, i) ==> i in visited
    {
      TakeMap(c, command);
      m := |trace| - 1;
      visited := SweepAndUnlock(c, command, m);
    }

    method TakeMap(c: Cid, command: Command)
      requires Valid() && c < |view.clients| && Sweeps(command) && view.clients[c] == Client(command, Locking)
      modifies this
      ensures SweepsAt(c, command, 0) && Extends(old(trace), trace) && |trace| > |old(trace)|
    {
      AwaitMap(ClientThread(c));
      LockMap(c, command);
    }

    method SweepAndUnlock(c: Cid, command: Command, ghost m: nat) returns (visited: seq<Sid>)
      requires SweepsAt(c, command, 0) && m < |trace|
      modifies this
      ensures Valid() && c < |view.clients| && mapOwner == None && Extends(old(trace), trace)
      ensures view.clients[c] == Client(command, if command.ShutdownModule? then Waiting else Finished)
      ensures AllSeen(records, command, visited) && Ascending(visited)
      ensures forall i: nat :: i < |records| && ReadyDuring(trace, m, |trace|, i) ==> i in visited
    {
      InterfereLocked(c, command, []);
      visited := SweepMap(c, command, m);
      ghost var before := trace;
      UnlockMap(c, command);
      CompleteLater(before, trace, m, |records|, visited);
    }

    /** The `list` command: it shows nothing once the shutdown began; otherwise the scripts it shows
        are alive when it ends, each is shown once, and every script that was ready all along is
        among them. */
    method ListScripts(c: Cid) returns (visited: seq<Sid>)
      requires Valid() && c < |view.clients| && view.clients[c] == Client(Command.ListScripts, Ready)
      modifies this
      ensures Valid() && c < |view.clients| && view.clients[c].pc == Finished && mapOwner != Some(c)
      ensures Extends(old(trace), trace) && AllSeen(records, Command.ListScripts, visited) && Ascending(visited)
      ensures
        if old(shutdown) then visited == []
        else forall i: nat :: i < |records| && ReadyDuring(trace, |old(trace)|, |trace|, i) ==> i in visited
    {
      visited := [];
      var goesOn := Begin(c, Command.ListScripts);
      if goesOn {
        Interfere(ClientThread(c));
        ghost var m;
        visited, m := Sweep(c, Command.ListScripts);
        ReadySince(trace, |old(trace)|, m);
      }
      FinishedIsNotOwner(view, c);
    }

    /** mod_quickjs_shutdown. At state w its sweep is over: every script that stayed in the map and
        ready since m, when it took the map mutex, is told to stop. At state z it reads zero active
        threads, and only then is the map destroyed. */
    method ModuleShutdown(c: Cid) returns (ghost m: nat, ghost w: nat, ghost z: nat)
      requires Valid() && c < |view.clients| && view.clients[c] == Client(ShutdownModule, Ready)
      modifies this
      ensures Valid() && c < |view.clients| && view.clients[c].pc == Finished && !mapLive
      ensures Extends(old(trace), trace) && |old(trace)| <= m <= w <= z < |trace|
      ensures AllTold(trace, m, w)
      ensures c < |trace[m].clients| && trace[m].clients[c].pc == Sweeping(0)
      ensures c < |trace[w].clients| && trace[w].clients[c].pc == Waiting
      ensures c < |trace[z].clients| && trace[z].clients[c].pc == Waiting && trace[z].g.active == 0
    {
      m, w := RaiseAndSweep(c);
      ghost var swept := trace;
      z := WaitAndDestroy(c);
      ToldLater(swept, trace, m, w);
    }

    /** Its first half: the flag goes up, and then the sweep. */
    method RaiseAndSweep(c: Cid) returns (ghost m: nat, ghost w: nat)
      requires Valid() && c < |view.clients| && view.clients[c] == Client(ShutdownModule, Ready)
      modifies this
      ensures Valid() && c < |view.clients| && view.clients[c] == Client(ShutdownModule, Waiting)
      ensures Extends(old(trace), trace) && |old(trace)| <= m <= w == |trace| - 1
      ensures c < |trace[m].clients| && trace[m].clients[c].pc == Sweeping(0)
      ensures AllTold(trace, m, w)
    {
      RaiseFlag(c);
      m, w := SweepScripts(c);
    }

    method SweepScripts(c: Cid) returns (ghost m: nat, ghost w: nat)
      requires Valid() && c < |view.clients| && view.clients[c] == Client(ShutdownModule, Locking)
      modifies this
      ensures Valid() && c < |view.clients| && view.clients[c] == Client(ShutdownModule, Waiting)
      ensures Extends(old(trace), trace) && |old(trace)| <= m <= w == |trace| - 1
      ensures c < |trace[m].clients| && trace[m].clients[c].pc == Sweeping(0)
      ensures AllTold(trace, m, w)
    {
      var visited;
      visited, m := Sweep(c, ShutdownModule);
      w := |trace| - 1;
      VisitedAreTold(trace, records, visited, m);
    }

    method RaiseFlag(c: Cid)
      requires Valid() && c < |view.clients| && view.clients[c] == Client(ShutdownModule, Ready)
      modifies this
      ensures Valid() && c < |view.clients| && view.clients[c] == Client(ShutdownModule, Locking)
      ensures Extends(old(trace), trace) && shutdown
    {
      var goesOn := Begin(c, ShutdownModule);
      assert view.g.shutdown;
      Interfere(ClientThread(c));
    }

    /** Its second half: waiting for the threads, and destroying the map. */
    method WaitAndDestroy(c: Cid) returns (ghost z: nat)
      requires Valid() && c < |view.clients| && view.clients[c] == Client(ShutdownModule, Waiting)
      modifies this
      ensures Valid() && c < |view.clients| && view.clients[c].pc == Finished && !mapLive
      ensures Extends(old(trace), trace) && |old(trace)| - 1 <= z < |trace|
      ensures c < |trace[z].clients| && trace[z].clients[c].pc == Waiting && trace[z].g.active == 0
    {
      z := AwaitThreads(c);
      DestroyMap(c);
    }

    method DestroyMap(c: Cid)
      requires Valid() && c < |view.clients| && view.clients[c] == Client(ShutdownModule, Destroying)
      modifies this
      ensures Valid() && c < |view.clients| && view.clients[c].pc == Finished && !mapLive
      ensures Extends(old(trace), trace)
    {
      FinishedIsNotOwner(view, c);
      AwaitMap(ClientThread(c));
      mapLive := false;
      Advance(c, false);
    }

    /** The loop on active_threads lets go at a reading of zero, in state z. */
    method AwaitThreads(c: Cid) returns (ghost z: nat)
      requires Valid() && c < |view.clients| && view.clients[c] == Client(ShutdownModule, Waiting)
      modifies this
      ensures Valid() && c < |view.clients| && view.clients[c] == Client(ShutdownModule, Destroying)
      ensures Extends(old(trace), trace) && |old(trace)| - 1 <= z < |trace|
      ensures c < |trace[z].clients| && trace[z].clients[c].pc == Waiting && trace[z].g.active == 0
    {
      WaitForZero(c);
      z := |trace| - 1;
      StopWaiting(c);
    }

    method WaitForZero(c: Cid)
      requires Valid() && c < |view.clients| && view.clients[c] == Client(ShutdownModule, Waiting)
      modifies this
      ensures Valid() && c < |view.clients| && view.clients[c] == Client(ShutdownModule, Waiting)
      ensures activeThreads == 0 && Extends(old(trace), trace)
    {
      while activeThreads != 0
        invariant Valid() && c < |view.clients| && view.clients[c] == Client(ShutdownModule, Waiting)
        invariant Extends(old(trace), trace)
        decreases Remaining(view, budget)
      {
        ghost var before := trace;
        WaitOnce(c);
        ExtendsTwice(old(trace), before, trace);
      }
    }

    /** One turn of that loop. */
    method WaitOnce(c: Cid)
      requires Valid() && c < |view.clients| && view.clients[c] == Client(ShutdownModule, Waiting) && activeThreads != 0
      modifies this
      ensures Valid() && c < |view.clients| && view.clients[c] == Client(ShutdownModule, Waiting)
      ensures Extends(old(trace), trace) && Remaining(view, budget) < Remaining(old(view), old(budget))
    {
      var a := SomeThreadMoves(c);
      Yield(ClientThread(c), a);
    }

    method StopWaiting(c: Cid)
      requires Valid() && c < |view.clients| && view.clients[c] == Client(ShutdownModule, Waiting) && activeThreads == 0
      modifies this
      ensures Valid() && c < |view.clients| && view.clients[c] == Client(ShutdownModule, Destroying)
      ensures Extends(old(trace), trace)
    {
      Advance(c, false);
    }

    /** While threads are active somebody other than the waiting shutdown can go on. */
    method SomeThreadMoves(c: Cid) returns (a: Action)
      requires Valid() && c < |view.clients| && view.clients[c].pc == Waiting && activeThreads != 0
      ensures Enabled(view, a) && ActorOf(a) != ClientThread(c) && !a.OtherLaunched?
    {
      FinishedIsNotOwner(view, c);
      if mapOwner.Some? {
        HolderMoves(view);
        a := ClientStep(mapOwner.value, false);
      } else if view.g.others > 0 {
        a := OtherFinished;
      } else {
        ghost var active := SomeActive(view);
        var i := 0;
        while Active(view.scripts[i]) == 0
          invariant i <= active
          decreases active - i
        {
          i := i + 1;
        }
        if view.scripts[i].pc.Draining? && view.scripts[i].sem != 0 {
          a := SomeHolderMoves(i);
        } else {
          a := ScriptStep(i, false);
        }
      }
    }

    /** A semaphore that is not zero is owed by a client that can go on. */
    method SomeHolderMoves(i: Sid) returns (a: Action)
      requires Valid() && i < |records| && records[i].sem != 0
      ensures Enabled(view, a) && a.ClientStep? && !view.clients[a.c].pc.Waiting?
    {
      ghost var holder := SomeHolder(view, i);
      var c := 0;
      while Held(view.clients[c], i) == 0
        invariant c <= holder < |view.clients|
        decreases holder - c
      {
        c := c + 1;
      }
      HoldingMoves(view, c, i);
      a := ClientStep(c, false);
    }

    // ---- launching a script ------------------------------------------------------------------

    /** The insertion of script_launch, under the map mutex; `fails` is a failure before it, after
        which nothing of the script is left. */
    method InsertScript(c: Cid, command: Command, fails: bool)
      requires Valid() && c < |view.clients| && command.RunScript? && view.clients[c] == Client(command, Launching)
      requires mapOwner == None
      modifies this
      ensures Valid() && view == StepClient(old(view), c, fails)
      ensures c < |view.clients| && view.clients[c] == Client(command, if fails then Finished else Inserted)
      ensures command.sid < |records| && records[command.sid].mapped == records[command.sid].poolLive == !fails
    {
      assert Addressed(view.clients[c], |view.scripts|);
      var i := command.sid;
      assert PairOk(view.clients[c], view.scripts[i]) && LifeOk(view.scripts[i]);
      if !fails { records := records[i := records[i].(mapped := true, poolLive := true)]; }
      AdvanceOn(c, fails, i);
    }

    /** launch_thread for a background script, or the plain call of script_thread. */
    method StartScript(c: Cid, command: Command)
      requires Valid() && c < |view.clients| && command.RunScript? && view.clients[c] == Client(command, Inserted)
      modifies this
      ensures Valid() && view == StepClient(old(view), c, false)
      ensures c < |view.clients| && view.clients[c] == Client(command, Finished)
      ensures command.sid < |view.scripts| && view.scripts[command.sid].pc == ScriptPc.Begin
      ensures activeThreads == old(activeThreads) + if command.background then 1 else 0
    {
      assert Addressed(view.clients[c], |view.scripts|);
      if command.background { activeThreads := activeThreads + 1; }
      AdvanceOn(c, false, command.sid);
    }

    /** script_launch as run by a command. */
    method ScriptLaunch(c: Cid, command: Command, fails: bool) returns (started: bool)
      requires Valid() && c < |view.clients| && command.RunScript? && view.clients[c] == Client(command, Ready)
      modifies this
      ensures Valid() && c < |view.clients| && view.clients[c] == Client(command, Finished)
      ensures started <==> !fails && !old(shutdown)
      ensures started ==> command.sid < |view.scripts| && view.scripts[command.sid].pc == ScriptPc.Begin
    {
      started := Begin(c, command);
      if !started { return; }
      AwaitMap(ClientThread(c));
      InsertScript(c, command, fails);
      started := !fails;
      if started {
        Interfere(ClientThread(c));
        StartScript(c, command);
      }
    }

    // ---- the thread of a script --------------------------------------------------------------

    ghost predicate ScriptAt(i: Sid, pc: ScriptPc)
      reads this
    {
      Valid() && i < |records| && view.scripts[i].pc == pc
    }

    /** Interference as seen by a script's thread: its own position stays. */
    method InterfereScript(i: Sid, ghost pc: ScriptPc)
      requires ScriptAt(i, pc) && Launched(pc)
      modifies this
      ensures ScriptAt(i, pc) && Unchanged(old(view).scripts[i], view.scripts[i])
    {
      Interfere(ScriptThread(i));
    }

    /** The check at the start, and creating the runtime; `fails` stands for the latter. */
    method StartCheck(i: Sid, fails: bool) returns (goesOn: bool)
      requires ScriptAt(i, ScriptPc.Begin)
      modifies this
      ensures goesOn == !(fails || old(records)[i].flags.destroyed || old(shutdown))
      ensures ScriptAt(i, if goesOn then Registering else Out) && Unchanged(old(view).scripts[i], view.scripts[i])
    {
      var flags := records[i].flags;
      goesOn := !(flags.destroyed || shutdown || fails);
      if goesOn { records := records[i := records[i].(flags := flags.(ready := true))]; }
      AdvanceScript(i, fails);
    }

    /** The ready flag is up while the classes are registered, and then down again. */
    method EndRegistering(i: Sid)
      requires ScriptAt(i, Registering)
      modifies this
      ensures ScriptAt(i, Setup) && !records[i].flags.ready && Unchanged(old(view).scripts[i], view.scripts[i])
    {
      records := records[i := records[i].(flags := records[i].flags.(ready := false))];
      AdvanceScript(i, false);
    }

    method FinishSetup(i: Sid, fails: bool)
      requires ScriptAt(i, Setup)
      modifies this
      ensures ScriptAt(i, if fails then Out else Running) && records[i].flags.ready
      ensures Unchanged(old(view).scripts[i], view.scripts[i])
    {
      records := records[i := records[i].(flags := records[i].flags.(ready := true))];
      AdvanceScript(i, fails);
    }

    /** The script itself: it ends when it wants to, or after `fuel` operations. */
    method RunScript(i: Sid, fuel: nat, ends: nat -> bool)
      requires ScriptAt(i, Running) && view.scripts[i].fuel == fuel
      modifies this
      ensures ScriptAt(i, Out) && view.scripts[i].background == old(view).scripts[i].background
    {
      var left, running := fuel, true;
      while running
        invariant ScriptAt(i, if running then Running else Out)
        invariant view.scripts[i].background == old(view).scripts[i].background
        invariant view.scripts[i].fuel == left
        decreases running, left
      {
        running := RunOnce(i, left, ends(left));
        if running {
          left := left - 1;
          InterfereScript(i, Running);
        }
      }
    }

    method RunOnce(i: Sid, fuel: nat, ends: bool) returns (running: bool)
      requires ScriptAt(i, Running) && view.scripts[i].fuel == fuel
      modifies this
      ensures running == (!ends && fuel > 0)
      ensures ScriptAt(i, if running then Running else Out)
      ensures view.scripts[i].background == old(view).scripts[i].background
      ensures view.scripts[i].fuel == if running then fuel - 1 else fuel
    {
      running := !ends && fuel > 0;
      AdvanceScript(i, ends);
    }

    method MarkDestroyed(i: Sid)
      requires ScriptAt(i, Out)
      modifies this
      ensures ScriptAt(i, Draining) && records[i].flags.destroyed && Unchanged(old(view).scripts[i], view.scripts[i])
    {
      records := records[i := records[i].(flags := records[i].flags.(destroyed := true))];
      AdvanceScript(i, false);
    }

    /** script_wait_unlock: it lets go at a zero semaphore, and it does let go. */
    method ScriptWaitUnlock(i: Sid)
      requires ScriptAt(i, Draining)
      modifies this
      ensures ScriptAt(i, FreeingRuntime) && records[i].sem == 0
      ensures view.scripts[i].background == old(view).scripts[i].background
    {
      while records[i].sem != 0
        invariant ScriptAt(i, Draining) && view.scripts[i].background == old(view).scripts[i].background
        decreases Remaining(view, budget)
      {
        WaitForHolder(i);
      }
      AdvanceScript(i, false);
    }

    /** One turn of the wait: somebody who owes a reference can go on. */
    method WaitForHolder(i: Sid)
      requires ScriptAt(i, Draining) && records[i].sem != 0
      modifies this
      ensures ScriptAt(i, Draining) && view.scripts[i].background == old(view).scripts[i].background
      ensures Remaining(view, budget) < Remaining(old(view), old(budget))
    {
      var a := SomeHolderMoves(i);
      Yield(ScriptThread(i), a);
    }

    /** Freeing context and runtime. */
    method FreeRuntime(i: Sid)
      requires ScriptAt(i, FreeingRuntime)
      modifies this
      ensures ScriptAt(i, ClearingReady) && view.scripts[i].background == old(view).scripts[i].background
      ensures records == old(records)
    {
      AdvanceScript(i, false);
    }

    /** Only then the ready flag goes down. */
    method ClearReady(i: Sid)
      requires ScriptAt(i, ClearingReady)
      modifies this
      ensures ScriptAt(i, Deleting) && view.scripts[i].background == old(view).scripts[i].background
      ensures !records[i].flags.ready
    {
      records := records[i := records[i].(flags := records[i].flags.(ready := false))];
      AdvanceScript(i, false);
    }

    /** Deleting the script from the map, under the map mutex. */
    method DeleteScript(i: Sid)
      requires ScriptAt(i, Deleting) && mapOwner == None
      modifies this
      ensures ScriptAt(i, FreeingPool) && !records[i].mapped && records[i].poolLive
      ensures view.scripts[i].background == old(view).scripts[i].background
    {
      assert LifeOk(view.scripts[i]);
      records := records[i := records[i].(mapped := false)];
      AdvanceScript(i, false);
    }

    /** Destroying the pool; `background` is whether the body runs on a thread of its own. */
    method FreePool(i: Sid, background: bool)
      requires ScriptAt(i, FreeingPool) && view.scripts[i].background == background
      modifies this
      ensures ScriptAt(i, if background then Finishing else Done) && !records[i].poolLive && !records[i].mapped
      ensures view.scripts[i].background == background
    {
      assert LifeOk(view.scripts[i]);
      records := records[i := records[i].(poolLive := false)];
      AdvanceScript(i, false);
    }

    /** thread_finished. The guard of the decrement never fails: the thread is counted. */
    method ThreadFinished(i: Sid)
      requires ScriptAt(i, Finishing)
      modifies this
      ensures ScriptAt(i, Done) && activeThreads + 1 == old(activeThreads) && records == old(records)
    {
      assert LifeOk(view.scripts[i]);
      SumAt(view.scripts, i, Active);
      if activeThreads > 0 { activeThreads := activeThreads - 1; }
      AdvanceScript(i, false);
    }

    /** script_thread up to its teardown. */
    method RunToEnd(i: Sid, fuel: nat, startFails: bool, setupFails: bool, ends: nat -> bool)
      requires ScriptAt(i, ScriptPc.Begin) && view.scripts[i].fuel == fuel
      modifies this
      ensures ScriptAt(i, Draining) && records[i].flags.destroyed
      ensures view.scripts[i].background == old(view).scripts[i].background
    {
      var goesOn := StartCheck(i, startFails);
      if goesOn {
        InterfereScript(i, Registering);
        EndRegistering(i);
        InterfereScript(i, Setup);
        FinishSetup(i, setupFails);
        if !setupFails {
          InterfereScript(i, Running);
          RunScript(i, fuel, ends);
        }
      }
      InterfereScript(i, Out);
      MarkDestroyed(i);
    }

    /** Waiting for the map mutex to delete the script from the map. */
    method RemoveFromMap(i: Sid)
      requires ScriptAt(i, Deleting)
      modifies this
      ensures ScriptAt(i, FreeingPool) && !records[i].mapped
      ensures view.scripts[i].background == old(view).scripts[i].background
    {
      AwaitMap(ScriptThread(i));
      DeleteScript(i);
    }

    /** The teardown of script_thread up to the deletion from the map. */
    method Unregister(i: Sid)
      requires ScriptAt(i, Draining)
      modifies this
      ensures ScriptAt(i, FreeingPool) && !records[i].mapped
      ensures view.scripts[i].background == old(view).scripts[i].background
    {
      ScriptWaitUnlock(i);
      InterfereScript(i, FreeingRuntime);
      FreeRuntime(i);
      InterfereScript(i, ClearingReady);
      ClearReady(i);
      RemoveFromMap(i);
    }

    /** What is left: the pool, and thread_finished exactly for a thread of its own. */
    method Finish(i: Sid, background: bool)
      requires ScriptAt(i, FreeingPool) && view.scripts[i].background == background
      modifies this
      ensures ScriptAt(i, Done) && !records[i].mapped && !records[i].poolLive
    {
      FreePool(i, background);
      if background {
        InterfereScript(i, Finishing);
        ThreadFinished(i);
      }
      assert LifeOk(view.scripts[i]);
    }

    /** script_thread, from its start to its end: the script is out of the map and its pool gone. */
    method ScriptThreadBody(i: Sid, fuel: nat, background: bool, startFails: bool, setupFails: bool, ends: nat -> bool)
      requires ScriptAt(i, ScriptPc.Begin) && view.scripts[i].fuel == fuel && view.scripts[i].background == background
      modifies this
      ensures ScriptAt(i, Done) && !records[i].mapped && !records[i].poolLive
    {
      RunToEnd(i, fuel, startFails, setupFails, ends);
      InterfereScript(i, Draining);
      Unregister(i);
      InterfereScript(i, FreeingPool);
      Finish(i, background);
    }
  }

  predicate Ascending(s: seq<nat>) { forall j, k :: 0 <= j < k < |s| ==> s[j] < s[k] }

  lemma AscendingNext(s: seq<nat>, n: nat)
    requires Ascending(s + [n])
    ensures Ascending(s) && Ascending(s + [n + 1]) && Ascending(s + [n] + [n + 1])
  {
    var t, u := s + [n], s + [n] + [n + 1];
    assert forall j :: 0 <= j < |s| ==> s[j] == t[j] < t[|s|] == n;
    assert forall j :: 0 <= j < |t| ==> u[j] == t[j] <= n;
  }

  function FirstPc(command: Command): ClientPc {
    if LooksUp(command) then Looking else if Sweeps(command) then Locking else Launching
  }
}
