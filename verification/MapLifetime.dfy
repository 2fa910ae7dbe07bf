/** The map of scripts after mod_quickjs_shutdown has decided to destroy it: who can still use it,
    and when nobody can. */
module MapLifetime {
  import opened Sums
  import opened Registry
  import opened RegistryProgress

  // ---- runs that go on -----------------------------------------------------------------------

  ghost predicate Continues(states: seq<State>, actions: seq<Action>) {
    && |states| == |actions| + 1
    && forall k :: 0 <= k < |actions| ==> Enabled(states[k], actions[k]) && states[k + 1] == Apply(states[k], actions[k])
  }

  /** Some continuation uses the map after its destruction. */
  ghost predicate FaultPossible(s: State) {
    exists states: seq<State>, actions: seq<Action> ::
      Continues(states, actions) && states[0] == s && states[|actions|].g.mapFault
  }

  lemma FaultNow(s: State)
    requires s.g.mapFault
    ensures FaultPossible(s)
  {
    assert Continues([s], []);
  }

  lemma FaultAfter(s: State, a: Action)
    requires Enabled(s, a) && FaultPossible(Apply(s, a))
    ensures FaultPossible(s)
  {
    var states: seq<State>, actions: seq<Action> :|
      Continues(states, actions) && states[0] == Apply(s, a) && states[|actions|].g.mapFault;
    var states', actions' := [s] + states, [a] + actions;
    assert forall k :: 0 < k < |states'| ==> states'[k] == states[k - 1];
    assert forall k :: 0 < k < |actions'| ==> actions'[k] == actions[k - 1];
    assert Continues(states', actions');
  }

  // ---- who can still use the map -------------------------------------------------------------

  /** The client may still come to the map: a message does not look at the shutdown flag, and the
      others have looked already. */
  predicate CanReach(cl: Client) {
    || (cl.pc.Ready? && (cl.command.Message? || cl.command.ShutdownModule?))
    || cl.pc.Looking? || cl.pc.Launching? || cl.pc.Inserted? || cl.pc.Locking?
  }

  ghost predicate SomeMapped(s: State) { exists i :: 0 <= i < |s.scripts| && s.scripts[i].mem.mapped }

  ghost predicate SomeReaches(s: State) { exists c :: 0 <= c < |s.clients| && CanReach(s.clients[c]) }

  /** A script is still in the map and will delete itself, or a client can still reach the map. */
  ghost predicate MapReachable(s: State) { SomeMapped(s) || SomeReaches(s) }

  /** The shutdown has read zero, or has destroyed the map already. */
  ghost predicate MapGoing(s: State) {
    !s.g.mapLive || exists c :: 0 <= c < |s.clients| && s.clients[c].pc.Destroying?
  }

  // ---- nobody left: the map is not used ------------------------------------------------------

  lemma ClientCannotReach(s: State, c: Cid, fails: bool)
    requires Inv(s) && Enabled(s, ClientStep(c, fails)) && s.g.shutdown && !MapReachable(s)
    ensures
      var s' := StepClient(s, c, fails);
      && s'.g.shutdown && s'.g.mapFault == s.g.mapFault && !CanReach(s'.clients[c])
      && forall i :: 0 <= i < |s.scripts| ==> s'.scripts[i].mem.mapped == s.scripts[i].mem.mapped
  {
    assert !CanReach(s.clients[c]);
    assert Addressed(s.clients[c], |s.scripts|);
  }

  lemma UnreachableStep(s: State, a: Action)
    requires Inv(s) && Enabled(s, a) && s.g.shutdown && !MapReachable(s)
    ensures var s' := Apply(s, a); s'.g.shutdown && !MapReachable(s') && s'.g.mapFault == s.g.mapFault
  {
    match a
    case ClientStep(c, fails) => ClientCannotReach(s, c, fails);
    case ScriptStep(i, ends) =>
      assert LifeOk(s.scripts[i]) && !s.scripts[i].mem.mapped;
      OwnStepKeeps(s.scripts[i], s.g, ends);
    case _ =>
  }

  lemma {:induction false} UnreachableStays(states: seq<State>, actions: seq<Action>, n: nat)
    requires Continues(states, actions) && n < |states|
    requires Inv(states[0]) && states[0].g.shutdown && !MapReachable(states[0])
    ensures Inv(states[n]) && states[n].g.shutdown && !MapReachable(states[n])
    ensures states[n].g.mapFault == states[0].g.mapFault
  {
    if n > 0 {
      UnreachableStays(states, actions, n - 1);
      StepKeepsInv(states[n - 1], actions[n - 1]);
      UnreachableStep(states[n - 1], actions[n - 1]);
    }
  }

  // ---- somebody left: it can be --------------------------------------------------------------

  /** Some client or script can move as long as a script is in the map. */
  lemma SomebodyMoves(s: State, i: Sid) returns (a: Action)
    requires Inv(s) && i < |s.scripts| && s.scripts[i].mem.mapped
    ensures Enabled(s, a) && !a.OtherLaunched? && !a.OtherFinished?
  {
    if c :| 0 <= c < |s.clients| && !s.clients[c].pc.Finished? && !s.clients[c].pc.Waiting? {
      if s.g.lock.Some? {
        assert InSection(s.clients[s.g.lock.value].pc);
        a := ClientStep(s.g.lock.value, false);
      } else {
        a := ClientStep(c, false);
      }
    } else {
      assert LifeOk(s.scripts[i]);
      SumZero(s.clients, HeldBy(i));
      a := ScriptStep(i, true);
    }
  }

  /** A script leaves the map only by deleting itself, which is a use of the map. */
  lemma StaysOrFaults(s: State, a: Action, i: Sid)
    requires Inv(s) && Enabled(s, a) && !s.g.mapLive && i < |s.scripts| && s.scripts[i].mem.mapped
    ensures !Apply(s, a).g.mapLive
    ensures Apply(s, a).g.mapFault || (i < |Apply(s, a).scripts| && Apply(s, a).scripts[i].mem.mapped)
  {
    match a
    case ClientStep(c, fails) => ClientKeepsMapped(s, c, fails, i);
    case ScriptStep(j, ends) =>
      assert LifeOk(s.scripts[i]);
      OwnStepKeeps(s.scripts[j], s.g, ends);
    case _ =>
  }

  lemma ClientKeepsMapped(s: State, c: Cid, fails: bool, i: Sid)
    requires Enabled(s, ClientStep(c, fails)) && i < |s.scripts| && s.scripts[i].mem.mapped
    ensures StepClient(s, c, fails).scripts[i].mem.mapped
    ensures StepClient(s, c, fails).g.mapLive ==> s.g.mapLive
  {
  }

  lemma {:induction false} MappedScriptFaults(s: State, i: Sid)
    requires Inv(s) && !s.g.mapLive && i < |s.scripts| && s.scripts[i].mem.mapped
    ensures FaultPossible(s)
    decreases RegistryPotential(s)
  {
    var a := SomebodyMoves(s, i);
    StepKeepsInv(s, a);
    RegistryLowers(s, a);
    StaysOrFaults(s, a, i);
    if Apply(s, a).g.mapFault {
      FaultNow(Apply(s, a));
    } else {
      MappedScriptFaults(Apply(s, a), i);
    }
    FaultAfter(s, a);
  }

  /** A client that has come to the map without a script in it. */
  lemma ArrivedClientFaults(s: State, c: Cid)
    requires Inv(s) && !s.g.mapLive && s.g.lock == None && c < |s.clients|
    requires s.clients[c].pc.Looking? || s.clients[c].pc.Launching? || s.clients[c].pc.Locking?
    ensures FaultPossible(s)
  {
    assert Addressed(s.clients[c], |s.scripts|);
    FaultNow(Apply(s, ClientStep(c, false)));
    FaultAfter(s, ClientStep(c, false));
  }

  lemma InsertedIsMapped(s: State, c: Cid)
    requires Inv(s) && c < |s.clients| && s.clients[c].pc.Inserted?
    ensures SomeMapped(s)
  {
    var cl := s.clients[c];
    assert Addressed(cl, |s.scripts|);
    var i := Bound(cl, |s.scripts|).value;
    assert PairOk(cl, s.scripts[i]) && LifeOk(s.scripts[i]);
    assert s.scripts[i].mem.mapped;
  }

  lemma ReachingClientFaults(s: State, c: Cid)
    requires Inv(s) && !s.g.mapLive && s.g.lock == None && c < |s.clients| && CanReach(s.clients[c])
    ensures FaultPossible(s)
  {
    if s.clients[c].pc.Ready? {
      var s' := Apply(s, ClientStep(c, false));
      assert Addressed(s.clients[c], |s.scripts|);
      StepKeepsInv(s, ClientStep(c, false));
      ArrivedClientFaults(s', c);
      FaultAfter(s, ClientStep(c, false));
    } else if s.clients[c].pc.Inserted? {
      InsertedIsMapped(s, c);
      var i :| 0 <= i < |s.scripts| && s.scripts[i].mem.mapped;
      MappedScriptFaults(s, i);
    } else {
      ArrivedClientFaults(s, c);
    }
  }

  /** The step of the holder of the map mutex on its way through the map. */
  lemma HolderStep(s: State, h: Cid)
    requires Inv(s) && s.g.lock == Some(h)
    ensures Enabled(s, ClientStep(h, false)) && !CanReach(s.clients[h])
    ensures
      var s' := StepClient(s, h, false);
      && s'.g.mapLive == s.g.mapLive && |s'.scripts| == |s.scripts| && |s'.clients| == |s.clients|
      && (forall i :: 0 <= i < |s.scripts| ==> s'.scripts[i].mem.mapped == s.scripts[i].mem.mapped)
      && (forall c :: 0 <= c < |s.clients| && c != h ==> s'.clients[c] == s.clients[c])
      && !s.clients[h].pc.Destroying?
  {
    assert InSection(s.clients[h].pc) && Addressed(s.clients[h], |s.scripts|);
  }

  /** Letting the holder through and then the shutdown, nobody who can reach the map is touched. */
  lemma {:induction false} ReachableFaults(s: State)
    requires Inv(s) && MapGoing(s) && MapReachable(s)
    ensures FaultPossible(s)
    decreases RegistryPotential(s)
  {
    if s.g.lock.Some? || s.g.mapLive {
      var c := Clearing(s);
      ReachableFaults(Apply(s, ClientStep(c, false)));
      FaultAfter(s, ClientStep(c, false));
    } else if i :| 0 <= i < |s.scripts| && s.scripts[i].mem.mapped {
      MappedScriptFaults(s, i);
    } else {
      var c :| 0 <= c < |s.clients| && CanReach(s.clients[c]);
      ReachingClientFaults(s, c);
    }
  }

  /** The next to let through: the holder of the mutex, or then the shutdown. */
  lemma Clearing(s: State) returns (c: Cid)
    requires Inv(s) && MapGoing(s) && MapReachable(s) && (s.g.lock.Some? || s.g.mapLive)
    ensures Enabled(s, ClientStep(c, false))
    ensures
      var s' := Apply(s, ClientStep(c, false));
      Inv(s') && MapGoing(s') && MapReachable(s') && RegistryPotential(s') < RegistryPotential(s)
  {
    if s.g.lock.Some? {
      c := s.g.lock.value;
      HolderStep(s, c);
    } else {
      c :| 0 <= c < |s.clients| && s.clients[c].pc.Destroying?;
    }
    var a := ClientStep(c, false);
    StepKeepsInv(s, a);
    RegistryLowers(s, a);
    KeepsReachable(s, Apply(s, a), c);
  }

  lemma KeepsReachable(s: State, s': State, h: Cid)
    requires MapReachable(s) && MapGoing(s) && h < |s.clients| && !CanReach(s.clients[h])
    requires |s'.scripts| == |s.scripts| && |s'.clients| == |s.clients|
    requires forall i :: 0 <= i < |s.scripts| ==> s'.scripts[i].mem.mapped == s.scripts[i].mem.mapped
    requires forall c :: 0 <= c < |s.clients| && c != h ==> s'.clients[c] == s.clients[c]
    requires (s'.g.mapLive == s.g.mapLive && !s.clients[h].pc.Destroying?) || !s'.g.mapLive
    ensures MapReachable(s') && MapGoing(s')
  {
    if SomeMapped(s) {
      var i :| 0 <= i < |s.scripts| && s.scripts[i].mem.mapped;
      assert s'.scripts[i].mem.mapped;
    } else {
      var c :| 0 <= c < |s.clients| && CanReach(s.clients[c]);
      assert CanReach(s'.clients[c]);
    }
    if s'.g.mapLive {
      var d :| 0 <= d < |s.clients| && s.clients[d].pc.Destroying?;
      assert s'.clients[d].pc.Destroying?;
    }
  }

  // ---- the exact condition -------------------------------------------------------------------

  /** Past its beginning the shutdown has raised the flag, and it destroys the map only then. */
  ghost predicate FlagFirst(s: State) {
    && (!s.g.mapLive ==> s.g.shutdown)
    && forall c :: 0 <= c < |s.clients| && s.clients[c].command.ShutdownModule? && !s.clients[c].pc.Ready? ==>
         s.g.shutdown
  }

  lemma FlagFirstStep(s: State, a: Action)
    requires Inv(s) && Enabled(s, a) && FlagFirst(s)
    ensures FlagFirst(Apply(s, a))
  {
    match a
    case ClientStep(c, fails) =>
      assert Addressed(s.clients[c], |s.scripts|);
      FlagFirstOwn(c, s.clients[c], s.g, fails, |s.scripts|);
    case _ =>
  }

  lemma FlagFirstOwn(c: Cid, cl: Client, g: Globals, fails: bool, n: nat)
    requires Addressed(cl, n) && (!g.mapLive ==> g.shutdown)
    requires cl.command.ShutdownModule? && !cl.pc.Ready? ==> g.shutdown
    ensures
      var g' := if Target(cl, n).Some? then GlobalsAfter(cl, g, fails) else WithoutScript(c, cl, g).1;
      && (g.shutdown ==> g'.shutdown) && (!g'.mapLive ==> g'.shutdown)
      && (cl.command.ShutdownModule? ==> g'.shutdown)
  {
  }

  lemma {:induction false} FlagIsFirst(states: seq<State>, actions: seq<Action>, k: nat)
    requires Run(states, actions) && k < |states|
    ensures FlagFirst(states[k])
  {
    if k > 0 {
      FlagIsFirst(states, actions, k - 1);
      RunKeepsInv(states, actions, k - 1);
      FlagFirstStep(states[k - 1], actions[k - 1]);
    }
  }

  /** Once the shutdown has read zero, the map can still be used after its destruction if and only if
      some script is in it or some client can still reach it. */
  lemma MapUsedAfterDestroyIff(states: seq<State>, actions: seq<Action>, k: nat)
    requires Run(states, actions) && k < |states| && MapGoing(states[k]) && !states[k].g.mapFault
    ensures FaultPossible(states[k]) <==> MapReachable(states[k])
  {
    var s := states[k];
    RunKeepsInv(states, actions, k);
    FlagIsFirst(states, actions, k);
    GoingIsFlagged(s);
    if MapReachable(s) {
      ReachableFaults(s);
    } else if FaultPossible(s) {
      var more: seq<State>, steps: seq<Action> :| Continues(more, steps) && more[0] == s && more[|steps|].g.mapFault;
      UnreachableStays(more, steps, |steps|);
    }
  }

  lemma GoingIsFlagged(s: State)
    requires Inv(s) && FlagFirst(s) && MapGoing(s)
    ensures s.g.shutdown
  {
    if s.g.mapLive {
      var c :| 0 <= c < |s.clients| && s.clients[c].pc.Destroying?;
      assert Addressed(s.clients[c], |s.scripts|);
    }
  }

  /** At the zero reading itself a script is in the map exactly if a foreground script has not deleted
      itself yet, or a launching command stands behind its insertion. */
  lemma ZeroReadingLeaves(s: State)
    requires Inv(s) && s.g.active == 0
    ensures s.g.others == 0
    ensures SomeMapped(s) <==>
      || (exists i :: 0 <= i < |s.scripts| && !s.scripts[i].background
                      && Launched(s.scripts[i].pc) && InMap(s.scripts[i].pc))
      || (exists c :: 0 <= c < |s.clients| && s.clients[c].pc.Inserted?)
  {
    SumZero(s.scripts, Active);
    if i :| 0 <= i < |s.scripts| && s.scripts[i].mem.mapped {
      assert LifeOk(s.scripts[i]) && Active(s.scripts[i]) == 0;
      if s.scripts[i].pc.Mapped? {
        var c :| 0 <= c < |s.clients| && Launches(s.clients[c], i) && s.clients[c].pc.Inserted?;
      }
    }
    if i :| 0 <= i < |s.scripts| && !s.scripts[i].background && Launched(s.scripts[i].pc) && InMap(s.scripts[i].pc) {
      assert LifeOk(s.scripts[i]) && s.scripts[i].mem.mapped;
    }
    if c :| 0 <= c < |s.clients| && s.clients[c].pc.Inserted? { InsertedIsMapped(s, c); }
  }

  // ---- runs without a foreground script in which the map is used too late --------------------

  /** The shutdown by client 0 up to its wait loop, no script being there. */
  lemma ShutdownWaits() returns (states: seq<State>, actions: seq<Action>)
    ensures Run(states, actions)
    ensures
      var s := states[|actions|];
      && s.scripts == [] && s.clients == [Client(ShutdownModule, Waiting), Client(Message(0), Ready)]
      && s.g == Globals(None, true, 0, 0, true, false)
  {
    states, actions :=
      [State([], [Client(ShutdownModule, Ready), Client(Message(0), Ready)],
             Globals(None, false, 0, 0, true, false))], [];
    states, actions := Extend(states, actions, ClientStep(0, false));
    states, actions := Extend(states, actions, ClientStep(0, false));
    states, actions := Extend(states, actions, ClientStep(0, false));
  }

  /** A chat message that comes after the shutdown looks into the destroyed map. */
  lemma MessageAfterShutdown() returns (states: seq<State>, actions: seq<Action>)
    ensures Run(states, actions)
    ensures
      var s := states[|actions|];
      s.scripts == [] && |s.clients| == 2 && s.clients[0] == Client(ShutdownModule, Finished) && s.g.mapFault
  {
    states, actions := ShutdownWaits();
    states, actions := Extend(states, actions, ClientStep(0, false));
    states, actions := Extend(states, actions, ClientStep(0, false));
    states, actions := Extend(states, actions, ClientStep(1, false));
    states, actions := Extend(states, actions, ClientStep(1, false));
  }

  /** A `run-bg` command has seen the flag down, and then the shutdown takes the map mutex. */
  lemma SweepBesideLaunch() returns (states: seq<State>, actions: seq<Action>)
    ensures Run(states, actions)
    ensures
      var s := states[|actions|];
      && s.scripts == [NewScript(0)] && s.g == Globals(Some(0), true, 0, 0, true, false)
      && s.clients == [Client(ShutdownModule, Sweeping(0)), Client(RunScript(0, true), Launching)]
  {
    states, actions :=
      [State([NewScript(0)], [Client(ShutdownModule, Ready), Client(RunScript(0, true), Ready)],
             Globals(None, false, 0, 0, true, false))], [];
    states, actions := Extend(states, actions, ClientStep(1, false));
    states, actions := Extend(states, actions, ClientStep(0, false));
    states, actions := Extend(states, actions, ClientStep(0, false));
  }

  lemma ShutDownBesideLaunch() returns (states: seq<State>, actions: seq<Action>)
    ensures Run(states, actions)
    ensures
      var s := states[|actions|];
      && s.scripts == [NewScript(0)] && s.g == Globals(None, true, 0, 0, true, false)
      && s.clients == [Client(ShutdownModule, Waiting), Client(RunScript(0, true), Launching)]
  {
    states, actions := SweepBesideLaunch();
    states, actions := Extend(states, actions, ClientStep(0, false));
    states, actions := Extend(states, actions, ClientStep(0, false));
  }

  /** That command inserts into the destroyed map, and starts its script after the shutdown has
      returned. */
  lemma LaunchAfterShutdown() returns (states: seq<State>, actions: seq<Action>)
    ensures Run(states, actions)
    ensures
      var s := states[|actions|];
      && |s.scripts| == 1 && s.scripts[0].pc == Begin && s.scripts[0].background && s.g.mapFault
      && |s.clients| == 2 && s.clients[0] == Client(ShutdownModule, Finished)
  {
    states, actions := ShutDownBesideLaunch();
    states, actions := Extend(states, actions, ClientStep(0, false));
    states, actions := Extend(states, actions, ClientStep(0, false));
    states, actions := Extend(states, actions, ClientStep(1, false));
    states, actions := Extend(states, actions, ClientStep(1, false));
  }
}
