/** What a sweep over the map of scripts achieves: the shutdown of mod_quickjs.c tells every script
    that was ready while it swept to stop. */
module MapSweep {
  import opened Sums
  import opened Registry

  /** An interrupt once requested stays requested. */
  predicate KeepsInterrupt(sc: Script, sc': Script) { sc.flags.interrupt ==> sc'.flags.interrupt }

  lemma ScriptAfterKeeps(cl: Client, sc: Script, fails: bool)
    ensures
      var sc' := ScriptAfter(cl, sc, fails);
      && KeepsInterrupt(sc, sc') && sc'.fuel == sc.fuel
      && (sc.mem.mapped != sc'.mem.mapped ==> cl.pc.Launching?)
  {
  }

  lemma OwnStepInterrupt(sc: Script, shutdown: bool, ends: bool)
    ensures KeepsInterrupt(sc, OwnStep(sc, shutdown, ends))
    ensures OwnStep(sc, shutdown, ends).mem.mapped != sc.mem.mapped ==> sc.pc.Deleting?
  {
  }

  predicate ReadyIn(s: State, i: Sid) {
    i < |s.scripts| && s.scripts[i].mem.mapped && s.scripts[i].flags.ready
  }

  /** The script was in the map and ready in all of these states. */
  ghost predicate ReadyDuring(states: seq<State>, m: nat, n: nat, i: Sid) {
    forall k :: m <= k <= n && k < |states| ==> ReadyIn(states[k], i)
  }

  /** How many slots the sweep has behind it. */
  function SlotsDone(cl: Client, n: nat): nat {
    match cl.pc
    case Sweeping(at) => at
    case Visiting(at) => at
    case Marked(at) => at + 1
    case Waiting => n
    case _ => 0
  }

  /** The sweep has not passed script i without telling it. */
  predicate Told(s: State, c: Cid, i: Sid)
    requires c < |s.clients|
  {
    i < SlotsDone(s.clients[c], |s.scripts|) && i < |s.scripts| ==> s.scripts[i].flags.interrupt
  }

  /** One slot further, only a script that is not ready now is passed without being told. */
  lemma OwnSweepStep(cl: Client, sc: Script, fails: bool, n: nat)
    requires cl.command.ShutdownModule? && InSection(cl.pc) && Addressed(cl, n) && Target(cl, n).Some?
    ensures
      var (cl', i) := (cl.(pc := PcAfter(cl, sc, fails)), Target(cl, n).value);
      && (SlotsDone(cl', n) == SlotsDone(cl, n) || (SlotsDone(cl, n) == i && SlotsDone(cl', n) == i + 1))
      && (SlotsDone(cl', n) == i + 1 && SlotsDone(cl, n) == i && sc.mem.mapped && sc.flags.ready ==>
            ScriptAfter(cl, sc, fails).flags.interrupt)
      && (SlotsDone(cl, n) <= i + 1)
  {
  }

  lemma ToldStep(s: State, a: Action, c: Cid, i: Sid)
    requires Inv(s) && Enabled(s, a) && c < |s.clients| && InSection(s.clients[c].pc)
    requires s.clients[c].command.ShutdownModule? && ReadyIn(s, i) && Told(s, c, i)
    ensures c < |Apply(s, a).clients| && Told(Apply(s, a), c, i)
  {
    match a
    case ClientStep(d, fails) =>
      var cl, n := s.clients[d], |s.scripts|;
      assert Addressed(cl, n);
      if Target(cl, n).Some? {
        var j := Target(cl, n).value;
        ScriptAfterKeeps(cl, s.scripts[j], fails);
        if d == c { OwnSweepStep(cl, s.scripts[j], fails, n); }
      }
    case ScriptStep(j, ends) => OwnStepInterrupt(s.scripts[j], s.g.shutdown, ends);
    case _ =>
  }

  /** From taking the map mutex at m up to state n the client does nothing but sweep. */
  ghost predicate SweptFrom(states: seq<State>, m: nat, n: nat, c: Cid) {
    && m <= n < |states|
    && (forall k :: m <= k <= n ==> c < |states[k].clients| && states[k].clients[c].command.ShutdownModule?)
    && states[m].clients[c].pc == Sweeping(0)
    && forall k :: m <= k < n ==> InSection(states[k].clients[c].pc)
  }

  /** So far a script that was ready all the time is told to stop. */
  lemma {:induction false} SweepTells(states: seq<State>, actions: seq<Action>, m: nat, n: nat, c: Cid, i: Sid)
    requires Run(states, actions) && SweptFrom(states, m, n, c) && ReadyDuring(states, m, n, i)
    ensures c < |states[n].clients| && Told(states[n], c, i)
    decreases n
  {
    if m < n {
      SweepTells(states, actions, m, n - 1, c, i);
      RunKeepsInv(states, actions, n - 1);
      ToldStep(states[n - 1], actions[n - 1], c, i);
    }
  }

  /** When the shutdown goes on to wait, every script that stayed in the map and ready throughout its
      sweep has its interrupt flag set. */
  lemma ShutdownTellsReady(states: seq<State>, actions: seq<Action>, m: nat, n: nat, c: Cid, i: Sid)
    requires Run(states, actions) && SweptFrom(states, m, n, c) && states[n].clients[c].pc.Waiting?
    requires ReadyDuring(states, m, n, i)
    ensures i < |states[n].scripts| && states[n].scripts[i].flags.interrupt
  {
    SweepTells(states, actions, m, n, c, i);
    assert ReadyIn(states[n], i);
  }
}
