/** Progress of scripts and clients: every step of theirs uses up some of a potential, and whoever
    waits for the map mutex or for a semaphore waits for somebody who can take such a step. */
module RegistryProgress {
  import opened Sums
  import P = Playback
  import R = Registry

  predicate CanWork(sc: R.Script) { sc.pc.Running? && sc.fuel > 0 }


  /** One operation of a script costs more than anything it can set in motion. */
  const OPERATION: nat := P.CALL_COST + 10

  function ScriptRank(pc: R.ScriptPc): nat {
    match pc
    case Unborn => 13
    case Mapped => 12
    case Begin => 11
    case Registering => 10
    case Setup => 9
    case Running => 8
    case Out => 7
    case Draining => 6
    case FreeingRuntime => 5
    case ClearingReady => 4
    case Deleting => 3
    case FreeingPool => 2
    case Finishing => 1
    case Done => 0
  }

  function ScriptPotential(sc: R.Script): nat { sc.fuel * OPERATION + ScriptRank(sc.pc) }

  /** With n scripts, a sweep visits at most n entries. */
  function ClientRank(pc: R.ClientPc, n: nat): nat {
    match pc
    case Ready => 4 * n + 8
    case Looking => 3
    case Holding(_) => 2
    case Releasing(_) => 1
    case Launching => 2
    case Inserted => 1
    case Locking => 4 * n + 7
    case Sweeping(at) => if at <= n then 4 * (n - at) + 3 else 3
    case Visiting(at) => if at <= n then 4 * (n - at) + 2 else 2
    case Marked(at) => if at <= n then 4 * (n - at) + 1 else 1
    case Waiting => 2
    case Destroying => 1
    case Finished => 0
  }

  function RankAmong(n: nat): R.Client -> nat { (cl: R.Client) => ClientRank(cl.pc, n) }


  function RegistryPotential(s: R.State): nat {
    Sum(s.scripts, ScriptPotential) + Sum(s.clients, RankAmong(|s.scripts|))
  }

  lemma ScriptStepLowers(sc: R.Script, g: R.Globals, ends: bool)
    requires R.ScriptEnabled(sc, g)
    ensures
      var sc' := R.OwnStep(sc, g.shutdown, ends);
      && ((sc'.fuel == sc.fuel && ScriptRank(sc'.pc) < ScriptRank(sc.pc))
          || (sc'.fuel == sc.fuel - 1 && sc'.pc == sc.pc))
    ensures CanWork(sc) ==> R.OwnStep(sc, g.shutdown, false) == sc.(fuel := sc.fuel - 1)
  {
  }

  lemma FuelCosts(sc: R.Script, sc': R.Script)
    requires sc'.fuel == sc.fuel - 1 && sc'.pc == sc.pc
    ensures ScriptPotential(sc') + OPERATION == ScriptPotential(sc)
  {
    assert sc.fuel * OPERATION == sc'.fuel * OPERATION + OPERATION;
  }

  lemma WithScriptLowers(cl: R.Client, sc: R.Script, g: R.Globals, fails: bool, n: nat)
    requires R.ClientEnabled(cl, g) && R.Addressed(cl, n) && R.PairOk(cl, sc) && R.Target(cl, n).Some?
    ensures ScriptPotential(R.ScriptAfter(cl, sc, fails)) <= ScriptPotential(sc)
    ensures ClientRank(R.PcAfter(cl, sc, fails), n) < ClientRank(cl.pc, n)
  {
    R.ScriptAfterLife(cl, sc, fails);
    ScriptAfterFuel(cl, sc, fails);
  }

  lemma ScriptAfterFuel(cl: R.Client, sc: R.Script, fails: bool)
    ensures R.ScriptAfter(cl, sc, fails).fuel == sc.fuel
  {
  }

  lemma WithoutScriptLowers(c: R.Cid, cl: R.Client, g: R.Globals, n: nat)
    requires R.ClientEnabled(cl, g) && R.Addressed(cl, n) && R.Target(cl, n) == None
    ensures ClientRank(R.WithoutScript(c, cl, g).0, n) < ClientRank(cl.pc, n)
  {
  }

  lemma RegistryLowers(s: R.State, r: R.Action)
    requires R.Inv(s) && R.Enabled(s, r) && !r.OtherLaunched? && !r.OtherFinished?
    ensures RegistryPotential(R.Apply(s, r)) < RegistryPotential(s)
  {
    var n := |s.scripts|;
    if r.ScriptStep? {
      var sc, sc' := s.scripts[r.i], R.OwnStep(s.scripts[r.i], s.g.shutdown, r.ends);
      ScriptStepLowers(sc, s.g, r.ends);
      if sc'.fuel != sc.fuel { FuelCosts(sc, sc'); }
      SumUpdate(s.scripts, r.i, sc', ScriptPotential);
    } else {
      var cl := s.clients[r.c];
      var s' := R.StepClient(s, r.c, r.fails);
      assert R.Addressed(cl, n);
      SumUpdate(s.clients, r.c, s'.clients[r.c], RankAmong(n));
      match R.Target(cl, n)
      case Some(i) =>
        assert R.PairOk(cl, s.scripts[i]);
        WithScriptLowers(cl, s.scripts[i], s.g, r.fails, n);
        SumUpdate(s.scripts, i, s'.scripts[i], ScriptPotential);
      case None => WithoutScriptLowers(r.c, cl, s.g, n);
    }
  }

  lemma WorkLowers(s: R.State, i: R.Sid)
    requires i < |s.scripts| && CanWork(s.scripts[i])
    ensures RegistryPotential(R.StepScript(s, i, false)) + OPERATION == RegistryPotential(s)
  {
    var sc' := R.OwnStep(s.scripts[i], s.g.shutdown, false);
    ScriptStepLowers(s.scripts[i], s.g, false);
    FuelCosts(s.scripts[i], sc');
    SumUpdate(s.scripts, i, sc', ScriptPotential);
  }

  lemma ClientKeepsOthers(c: R.Cid, cl: R.Client, g: R.Globals, fails: bool)
    ensures R.GlobalsAfter(cl, g, fails).others == g.others && R.WithoutScript(c, cl, g).1.others == g.others
  {
  }

  lemma OthersKept(s: R.State, r: R.Action)
    requires R.Enabled(s, r) && !r.OtherLaunched? && !r.OtherFinished?
    ensures R.Apply(s, r).g.others == s.g.others && |R.Apply(s, r).scripts| == |s.scripts|
  {
    if r.ClientStep? { ClientKeepsOthers(r.c, s.clients[r.c], s.g, r.fails); }
  }
}
