/** Infinite runs of the whole module under a fair scheduler. At each tick some thread is given the
    processor; it takes its next step if it can, and otherwise yields or blocks, which changes
    nothing. With finitely many commands and scripts that perform finitely many operations, every
    such run comes to rest: all wait loops end, and no thread is left. */
module FairRuns {
  import opened Sums
  import opened WholeSystem
  import R = Registry
  import O = Objects

  datatype Thread = ClientThread(c: R.Cid) | ScriptThread(i: R.Sid) | ObjectThread(o: nat, t: nat)

  ghost function ActorOf(s: State, a: Action): Thread
    requires Enabled(s, a)
  {
    match a
    case OfRegistry(r) => if r.ClientStep? then ClientThread(r.c) else ScriptThread(r.i)
    case NewObject(i, _) => ScriptThread(i)
    case BeginOn(i, _, _) => ScriptThread(i)
    case Continue(i, _) => ScriptThread(i)
    case OfThread(o, x) => ObjectThread(o, O.ThreadOf(x))
  }

  /** The thread exists and has not ended. */
  ghost predicate Live(s: State, th: Thread) {
    match th
    case ClientThread(c) => c < |s.reg.clients| && !s.reg.clients[c].pc.Finished?
    case ScriptThread(i) => i < |s.reg.scripts| && R.Launched(s.reg.scripts[i].pc)
    case ObjectThread(o, t) => o < |s.slots| && O.ThreadAlive(s.slots[o].obj, t)
  }

  ghost predicate Moves(s: State, th: Thread, a: Action) {
    Enabled(s, a) && ActorOf(s, a) == th
  }

  /** One tick given to thread th. */
  ghost predicate Tick(s: State, th: Thread, s': State) {
    if CanMove(s, th) then exists a :: Moves(s, th, a) && s' == Apply(s, a) else s' == s
  }

  /** Every live thread is given a tick again and again. */
  ghost predicate FairRun(st: nat -> State, who: nat -> Thread) {
    && Init(st(0))
    && (forall k: nat :: Tick(st(k), who(k), st(k + 1)))
    && (forall k: nat, th :: Live(st(k), th) ==> Scheduled(who, th, k))
  }

  ghost predicate Scheduled(who: nat -> Thread, th: Thread, k: nat) {
    exists j: nat :: k <= j && who(j) == th
  }

  lemma RegistryMoverIsLive(s: R.State, r: R.Action)
    requires R.Enabled(s, r) && !r.OtherLaunched? && !r.OtherFinished?
    ensures
      if r.ClientStep? then r.c < |s.clients| && !s.clients[r.c].pc.Finished?
      else r.i < |s.scripts| && R.Launched(s.scripts[r.i].pc)
  {
  }

  lemma ObjectMoverIsLive(x: O.Object, a: O.Action)
    ensures O.Enabled(x, a) && O.ByThread(a) ==> O.ThreadAlive(x, O.ThreadOf(a))
  {
  }

  lemma MoverIsLive(s: State, a: Action)
    requires Inv(s) && Enabled(s, a)
    ensures Live(s, ActorOf(s, a))
  {
    match a
    case OfRegistry(r) => RegistryMoverIsLive(s.reg, r);
    case Continue(i, x) => assert BusyOk(s, i);
    case OfThread(o, x) => ObjectMoverIsLive(s.slots[o].obj, x);
    case _ =>
  }

  lemma TickKeepsInv(s: State, th: Thread, s': State)
    requires Inv(s) && Tick(s, th, s')
    ensures Inv(s')
    ensures s' != s ==> Potential(s') < Potential(s)
    ensures CanMove(s, th) ==> Potential(s') < Potential(s)
  {
    if CanMove(s, th) {
      var a :| Moves(s, th, a) && s' == Apply(s, a);
      StepKeepsInv(s, a);
      StepLowers(s, a);
    }
  }

  lemma {:induction false} FairRunKeepsInv(st: nat -> State, who: nat -> Thread, k: nat)
    requires FairRun(st, who)
    ensures Inv(st(k))
  {
    if k == 0 {
      InitInv(st(0));
    } else {
      FairRunKeepsInv(st, who, k - 1);
      assert Tick(st(k - 1), who(k - 1), st(k - 1 + 1));
      TickKeepsInv(st(k - 1), who(k - 1), st(k));
    }
  }

  ghost predicate CanMove(s: State, th: Thread) { exists a :: Moves(s, th, a) }

  /** While something is unfinished, a tick will come at which the scheduled thread moves; up to
      then nothing changes. */
  lemma NextMove(st: nat -> State, who: nat -> Thread, k: nat) returns (m: nat)
    requires FairRun(st, who) && Inv(st(k)) && !Quiescent(st(k))
    ensures m >= k && st(m) == st(k) && CanMove(st(m), who(m))
  {
    var a := SomebodyMoves(st(k));
    var th := ActorOf(st(k), a);
    MoverIsLive(st(k), a);
    assert Scheduled(who, th, k);
    var j: nat :| k <= j && who(j) == th;
    assert Moves(st(k), th, a);
    m := k;
    while m < j && !CanMove(st(m), who(m))
      invariant k <= m <= j && st(m) == st(k)
    {
      assert Tick(st(m), who(m), st(m + 1));
      m := m + 1;
    }
  }

  lemma PotentialFalls(st: nat -> State, who: nat -> Thread, k: nat) returns (m: nat)
    requires FairRun(st, who) && !Quiescent(st(k))
    ensures m > k && Potential(st(m)) < Potential(st(k))
  {
    FairRunKeepsInv(st, who, k);
    m := NextMove(st, who, k);
    assert Tick(st(m), who(m), st(m + 1));
    TickKeepsInv(st(m), who(m), st(m + 1));
    m := m + 1;
  }

  /** From any moment on the module comes to rest. */
  lemma {:induction false} Settles(st: nat -> State, who: nat -> Thread, k: nat) returns (n: nat)
    requires FairRun(st, who)
    ensures n >= k && Quiescent(st(n))
    decreases Potential(st(k))
  {
    if Quiescent(st(k)) {
      n := k;
    } else {
      var m := PotentialFalls(st, who, k);
      n := Settles(st, who, m);
    }
  }

  /** At rest every counter is zero, every object finalized and every launched script gone. */
  lemma AtRest(s: State)
    requires Inv(s) && Quiescent(s)
    ensures s.reg.g.active == 0
    ensures forall o :: 0 <= o < |s.slots| ==> O.Freed(s.slots[o].obj)
    ensures forall i :: 0 <= i < |s.reg.scripts| ==>
        s.reg.scripts[i].sem == 0 && !s.reg.scripts[i].mem.poolLive && s.busy[i] == None
  {
    SumZero(s.reg.scripts, R.Active);
    SumZero(s.slots, SlotThreads);
    forall o | 0 <= o < |s.slots| ensures O.Freed(s.slots[o].obj) { assert SlotOk(s, o); }
    forall i | 0 <= i < |s.reg.scripts|
      ensures s.reg.scripts[i].sem == 0 && !s.reg.scripts[i].mem.poolLive && s.busy[i] == None
    {
      assert R.LifeOk(s.reg.scripts[i]) && BusyOk(s, i);
      SumZero(s.reg.clients, R.HeldBy(i));
    }
  }

  /** And nothing can happen any more. */
  lemma NothingAfterRest(s: State, a: Action)
    requires Inv(s) && Quiescent(s)
    ensures !Enabled(s, a)
  {
    AtRest(s);
    if a.OfThread? && a.o < |s.slots| {
      O.NoLiveThreads(s.slots[a.o].obj);
      ObjectMoverIsLive(s.slots[a.o].obj, a.x);
    }
  }

  /** Every fair run ends: from some moment on nothing changes any more, all commands including the
      shutdown are answered, no thread is active, all objects are finalized, and every script that
      was launched is gone. In particular every drain loop reads zero in the end. */
  lemma EveryFairRunEnds(st: nat -> State, who: nat -> Thread) returns (n: nat)
    requires FairRun(st, who)
    ensures Quiescent(st(n)) && st(n).reg.g.active == 0
    ensures forall o :: 0 <= o < |st(n).slots| ==> O.Freed(st(n).slots[o].obj)
    ensures forall i :: 0 <= i < |st(n).reg.scripts| ==>
        st(n).reg.scripts[i].sem == 0 && !st(n).reg.scripts[i].mem.poolLive
    ensures forall m: nat :: m >= n ==> st(m) == st(n)
  {
    n := Settles(st, who, 0);
    FairRunKeepsInv(st, who, n);
    AtRest(st(n));
    forall a ensures !Enabled(st(n), a) { NothingAfterRest(st(n), a); }
    forall m: nat | m >= n ensures st(m) == st(n) { StaysAtRest(st, who, n, m); }
  }

  lemma {:induction false} StaysAtRest(st: nat -> State, who: nat -> Thread, n: nat, m: nat)
    requires FairRun(st, who) && m >= n && forall a :: !Enabled(st(n), a)
    ensures st(m) == st(n)
    decreases m
  {
    if m > n {
      StaysAtRest(st, who, n, m - 1);
      assert Tick(st(m - 1), who(m - 1), st(m - 1 + 1));
    }
  }

  lemma {:induction false} Descends(w: seq<nat>, k: nat)
    requires k < |w| && forall i :: 0 <= i < |w| - 1 ==> w[i + 1] < w[i]
    ensures k + w[k] <= w[0]
  {
    if k > 0 { Descends(w, k - 1); }
  }

  /** A run has no more moves than its first state has potential, fair or not. */
  lemma MovesAreBounded(states: seq<State>, actions: seq<Action>)
    requires Run(states, actions)
    ensures |actions| <= Potential(states[0])
  {
    var w := seq(|states|, i requires 0 <= i < |states| => Potential(states[i]));
    forall i | 0 <= i < |w| - 1 ensures w[i + 1] < w[i] {
      RunKeepsInv(states, actions, i);
      StepLowers(states[i], actions[i]);
    }
    Descends(w, |actions|);
  }
}
