/** The whole module: scripts, the clients that reach them, the objects scripts own and the
    detached threads of those objects, all interleaved. A script thread is inside an operation on
    one of its objects or at a step of its own; freeing its runtime finalizes its objects. */
module WholeSystem {
  import opened Sums
  import opened RegistryProgress
  import R = Registry
  import O = Objects
  import P = Playback
  import C = CurlJobs

  datatype Slot = Slot(owner: R.Sid, obj: O.Object)

  /** `busy[i]` is the object that script i is inside an operation on. */
  datatype State = State(reg: R.State, slots: seq<Slot>, busy: seq<Option<nat>>)

  datatype Action =
    | OfRegistry(r: R.Action)
    | NewObject(i: R.Sid, obj: O.Object)
    | BeginOn(i: R.Sid, o: nat, x: O.Action)
    | Continue(i: R.Sid, x: O.Action)
    | OfThread(o: nat, x: O.Action)

  ghost predicate AllFreed(s: State, i: R.Sid) {
    forall o :: 0 <= o < |s.slots| && s.slots[o].owner == i ==> O.Freed(s.slots[o].obj)
  }

  predicate Free(s: State, i: R.Sid) {
    i < |s.reg.scripts| && i < |s.busy| && s.busy[i] == None
  }

  ghost predicate Enabled(s: State, a: Action) {
    match a
    case OfRegistry(r) =>
      && R.Enabled(s.reg, r) && !r.OtherLaunched? && !r.OtherFinished?
      && (r.ScriptStep? ==> Free(s, r.i) && (s.reg.scripts[r.i].pc.FreeingRuntime? ==> AllFreed(s, r.i)))
    case NewObject(i, obj) =>
      && Free(s, i) && CanWork(s.reg.scripts[i])
      && (obj == O.SessionObject(P.INITIAL) || obj == O.CurlObject(C.INITIAL))
    case BeginOn(i, o, x) =>
      && Free(s, i) && o < |s.slots| && s.slots[o].owner == i
      && O.Enabled(s.slots[o].obj, x) && O.Reads(x, s.reg.g.shutdown)
      && (O.BeginsCall(x) || O.BeginsFinalizer(x))
      && (CanWork(s.reg.scripts[i]) || (s.reg.scripts[i].pc.FreeingRuntime? && O.BeginsFinalizer(x)))
    case Continue(i, x) =>
      && i < |s.reg.scripts| && i < |s.busy| && s.busy[i].Some? && s.busy[i].value < |s.slots|
      && O.Enabled(s.slots[s.busy[i].value].obj, x) && O.Reads(x, s.reg.g.shutdown)
      && !O.ByThread(x) && !O.BeginsCall(x) && !O.BeginsFinalizer(x)
    case OfThread(o, x) =>
      o < |s.slots| && O.Enabled(s.slots[o].obj, x) && O.Reads(x, s.reg.g.shutdown) && O.ByThread(x)
  }

  function SetObject(s: State, o: nat, obj: O.Object): State
    requires o < |s.slots|
  {
    s.(slots := s.slots[o := s.slots[o].(obj := obj)])
  }

  /** The script remains inside the operation unless that is over. */
  function StillOn(o: nat, obj: O.Object): Option<nat> {
    if O.Idle(obj) || O.Freed(obj) then None else Some(o)
  }

  ghost function Apply(s: State, a: Action): State
    requires Enabled(s, a)
  {
    match a
    case OfRegistry(r) => s.(reg := R.Apply(s.reg, r))
    case NewObject(i, obj) => s.(reg := R.StepScript(s.reg, i, false), slots := s.slots + [Slot(i, obj)])
    case BeginOn(i, o, x) =>
      var obj := O.Apply(s.slots[o].obj, x);
      SetObject(s, o, obj).(
        reg := if s.reg.scripts[i].pc.Running? then R.StepScript(s.reg, i, false) else s.reg,
        busy := s.busy[i := StillOn(o, obj)])
    case Continue(i, x) =>
      var o := s.busy[i].value;
      var obj := O.Apply(s.slots[o].obj, x);
      SetObject(s, o, obj).(
        reg := if O.LaunchesThread(x) then R.LaunchOther(s.reg) else s.reg,
        busy := s.busy[i := StillOn(o, obj)])
    case OfThread(o, x) =>
      SetObject(s, o, O.Apply(s.slots[o].obj, x))
        .(reg := if O.EndsThread(s.slots[o].obj, x) then R.FinishOther(s.reg) else s.reg)
  }

  // ---- the invariant ---------------------------------------------------------------------

  /** The stretch of a script's life in which its objects may exist unfreed. */
  predicate Hosts(pc: R.ScriptPc) { pc.Running? || pc.Out? || pc.Draining? || pc.FreeingRuntime? }

  function SlotThreads(slot: Slot): nat { O.LiveThreads(slot.obj) }

  predicate Engaged(obj: O.Object) { !O.Idle(obj) && !O.Freed(obj) }

  ghost predicate SlotOk(s: State, o: nat)
    requires o < |s.slots|
  {
    var slot := s.slots[o];
    && O.Inv(slot.obj)
    && slot.owner < |s.reg.scripts| && slot.owner < |s.busy|
    && (!O.Freed(slot.obj) ==> Hosts(s.reg.scripts[slot.owner].pc))
    && (Engaged(slot.obj) <==> s.busy[slot.owner] == Some(o))
  }

  ghost predicate BusyOk(s: State, i: R.Sid)
    requires i < |s.reg.scripts| && i < |s.busy|
  {
    s.busy[i].Some? ==>
      && s.busy[i].value < |s.slots| && s.slots[s.busy[i].value].owner == i
      && (s.reg.scripts[i].pc.Running? || s.reg.scripts[i].pc.FreeingRuntime?)
  }

  ghost predicate Inv(s: State) {
    && R.Inv(s.reg)
    && |s.busy| == |s.reg.scripts|
    && (forall o :: 0 <= o < |s.slots| ==> SlotOk(s, o))
    && (forall i :: 0 <= i < |s.busy| ==> BusyOk(s, i))
    && s.reg.g.others == Sum(s.slots, SlotThreads)
  }

  ghost predicate Init(s: State) {
    R.Init(s.reg) && s.slots == [] && |s.busy| == |s.reg.scripts| && forall i :: 0 <= i < |s.busy| ==> s.busy[i] == None
  }

  lemma InitInv(s: State)
    requires Init(s)
    ensures Inv(s)
  {
    R.InitInv(s.reg);
  }

  // ---- every step keeps it ---------------------------------------------------------------

  /** A step of the registry keeps the life of every script but the stepping one's, and that one
      leaves the hosting stretch only by freeing its runtime. */
  lemma RegistryStepHosts(s: R.State, r: R.Action, i: R.Sid)
    requires R.Inv(s) && R.Enabled(s, r) && i < |s.scripts|
    ensures i < |R.Apply(s, r).scripts| && |R.Apply(s, r).scripts| == |s.scripts|
    ensures
      var (sc, sc') := (s.scripts[i], R.Apply(s, r).scripts[i]);
      && (Hosts(sc.pc) && !(r.ScriptStep? && r.i == i && sc.pc.FreeingRuntime?) ==> Hosts(sc'.pc))
      && (!(r.ScriptStep? && r.i == i) && (sc.pc.Running? || sc.pc.FreeingRuntime?) ==> sc'.pc == sc.pc)
  {
    if r.ClientStep? {
      var cl := s.clients[r.c];
      if R.Target(cl, |s.scripts|) == Some(i) {
        assert R.Addressed(cl, |s.scripts|);
        assert R.PairOk(cl, s.scripts[i]);
        if Hosts(s.scripts[i].pc) { R.ScriptAfterLife(cl, s.scripts[i], r.fails); }
      }
    }
  }

  lemma RegistryKeepsInv(s: State, r: R.Action)
    requires Inv(s) && Enabled(s, OfRegistry(r))
    ensures Inv(Apply(s, OfRegistry(r)))
  {
    var s' := Apply(s, OfRegistry(r));
    R.StepKeepsInv(s.reg, r);
    OthersKept(s.reg, r);
    forall o | 0 <= o < |s'.slots| ensures SlotOk(s', o) {
      assert SlotOk(s, o);
      RegistryStepHosts(s.reg, r, s.slots[o].owner);
    }
    forall i | 0 <= i < |s'.busy| ensures |s'.reg.scripts| == |s.reg.scripts| && BusyOk(s', i) {
      assert BusyOk(s, i);
      RegistryStepHosts(s.reg, r, i);
    }
  }

  /** Using up fuel changes nothing the objects depend on. */
  lemma WorkKeeps(s: State, i: R.Sid)
    requires Inv(s) && i < |s.reg.scripts| && CanWork(s.reg.scripts[i])
    ensures
      var reg := R.StepScript(s.reg, i, false);
      && R.Inv(reg) && reg == s.reg.(scripts := reg.scripts)
      && reg.scripts == s.reg.scripts[i := s.reg.scripts[i].(fuel := s.reg.scripts[i].fuel - 1)]
  {
    R.StepKeepsInv(s.reg, R.ScriptStep(i, false));
  }

  /** A new object has no threads and nobody is inside an operation on it. */
  lemma NewObjectFresh(obj: O.Object)
    requires obj == O.SessionObject(P.INITIAL) || obj == O.CurlObject(C.INITIAL)
    ensures O.Inv(obj) && O.LiveThreads(obj) == 0 && !Engaged(obj)
  {
  }

  lemma NewKeepsInv(s: State, i: R.Sid, obj: O.Object)
    requires Inv(s) && Enabled(s, NewObject(i, obj))
    ensures Inv(Apply(s, NewObject(i, obj)))
  {
    var s' := Apply(s, NewObject(i, obj));
    WorkKeeps(s, i);
    NewObjectFresh(obj);
    SumAppend(s.slots, Slot(i, obj), SlotThreads);
    NewKeepsPlaces(s, i, obj);
  }

  lemma NewKeepsPlaces(s: State, i: R.Sid, obj: O.Object)
    requires Inv(s) && Free(s, i) && CanWork(s.reg.scripts[i]) && O.Inv(obj) && !Engaged(obj)
    ensures
      var s' := s.(reg := R.StepScript(s.reg, i, false), slots := s.slots + [Slot(i, obj)]);
      && |s'.reg.scripts| == |s.reg.scripts|
      && (forall o :: 0 <= o < |s'.slots| ==> SlotOk(s', o))
      && (forall j :: 0 <= j < |s'.busy| ==> BusyOk(s', j))
  {
    var s' := s.(reg := R.StepScript(s.reg, i, false), slots := s.slots + [Slot(i, obj)]);
    WorkKeeps(s, i);
    forall o | 0 <= o < |s'.slots| ensures SlotOk(s', o) {
      if o < |s.slots| { assert SlotOk(s, o); }
    }
    forall j | 0 <= j < |s'.busy| ensures BusyOk(s', j) { assert BusyOk(s, j); }
  }

  /** Replacing the state of one object keeps the invariant if the thread count moves with its
      threads and the script's place moves with the object's. */
  lemma ReplacedKeepsInv(s: State, s': State, o: nat)
    requires Inv(s) && o < |s.slots| == |s'.slots| && s'.slots == s.slots[o := s.slots[o].(obj := s'.slots[o].obj)]
    requires O.Inv(s'.slots[o].obj) && R.Inv(s'.reg) && |s'.reg.scripts| == |s.reg.scripts|
    requires forall j :: 0 <= j < |s.reg.scripts| ==> s'.reg.scripts[j].pc == s.reg.scripts[j].pc
    requires s'.reg.g.others + O.LiveThreads(s.slots[o].obj) == s.reg.g.others + O.LiveThreads(s'.slots[o].obj)
    requires
      var (i, x, x') := (s.slots[o].owner, s.slots[o].obj, s'.slots[o].obj);
      && (O.Freed(x) ==> O.Freed(x'))
      && ((s'.busy == s.busy && Engaged(x') == Engaged(x))
          || (i < |s.busy| && s'.busy == s.busy[i := StillOn(o, x')] && (s.busy[i] == None || s.busy[i] == Some(o))
              && (s.reg.scripts[i].pc.Running? || s.reg.scripts[i].pc.FreeingRuntime?)))
    ensures Inv(s')
  {
    SumUpdate(s.slots, o, s'.slots[o], SlotThreads);
    assert SlotOk(s, o);
    forall p | 0 <= p < |s'.slots| ensures SlotOk(s', p) { assert SlotOk(s, p); }
    forall j | 0 <= j < |s'.busy| ensures BusyOk(s', j) { assert BusyOk(s, j); }
  }

  /** What one step does to its object. */
  lemma ObjectStep(x: O.Object, a: O.Action)
    requires O.Inv(x) && O.Enabled(x, a)
    ensures O.Inv(O.Apply(x, a))
    ensures
      O.LiveThreads(O.Apply(x, a))
      == O.LiveThreads(x) + (if O.LaunchesThread(a) then 1 else 0) - (if O.EndsThread(x, a) then 1 else 0)
    ensures O.Freed(x) ==> O.Freed(O.Apply(x, a))
  {
    O.StepKeepsInv(x, a);
    O.LiveThreadsStep(x, a);
    O.ScriptPosition(x, a);
  }

  lemma BeginKeepsInv(s: State, i: R.Sid, o: nat, x: O.Action)
    requires Inv(s) && Enabled(s, BeginOn(i, o, x))
    ensures Inv(Apply(s, BeginOn(i, o, x)))
  {
    assert SlotOk(s, o);
    if s.reg.scripts[i].pc.Running? { WorkKeeps(s, i); }
    ObjectStep(s.slots[o].obj, x);
    O.ScriptPosition(s.slots[o].obj, x);
    ReplacedKeepsInv(s, Apply(s, BeginOn(i, o, x)), o);
  }

  lemma ContinueKeepsInv(s: State, i: R.Sid, x: O.Action)
    requires Inv(s) && Enabled(s, Continue(i, x))
    ensures Inv(Apply(s, Continue(i, x)))
  {
    var o := s.busy[i].value;
    assert SlotOk(s, o) && BusyOk(s, i);
    ObjectStep(s.slots[o].obj, x);
    O.ScriptPosition(s.slots[o].obj, x);
    if O.LaunchesThread(x) { R.StepKeepsInv(s.reg, R.OtherLaunched); }
    ReplacedKeepsInv(s, Apply(s, Continue(i, x)), o);
  }

  lemma ThreadKeepsInv(s: State, o: nat, x: O.Action)
    requires Inv(s) && Enabled(s, OfThread(o, x))
    ensures Inv(Apply(s, OfThread(o, x)))
  {
    assert SlotOk(s, o);
    ObjectStep(s.slots[o].obj, x);
    O.ScriptPosition(s.slots[o].obj, x);
    SumAt(s.slots, o, SlotThreads);
    if O.EndsThread(s.slots[o].obj, x) { R.StepKeepsInv(s.reg, R.OtherFinished); }
    ReplacedKeepsInv(s, Apply(s, OfThread(o, x)), o);
  }

  lemma StepKeepsInv(s: State, a: Action)
    requires Inv(s) && Enabled(s, a)
    ensures Inv(Apply(s, a))
  {
    match a
    case OfRegistry(r) => RegistryKeepsInv(s, r);
    case NewObject(i, obj) => NewKeepsInv(s, i, obj);
    case BeginOn(i, o, x) => BeginKeepsInv(s, i, o, x);
    case Continue(i, x) => ContinueKeepsInv(s, i, x);
    case OfThread(o, x) => ThreadKeepsInv(s, o, x);
  }

  // ---- whole runs ------------------------------------------------------------------------

  ghost predicate Run(states: seq<State>, actions: seq<Action>) {
    && |states| == |actions| + 1
    && Init(states[0])
    && forall k :: 0 <= k < |actions| ==> Enabled(states[k], actions[k]) && states[k + 1] == Apply(states[k], actions[k])
  }

  lemma {:induction false} RunKeepsInv(states: seq<State>, actions: seq<Action>, k: nat)
    requires Run(states, actions) && k < |states|
    ensures Inv(states[k])
  {
    if k == 0 {
      InitInv(states[0]);
    } else {
      RunKeepsInv(states, actions, k - 1);
      StepKeepsInv(states[k - 1], actions[k - 1]);
    }
  }

  /** active_threads is, at every moment, the number of background scripts, playback threads and
      workers that were launched and have not called thread_finished. */
  lemma ThreadCountExact(states: seq<State>, actions: seq<Action>, k: nat)
    requires Run(states, actions) && k < |states|
    ensures
      var s := states[k];
      && s.reg.g.active == Sum(s.reg.scripts, R.Active) + Sum(s.slots, SlotThreads)
      && (s.reg.g.active == 0 ==> forall o :: 0 <= o < |s.slots| ==> forall t: nat :: !O.ThreadAlive(s.slots[o].obj, t))
  {
    RunKeepsInv(states, actions, k);
    var s := states[k];
    SumZero(s.slots, SlotThreads);
    if s.reg.g.active == 0 {
      forall o | 0 <= o < |s.slots| ensures forall t: nat :: !O.ThreadAlive(s.slots[o].obj, t) {
        assert SlotThreads(s.slots[o]) == 0;
        O.NoLiveThreads(s.slots[o].obj);
      }
    }
  }

  /** As long as a playback thread or a worker may access its object, the object is not freed, the
      runtime of the script it belongs to is not freed, and neither is the script's pool. */
  lemma TouchingThreadKeepsScript(states: seq<State>, actions: seq<Action>, k: nat, o: nat, t: nat)
    requires Run(states, actions) && k < |states| && o < |states[k].slots| && O.ThreadTouches(states[k].slots[o].obj, t)
    ensures
      var s := states[k];
      && !O.Freed(s.slots[o].obj)
      && s.slots[o].owner < |s.reg.scripts|
      && s.reg.scripts[s.slots[o].owner].mem.poolLive && s.reg.scripts[s.slots[o].owner].mem.mapped
      && Hosts(s.reg.scripts[s.slots[o].owner].pc)
  {
    RunKeepsInv(states, actions, k);
    var s := states[k];
    assert SlotOk(s, o);
    O.FreedIsUntouched(s.slots[o].obj, t);
    assert R.LifeOk(s.reg.scripts[s.slots[o].owner]);
  }

  // ---- a bound on what can still happen --------------------------------------------------

  function SlotPotential(slot: Slot): nat { O.Potential(slot.obj) }

  function Potential(s: State): nat {
    Sum(s.reg.scripts, ScriptPotential) + Sum(s.reg.clients, RankAmong(|s.reg.scripts|)) + Sum(s.slots, SlotPotential)
  }

  lemma NewObjectCost()
    ensures O.Potential(O.SessionObject(P.INITIAL)) < OPERATION && O.Potential(O.CurlObject(C.INITIAL)) < OPERATION
  {
    assert Sum<P.Thread>([], P.Rank) == 0 && Sum<C.Worker>([], C.Rank) == 0;
  }

  /** Every step of the module uses up some of its potential: there are no idle steps, and nothing
      a step sets in motion outweighs it. */
  lemma StepLowers(s: State, a: Action)
    requires Inv(s) && Enabled(s, a)
    ensures Potential(Apply(s, a)) < Potential(s)
  {
    match a
    case OfRegistry(r) =>
      RegistryLowers(s.reg, r);
      OthersKept(s.reg, r);
    case NewObject(i, x) =>
      WorkLowers(s.reg, i);
      NewObjectCost();
      SumAppend(s.slots, Slot(i, x), SlotPotential);
    case BeginOn(i, o, x) =>
      assert SlotOk(s, o);
      if s.reg.scripts[i].pc.Running? { WorkLowers(s.reg, i); }
      O.PotentialStep(s.slots[o].obj, x);
      O.ScriptPosition(s.slots[o].obj, x);
      SumUpdate(s.slots, o, Apply(s, a).slots[o], SlotPotential);
    case Continue(i, x) =>
      var o := s.busy[i].value;
      assert SlotOk(s, o);
      O.PotentialStep(s.slots[o].obj, x);
      SumUpdate(s.slots, o, Apply(s, a).slots[o], SlotPotential);
    case OfThread(o, x) =>
      assert SlotOk(s, o);
      O.ScriptPosition(s.slots[o].obj, x);
      O.PotentialStep(s.slots[o].obj, x);
      SumUpdate(s.slots, o, Apply(s, a).slots[o], SlotPotential);
  }

  // ---- somebody can always move ----------------------------------------------------------

  /** Everything has ended: commands are answered, launched scripts are done, detached threads
      have returned. */
  ghost predicate Quiescent(s: State) {
    && (forall c :: 0 <= c < |s.reg.clients| ==> s.reg.clients[c].pc.Finished?)
    && (forall i :: 0 <= i < |s.reg.scripts| ==> s.reg.scripts[i].pc.Unborn? || s.reg.scripts[i].pc.Done?)
    && (forall o :: 0 <= o < |s.slots| ==> O.LiveThreads(s.slots[o].obj) == 0)
  }

  /** A client other than the waiting shutdown can move, or the holder of the map mutex can. */
  lemma ClientMover(s: State, c: R.Cid) returns (a: Action)
    requires Inv(s) && c < |s.reg.clients| && !s.reg.clients[c].pc.Finished? && !s.reg.clients[c].pc.Waiting?
    ensures Enabled(s, a)
  {
    if s.reg.g.lock.Some? {
      var h := s.reg.g.lock.value;
      assert R.InSection(s.reg.clients[h].pc);
      a := OfRegistry(R.ClientStep(h, false));
    } else {
      a := OfRegistry(R.ClientStep(c, false));
    }
  }

  lemma ThreadMover(s: State, o: nat) returns (a: Action)
    requires Inv(s) && o < |s.slots| && O.LiveThreads(s.slots[o].obj) > 0
    ensures Enabled(s, a)
  {
    var x := s.slots[o].obj;
    assert SlotOk(s, o);
    O.NoLiveThreads(x);
    var t: nat :| O.ThreadAlive(x, t);
    var b := O.LiveThreadMoves(x, t, s.reg.g.shutdown);
    a := OfThread(o, b);
  }

  ghost predicate OthersEnded(s: State) {
    && (forall c :: 0 <= c < |s.reg.clients| ==> s.reg.clients[c].pc.Finished? || s.reg.clients[c].pc.Waiting?)
    && (forall o :: 0 <= o < |s.slots| ==> O.LiveThreads(s.slots[o].obj) == 0)
  }

  /** With only scripts and a waiting shutdown left, no client holds a script or the map mutex. */
  lemma NobodyHolds(s: State, i: R.Sid)
    requires Inv(s) && OthersEnded(s) && i < |s.reg.scripts|
    ensures s.reg.scripts[i].sem == 0 && s.reg.g.lock == None && !s.reg.scripts[i].pc.Mapped?
  {
    SumZero(s.reg.clients, R.HeldBy(i));
    assert forall c :: 0 <= c < |s.reg.clients| ==> !R.InSection(s.reg.clients[c].pc);
  }

  /** A script inside an operation on an object whose threads have ended can go on with it; one
      whose runtime is being freed can finalize the next object or be done. */
  lemma ScriptMover(s: State, i: R.Sid) returns (a: Action)
    requires Inv(s) && OthersEnded(s) && i < |s.reg.scripts|
    requires !s.reg.scripts[i].pc.Unborn? && !s.reg.scripts[i].pc.Done?
    ensures Enabled(s, a)
  {
    assert BusyOk(s, i);
    NobodyHolds(s, i);
    if s.busy[i].Some? {
      var o := s.busy[i].value;
      assert SlotOk(s, o);
      O.NoLiveThreads(s.slots[o].obj);
      var x := O.ScriptMovesWhenAlone(s.slots[o].obj, s.reg.g.shutdown);
      a := Continue(i, x);
    } else if s.reg.scripts[i].pc.FreeingRuntime? && !AllFreed(s, i) {
      var o :| 0 <= o < |s.slots| && s.slots[o].owner == i && !O.Freed(s.slots[o].obj);
      assert SlotOk(s, o);
      var x := if s.slots[o].obj.SessionObject? then O.OnSession(P.ClearReady) else O.OnCurl(C.BeginFinalize);
      a := BeginOn(i, o, x);
    } else {
      a := OfRegistry(R.ScriptStep(i, true));
    }
  }

  /** No deadlock: in every reachable state in which anything is unfinished, some thread can take
      a step that is not a yield. */
  lemma SomebodyMoves(s: State) returns (a: Action)
    requires Inv(s) && !Quiescent(s)
    ensures Enabled(s, a)
  {
    if c :| 0 <= c < |s.reg.clients| && !s.reg.clients[c].pc.Finished? && !s.reg.clients[c].pc.Waiting? {
      a := ClientMover(s, c);
    } else if o :| 0 <= o < |s.slots| && O.LiveThreads(s.slots[o].obj) != 0 {
      a := ThreadMover(s, o);
    } else if i :| 0 <= i < |s.reg.scripts| && !s.reg.scripts[i].pc.Unborn? && !s.reg.scripts[i].pc.Done? {
      a := ScriptMover(s, i);
    } else {
      var c :| 0 <= c < |s.reg.clients| && !s.reg.clients[c].pc.Finished?;
      NobodyElse(s);
      a := OfRegistry(R.ClientStep(c, false));
    }
  }

  /** With no script and no thread left the thread counter is zero. */
  lemma NobodyElse(s: State)
    requires Inv(s)
    requires forall o :: 0 <= o < |s.slots| ==> O.LiveThreads(s.slots[o].obj) == 0
    requires forall i :: 0 <= i < |s.reg.scripts| ==> s.reg.scripts[i].pc.Unborn? || s.reg.scripts[i].pc.Done?
    ensures s.reg.g.active == 0
  {
    SumZero(s.reg.scripts, R.Active);
    SumZero(s.slots, SlotThreads);
  }
}
