/** The scripts of the module, the commands that reach them and the shutdown: script_thread,
    script_launch, quickjs_cmd, xxx_chat_api and mod_quickjs_shutdown of mod_quickjs.c with
    script_lookup, script_sem_take, script_sem_release, script_wait_unlock, launch_thread and
    thread_finished of utils.c.

    Each action is one critical section or one access outside any. Only the map mutex is ever held
    while another mutex is taken, so it is explicit; the script mutex and the globals mutex guard
    single steps. */
module Registry {
  import opened Sums

  type Sid = nat
  type Cid = nat

  /** What a client of the module asks for. Messages come from the chat interface. */
  datatype Command =
    | Interrupt(sid: Sid)
    | Message(sid: Sid)
    | ListScripts
    | RunScript(sid: Sid, background: bool)
    | ShutdownModule

  datatype ClientPc =
    | Ready
    | Looking
    | Holding(late: bool)
    | Releasing(late: bool)
    | Launching
    | Inserted
    | Locking
    | Sweeping(at: nat)
    | Visiting(at: nat)
    | Marked(at: nat)
    | Waiting
    | Destroying
    | Finished

  datatype Client = Client(command: Command, pc: ClientPc)

  datatype ScriptPc =
    | Unborn
    | Mapped
    | Begin
    | Registering
    | Setup
    | Running
    | Out
    | Draining
    | FreeingRuntime
    | ClearingReady
    | Deleting
    | FreeingPool
    | Finishing
    | Done

  datatype Flags = Flags(ready: bool, destroyed: bool, interrupt: bool)

  /** Whether the script is in the map and has its pool. The last two fields are history: a lookup
      succeeded after the drain loop saw zero; a client accessed the freed script. */
  datatype Memory = Memory(mapped: bool, poolLive: bool, lateLookup: bool, touchedFreed: bool)

  /** `fuel` bounds the operations the script may still perform. */
  datatype Script = Script(
    pc: ScriptPc,
    fuel: nat,
    background: bool,
    sem: nat,
    flags: Flags,
    mem: Memory)

  /** `others` counts the live detached threads that are not scripts: playback threads and workers. */
  datatype Globals = Globals(
    lock: Option<Cid>,
    shutdown: bool,
    active: nat,
    others: nat,
    mapLive: bool,
    mapFault: bool)

  datatype State = State(scripts: seq<Script>, clients: seq<Client>, g: Globals)

  datatype Action =
    | ClientStep(c: Cid, fails: bool)
    | ScriptStep(i: Sid, ends: bool)
    | OtherLaunched
    | OtherFinished

  function NewScript(fuel: nat): Script {
    Script(Unborn, fuel, false, 0, Flags(false, false, false), Memory(false, false, false, false))
  }

  // ---- positions -------------------------------------------------------------------------

  predicate InSection(pc: ClientPc) { pc.Sweeping? || pc.Visiting? || pc.Marked? }

  predicate HoldsLooked(pc: ClientPc) { pc.Holding? || pc.Releasing? }

  /** The drain loop of the script has seen zero. */
  predicate PastZero(pc: ScriptPc) {
    pc.FreeingRuntime? || pc.ClearingReady? || pc.Deleting? || pc.FreeingPool? || pc.Finishing? || pc.Done?
  }

  predicate InMap(pc: ScriptPc) {
    !pc.Unborn? && !pc.FreeingPool? && !pc.Finishing? && !pc.Done?
  }

  predicate HasPool(pc: ScriptPc) { InMap(pc) || pc.FreeingPool? }

  predicate Launched(pc: ScriptPc) { !pc.Unborn? && !pc.Mapped? && !pc.Done? }

  function Held(cl: Client, i: Sid): nat {
    match cl.pc
    case Holding(_) => if LooksUp(cl.command) && cl.command.sid == i then 1 else 0
    case Releasing(_) => if LooksUp(cl.command) && cl.command.sid == i then 1 else 0
    case Visiting(at) => if at == i then 1 else 0
    case Marked(at) => if at == i then 1 else 0
    case _ => 0
  }

  /** The references to script i that a client owes. */
  function HeldBy(i: Sid): Client -> nat { (cl: Client) => Held(cl, i) }

  /** A background script whose thread has been launched and has not called thread_finished. */
  function Active(sc: Script): nat { if sc.background && Launched(sc.pc) then 1 else 0 }

  // ---- steps -----------------------------------------------------------------------------

  /** An access to the script's memory. */
  function Touch(sc: Script): Script { if sc.mem.poolLive then sc else sc.(mem := sc.mem.(touchedFreed := true)) }

  function SetReady(sc: Script, ready: bool): Script { sc.(flags := sc.flags.(ready := ready)) }

  function SetInterrupt(sc: Script): Script { sc.(flags := sc.flags.(interrupt := true)) }

  /** An access to the map itself. */
  function UseMap(g: Globals): Globals { g.(mapFault := g.mapFault || !g.mapLive) }

  function SemTake(sc: Script): Script { sc.(sem := sc.sem + 1) }

  function SemRelease(sc: Script): Script { if sc.sem > 0 then sc.(sem := sc.sem - 1) else sc }

  /** script_lookup with the lock flag, on a script found in the map. */
  function LookupTake(sc: Script): Script {
    SemTake(sc).(mem := sc.mem.(lateLookup := sc.mem.lateLookup || PastZero(sc.pc)))
  }

  /** The `int` command sets fl_interrupt on a ready script that is not on its way out. */
  function UseScript(sc: Script, command: Command): Script {
    if command.Interrupt? && sc.flags.ready && !sc.flags.destroyed then SetInterrupt(Touch(sc)) else Touch(sc)
  }

  predicate LooksUp(command: Command) { command.Interrupt? || command.Message? }

  predicate Sweeps(command: Command) { command.ListScripts? || command.ShutdownModule? }

  /** The first step of a command. Only the chat interface does not look at the shutdown flag. */
  function BeginCommand(command: Command, g: Globals): (ClientPc, Globals) {
    match command
    case Message(_) => (Looking, g)
    case ShutdownModule => (Locking, g.(shutdown := true))
    case Interrupt(_) => (if g.shutdown then Finished else Looking, g)
    case ListScripts => (if g.shutdown then Finished else Locking, g)
    case RunScript(_, _) => (if g.shutdown then Finished else Launching, g)
  }

  /** Where a client goes from a step at which it works on script `sc`. */
  function PcAfter(cl: Client, sc: Script, fails: bool): ClientPc {
    match cl.pc
    case Looking => if sc.mem.mapped then Holding(PastZero(sc.pc)) else Finished
    case Holding(late) => Releasing(late)
    case Releasing(_) => Finished
    case Launching => if fails then Finished else Inserted
    case Inserted => Finished
    case Sweeping(at) => if sc.mem.mapped && sc.flags.ready then Visiting(at) else Sweeping(at + 1)
    case Visiting(at) => Marked(at)
    case Marked(at) => Sweeping(at + 1)
    case pc => pc
  }

  /** What that step does to the script. */
  function ScriptAfter(cl: Client, sc: Script, fails: bool): Script {
    match cl.pc
    case Looking => if sc.mem.mapped then LookupTake(sc) else sc
    case Holding(_) => UseScript(sc, cl.command)
    case Releasing(_) => SemRelease(Touch(sc))
    case Launching => if fails then sc else sc.(pc := Mapped, mem := sc.mem.(mapped := true, poolLive := true))
    case Inserted => sc.(pc := Begin, background := InBackground(cl.command))
    case Sweeping(_) => if !sc.mem.mapped then sc else if sc.flags.ready then SemTake(Touch(sc)) else Touch(sc)
    case Visiting(_) => if cl.command.ShutdownModule? then SetInterrupt(Touch(sc)) else Touch(sc)
    case Marked(_) => SemRelease(Touch(sc))
    case _ => sc
  }

  /** And to the globals: it may access the map, or launch the thread of a background script. */
  function GlobalsAfter(cl: Client, g: Globals, fails: bool): Globals {
    match cl.pc
    case Looking => UseMap(g)
    case Launching => if fails then g else UseMap(g)
    case Inserted => if InBackground(cl.command) then g.(active := g.active + 1) else g
    case _ => g
  }

  predicate InBackground(command: Command) { command.RunScript? && command.background }

  /** A step at which the client works on no script. */
  function WithoutScript(c: Cid, cl: Client, g: Globals): (ClientPc, Globals) {
    match cl.pc
    case Ready => BeginCommand(cl.command, g)
    case Looking => (Finished, UseMap(g))
    case Locking => (Sweeping(0), UseMap(g).(lock := Some(c)))
    case Sweeping(_) => (if cl.command.ShutdownModule? then Waiting else Finished, g.(lock := None))
    case Waiting => (Destroying, g)
    case Destroying => (Finished, g.(mapLive := false))
    case _ => (cl.pc, g)
  }

  /** The script a client's next step works on, among n scripts. */
  function Target(cl: Client, n: nat): (t: Option<Sid>)
    ensures t.Some? ==> t.value < n
  {
    var i :=
      match cl.pc
      case Sweeping(at) => Some(at)
      case Visiting(at) => Some(at)
      case Marked(at) => Some(at)
      case Looking => if LooksUp(cl.command) then Some(cl.command.sid) else None
      case Holding(_) => if LooksUp(cl.command) then Some(cl.command.sid) else None
      case Releasing(_) => if LooksUp(cl.command) then Some(cl.command.sid) else None
      case Launching => if cl.command.RunScript? then Some(cl.command.sid) else None
      case Inserted => if cl.command.RunScript? then Some(cl.command.sid) else None
      case _ => None;
    if i.Some? && i.value < n then i else None
  }

  predicate ClientEnabled(cl: Client, g: Globals) {
    match cl.pc
    case Finished => false
    case Looking => g.lock == None
    case Launching => g.lock == None
    case Locking => g.lock == None
    case Destroying => g.lock == None
    case Waiting => g.active == 0
    case _ => true
  }

  function StepClient(s: State, c: Cid, fails: bool): State
    requires c < |s.clients|
  {
    var cl := s.clients[c];
    match Target(cl, |s.scripts|)
    case Some(i) =>
      State(s.scripts[i := ScriptAfter(cl, s.scripts[i], fails)],
            s.clients[c := cl.(pc := PcAfter(cl, s.scripts[i], fails))],
            GlobalsAfter(cl, s.g, fails))
    case None =>
      var e := WithoutScript(c, cl, s.g);
      State(s.scripts, s.clients[c := cl.(pc := e.0)], e.1)
  }

  predicate ScriptEnabled(sc: Script, g: Globals) {
    match sc.pc
    case Unborn => false
    case Mapped => false
    case Done => false
    case Draining => sc.sem == 0
    case Deleting => g.lock == None
    case _ => true
  }

  /** The next step of script_thread; `ends` resolves its choices: a failing start, or a script
      that stops before its fuel is used up. */
  function OwnStep(sc: Script, shutdown: bool, ends: bool): Script {
    match sc.pc
    case Begin =>
      if sc.flags.destroyed || shutdown || ends then sc.(pc := Out)
      else SetReady(sc, true).(pc := Registering)
    case Registering => SetReady(sc, false).(pc := Setup)
    case Setup => SetReady(sc, true).(pc := if ends then Out else Running)
    case Running => if ends || sc.fuel == 0 then sc.(pc := Out) else sc.(fuel := sc.fuel - 1)
    case Out => sc.(pc := Draining, flags := sc.flags.(destroyed := true))
    case Draining => sc.(pc := FreeingRuntime)
    case FreeingRuntime => sc.(pc := ClearingReady)
    case ClearingReady => SetReady(sc, false).(pc := Deleting)
    case Deleting => sc.(pc := FreeingPool, mem := sc.mem.(mapped := false))
    case FreeingPool => sc.(pc := if sc.background then Finishing else Done, mem := sc.mem.(poolLive := false))
    case Finishing => sc.(pc := Done)
    case _ => sc
  }

  /** Its effect on the globals: deleting itself from the map, and thread_finished. */
  function OwnGlobals(sc: Script, g: Globals): Globals {
    match sc.pc
    case Deleting => UseMap(g)
    case Finishing => g.(active := if g.active > 0 then g.active - 1 else 0)
    case _ => g
  }

  function StepScript(s: State, i: Sid, ends: bool): State
    requires i < |s.scripts|
  {
    s.(scripts := s.scripts[i := OwnStep(s.scripts[i], s.g.shutdown, ends)], g := OwnGlobals(s.scripts[i], s.g))
  }

  /** launch_thread and thread_finished for a playback thread or a worker. */
  function LaunchOther(s: State): State {
    s.(g := s.g.(active := s.g.active + 1, others := s.g.others + 1))
  }

  function FinishOther(s: State): State {
    s.(g := s.g.(active := if s.g.active > 0 then s.g.active - 1 else 0,
                 others := if s.g.others > 0 then s.g.others - 1 else 0))
  }

  ghost predicate Enabled(s: State, a: Action) {
    match a
    case ClientStep(c, _) => c < |s.clients| && ClientEnabled(s.clients[c], s.g)
    case ScriptStep(i, _) => i < |s.scripts| && ScriptEnabled(s.scripts[i], s.g)
    case OtherLaunched => true
    case OtherFinished => s.g.others > 0
  }

  function Apply(s: State, a: Action): State
    requires Enabled(s, a)
  {
    match a
    case ClientStep(c, fails) => StepClient(s, c, fails)
    case ScriptStep(i, ends) => StepScript(s, i, ends)
    case OtherLaunched => LaunchOther(s)
    case OtherFinished => FinishOther(s)
  }

  // ---- the invariant ---------------------------------------------------------------------

  /** The client stands at a position its command leads to, and the script it works on exists. */
  predicate Addressed(cl: Client, n: nat) {
    match cl.pc
    case Ready => cl.command.RunScript? ==> cl.command.sid < n
    case Looking => LooksUp(cl.command)
    case Holding(_) => LooksUp(cl.command) && cl.command.sid < n
    case Releasing(_) => LooksUp(cl.command) && cl.command.sid < n
    case Launching => cl.command.RunScript? && cl.command.sid < n
    case Inserted => cl.command.RunScript? && cl.command.sid < n
    case Locking => Sweeps(cl.command)
    case Sweeping(at) => Sweeps(cl.command) && at <= n
    case Visiting(at) => Sweeps(cl.command) && at < n
    case Marked(at) => Sweeps(cl.command) && at < n
    case Waiting => cl.command.ShutdownModule?
    case Destroying => cl.command.ShutdownModule?
    case Finished => true
  }

  ghost predicate LockInv(s: State) {
    && (s.g.lock.Some? ==> s.g.lock.value < |s.clients|)
    && (forall c :: 0 <= c < |s.clients| ==>
          && Addressed(s.clients[c], |s.scripts|)
          && (InSection(s.clients[c].pc) <==> s.g.lock == Some(c)))
  }

  ghost predicate SemInv(s: State) {
    forall i :: 0 <= i < |s.scripts| ==> s.scripts[i].sem == Sum(s.clients, HeldBy(i))
  }

  /** A script is in the map and has its pool over fixed stretches of its life, and a client has
      accessed it after its end only if some lookup came late. */
  predicate LifeOk(sc: Script) {
    && (sc.mem.mapped <==> InMap(sc.pc))
    && (sc.mem.poolLive <==> HasPool(sc.pc))
    && (sc.mem.touchedFreed ==> sc.mem.lateLookup)
    && (sc.pc.Finishing? ==> sc.background)
  }

  ghost predicate LifeInv(s: State) {
    forall i :: 0 <= i < |s.scripts| ==> LifeOk(s.scripts[i])
  }

  /** What a client standing here knows of the script it works on. A reference from a lookup was
      taken late exactly if the script is past its zero reading now; a client inside the map
      section works on a script in the map; a launching client's script has no thread yet. */
  predicate PairOk(cl: Client, sc: Script) {
    match cl.pc
    case Ready => cl.command.RunScript? ==> sc.pc.Unborn?
    case Launching => sc.pc.Unborn?
    case Inserted => sc.pc.Mapped?
    case Holding(late) => !sc.pc.Unborn? && (late <==> PastZero(sc.pc)) && (late ==> sc.mem.lateLookup)
    case Releasing(late) => !sc.pc.Unborn? && (late <==> PastZero(sc.pc)) && (late ==> sc.mem.lateLookup)
    case Visiting(_) => sc.mem.mapped
    case Marked(_) => sc.mem.mapped
    case _ => true
  }

  /** The script a client is bound to, including the one it will launch. */
  function Bound(cl: Client, n: nat): (t: Option<Sid>)
    ensures t.Some? ==> t.value < n
  {
    if cl.pc.Ready? && cl.command.RunScript? && cl.command.sid < n then Some(cl.command.sid)
    else if cl.pc.Sweeping? || cl.pc.Looking? then None
    else Target(cl, n)
  }

  ghost predicate PairInv(s: State) {
    forall c :: 0 <= c < |s.clients| && Bound(s.clients[c], |s.scripts|).Some?
            ==> PairOk(s.clients[c], s.scripts[Bound(s.clients[c], |s.scripts|).value])
  }

  ghost predicate ActiveInv(s: State) { s.g.active == Sum(s.scripts, Active) + s.g.others }

  predicate Launches(cl: Client, i: Sid) { cl.command.RunScript? && cl.command.sid == i }

  /** No two clients launch the same script, and a script without a thread in the map has its
      launching client right behind the insertion. */
  ghost predicate LaunchInv(s: State) {
    && (forall c, d :: 0 <= c < d < |s.clients| && s.clients[c].command.RunScript? && s.clients[d].command.RunScript?
          ==> s.clients[c].command.sid != s.clients[d].command.sid)
    && (forall i :: 0 <= i < |s.scripts| && s.scripts[i].pc.Mapped?
          ==> exists c :: 0 <= c < |s.clients| && Launches(s.clients[c], i) && s.clients[c].pc.Inserted?)
  }

  ghost predicate Inv(s: State) {
    LockInv(s) && SemInv(s) && LifeInv(s) && PairInv(s) && ActiveInv(s) && LaunchInv(s)
  }

  /** Before anything happens: scripts not launched, clients not begun, no two launching the same. */
  ghost predicate Init(s: State) {
    && (forall i :: 0 <= i < |s.scripts| ==> s.scripts[i] == NewScript(s.scripts[i].fuel))
    && (forall c :: 0 <= c < |s.clients| ==> s.clients[c].pc == Ready && Addressed(s.clients[c], |s.scripts|))
    && (forall c, d :: 0 <= c < d < |s.clients| && s.clients[c].command.RunScript? && s.clients[d].command.RunScript?
          ==> s.clients[c].command.sid != s.clients[d].command.sid)
    && s.g == Globals(None, false, 0, 0, true, false)
  }

  lemma InitInv(s: State)
    requires Init(s)
    ensures Inv(s)
  {
    SumZero(s.scripts, Active);
    forall i | 0 <= i < |s.scripts| ensures Sum(s.clients, HeldBy(i)) == 0 {
      SumZero(s.clients, HeldBy(i));
    }
  }

  // ---- a client's step keeps the invariant -----------------------------------------------

  lemma ClientStepLock(s: State, c: Cid, fails: bool)
    requires LockInv(s) && Enabled(s, ClientStep(c, fails))
    ensures LockInv(StepClient(s, c, fails))
  {
    var s' := StepClient(s, c, fails);
    var cl := s.clients[c];
    assert Addressed(cl, |s.scripts|) && (InSection(cl.pc) <==> s.g.lock == Some(c));
    ClientEffectLock(s, c, fails);
  }

  /** A step of client c keeps it addressed and takes or gives back the map mutex with entering
      and leaving the section. */
  lemma ClientEffectLock(s: State, c: Cid, fails: bool)
    requires Enabled(s, ClientStep(c, fails)) && Addressed(s.clients[c], |s.scripts|)
    requires InSection(s.clients[c].pc) <==> s.g.lock == Some(c)
    ensures
      var s' := StepClient(s, c, fails);
      && Addressed(s'.clients[c], |s.scripts|)
      && (InSection(s'.clients[c].pc) <==> s'.g.lock == Some(c))
      && (s'.g.lock == s.g.lock
          || (s.g.lock == None && s'.g.lock == Some(c))
          || (s.g.lock == Some(c) && s'.g.lock == None))
  {
    var cl, n := s.clients[c], |s.scripts|;
    match Target(cl, n)
    case Some(i) => TargetedStaysAddressed(cl, s.scripts[i], s.g, fails, n);
    case None => UntargetedLock(c, cl, s.g, n);
  }

  lemma TargetedStaysAddressed(cl: Client, sc: Script, g: Globals, fails: bool, n: nat)
    requires Addressed(cl, n) && Target(cl, n).Some?
    ensures
      var cl' := cl.(pc := PcAfter(cl, sc, fails));
      Addressed(cl', n) && (InSection(cl'.pc) <==> InSection(cl.pc)) && GlobalsAfter(cl, g, fails).lock == g.lock
  {
  }

  lemma UntargetedLock(c: Cid, cl: Client, g: Globals, n: nat)
    requires Addressed(cl, n) && Target(cl, n) == None && ClientEnabled(cl, g) && (InSection(cl.pc) <==>
        g.lock == Some(c))
    ensures
      var e := WithoutScript(c, cl, g);
      && Addressed(cl.(pc := e.0), n)
      && (InSection(e.0) <==> e.1.lock == Some(c))
      && (e.1.lock == g.lock || (g.lock == None && e.1.lock == Some(c)) || (g.lock == Some(c) && e.1.lock == None))
  {
  }

  /** Taking and giving back a reference is matched by the position of the client. */
  lemma WithScriptSem(cl: Client, sc: Script, fails: bool, n: nat, i: Sid)
    requires Addressed(cl, n) && Target(cl, n) == Some(i) && Held(cl, i) <= sc.sem
    ensures ScriptAfter(cl, sc, fails).sem + Held(cl, i) == sc.sem + Held(cl.(pc := PcAfter(cl, sc, fails)), i)
  {
  }

  lemma OtherSem(s: State, c: Cid, fails: bool, i: Sid)
    requires c < |s.clients| && i < |s.scripts| && Addressed(s.clients[c], |s.scripts|)
    requires Target(s.clients[c], |s.scripts|) != Some(i)
    ensures Held(s.clients[c], i) == Held(StepClient(s, c, fails).clients[c], i)
  {
  }

  lemma ClientKeepsSemInv(s: State, c: Cid, fails: bool)
    requires LockInv(s) && SemInv(s) && Enabled(s, ClientStep(c, fails))
    ensures SemInv(StepClient(s, c, fails))
  {
    var s' := StepClient(s, c, fails);
    var cl := s.clients[c];
    forall i | 0 <= i < |s'.scripts| ensures s'.scripts[i].sem == Sum(s'.clients, HeldBy(i)) {
      SumAt(s.clients, c, HeldBy(i));
      SumUpdate(s.clients, c, s'.clients[c], HeldBy(i));
      if Target(cl, |s.scripts|) == Some(i) {
        WithScriptSem(cl, s.scripts[i], fails, |s.scripts|, i);
      } else {
        OtherSem(s, c, fails, i);
      }
    }
  }

  lemma WithScriptLife(cl: Client, sc: Script, fails: bool)
    requires LifeOk(sc) && PairOk(cl, sc)
    ensures LifeOk(ScriptAfter(cl, sc, fails))
  {
  }

  lemma ClientKeepsLifeInv(s: State, c: Cid, fails: bool)
    requires LockInv(s) && LifeInv(s) && PairInv(s) && Enabled(s, ClientStep(c, fails))
    ensures LifeInv(StepClient(s, c, fails))
  {
    var cl := s.clients[c];
    match Target(cl, |s.scripts|)
    case Some(i) =>
      assert LifeOk(s.scripts[i]) && Addressed(cl, |s.scripts|);
      if Bound(cl, |s.scripts|).Some? { assert PairOk(cl, s.scripts[i]); }
      WithScriptLife(cl, s.scripts[i], fails);
    case None =>
  }

  /** The client's own view after its step. */
  lemma OwnPairKept(cl: Client, sc: Script, fails: bool, n: nat)
    requires LifeOk(sc) && PairOk(cl, sc) && Addressed(cl, n) && Target(cl, n).Some?
    ensures
      var cl' := cl.(pc := PcAfter(cl, sc, fails));
      Bound(cl', n).Some? ==> Bound(cl', n) == Target(cl, n) && PairOk(cl', ScriptAfter(cl, sc, fails))
  {
  }

  lemma OwnBeginKept(c: Cid, cl: Client, g: Globals, n: nat)
    requires Addressed(cl, n) && Target(cl, n) == None
    ensures
      var cl' := cl.(pc := WithoutScript(c, cl, g).0);
      Bound(cl', n).Some? ==> Bound(cl, n) == Bound(cl', n) && forall sc: Script :: PairOk(cl, sc) ==> PairOk(cl', sc)
  {
  }

  /** Another client's view of a script that a client has worked on. */
  lemma OtherPairKept(cl: Client, d: Client, sc: Script, fails: bool, n: nat)
    requires LifeOk(sc) && PairOk(cl, sc) && PairOk(d, sc) && Addressed(d, n) && Addressed(cl, n)
    requires Bound(d, n).Some? && Target(cl, n) == Bound(d, n)
    requires cl.command.RunScript? && d.command.RunScript? ==> cl.command.sid != d.command.sid
    ensures PairOk(d, ScriptAfter(cl, sc, fails))
  {
    var sc' := ScriptAfter(cl, sc, fails);
    ScriptAfterLife(cl, sc, fails);
  }

  /** Only launching moves a script's life on. */
  lemma ScriptAfterLife(cl: Client, sc: Script, fails: bool)
    ensures
      var sc' := ScriptAfter(cl, sc, fails);
      && (!cl.pc.Launching? && !cl.pc.Inserted? ==> sc'.pc == sc.pc && sc'.mem.mapped == sc.mem.mapped)
      && (cl.pc.Launching? ==> sc' == sc || (sc'.pc == Mapped && sc'.mem.mapped))
      && (cl.pc.Inserted? ==> sc'.pc == Begin && sc'.mem.mapped == sc.mem.mapped)
      && (sc.mem.lateLookup ==> sc'.mem.lateLookup)
  {
  }

  lemma ClientKeepsPairInv(s: State, c: Cid, fails: bool)
    requires LockInv(s) && LifeInv(s) && PairInv(s) && LaunchInv(s) && Enabled(s, ClientStep(c, fails))
    ensures PairInv(StepClient(s, c, fails))
  {
    var s' := StepClient(s, c, fails);
    var n := |s.scripts|;
    var cl := s.clients[c];
    assert Addressed(cl, n);
    forall d | 0 <= d < |s'.clients| && Bound(s'.clients[d], n).Some?
      ensures PairOk(s'.clients[d], s'.scripts[Bound(s'.clients[d], n).value])
    {
      match Target(cl, n)
      case None => if d == c { OwnBeginKept(c, cl, s.g, n); }
      case Some(i) =>
        assert LifeOk(s.scripts[i]);
        assert PairOk(cl, s.scripts[i]);
        if d == c {
          OwnPairKept(cl, s.scripts[i], fails, n);
        } else if Bound(s.clients[d], n) == Some(i) {
          assert Addressed(s.clients[d], n);
          OtherPairKept(cl, s.clients[d], s.scripts[i], fails, n);
        }
    }
  }

  lemma WithScriptActive(cl: Client, sc: Script, g: Globals, fails: bool)
    requires PairOk(cl, sc)
    ensures GlobalsAfter(cl, g, fails).active + Active(sc) == g.active + Active(ScriptAfter(cl, sc, fails))
    ensures GlobalsAfter(cl, g, fails).others == g.others
  {
    if !cl.pc.Inserted? {
      ScriptAfterLife(cl, sc, fails);
      ScriptAfterBackground(cl, sc, fails);
    }
  }

  lemma ScriptAfterBackground(cl: Client, sc: Script, fails: bool)
    ensures !cl.pc.Inserted? ==> ScriptAfter(cl, sc, fails).background == sc.background
  {
  }

  lemma ClientKeepsActiveInv(s: State, c: Cid, fails: bool)
    requires LockInv(s) && PairInv(s) && ActiveInv(s) && Enabled(s, ClientStep(c, fails))
    ensures ActiveInv(StepClient(s, c, fails))
  {
    var cl := s.clients[c];
    match Target(cl, |s.scripts|)
    case Some(i) =>
      assert PairOk(cl, s.scripts[i]);
      WithScriptActive(cl, s.scripts[i], s.g, fails);
      SumUpdate(s.scripts, i, ScriptAfter(cl, s.scripts[i], fails), Active);
    case None =>
  }

  lemma WithScriptMapped(cl: Client, sc: Script, fails: bool)
    requires PairOk(cl, sc)
    ensures ScriptAfter(cl, sc, fails).pc.Mapped? && !sc.pc.Mapped? ==>
        cl.pc.Launching? && PcAfter(cl, sc, fails).Inserted?
    ensures cl.pc.Inserted? ==> !ScriptAfter(cl, sc, fails).pc.Mapped?
  {
    ScriptAfterLife(cl, sc, fails);
  }

  lemma ClientKeepsLaunchInv(s: State, c: Cid, fails: bool)
    requires LockInv(s) && PairInv(s) && LaunchInv(s) && Enabled(s, ClientStep(c, fails))
    ensures LaunchInv(StepClient(s, c, fails))
  {
    var s' := StepClient(s, c, fails);
    var cl := s.clients[c];
    assert Addressed(cl, |s.scripts|);
    assert forall d :: 0 <= d < |s.clients| ==> s'.clients[d].command == s.clients[d].command;
    forall i | 0 <= i < |s'.scripts| && s'.scripts[i].pc.Mapped?
      ensures exists d :: 0 <= d < |s'.clients| && Launches(s'.clients[d], i) && s'.clients[d].pc.Inserted?
    {
      if Target(cl, |s.scripts|) == Some(i) { WithScriptMapped(cl, s.scripts[i], fails); }
      if s.scripts[i].pc.Mapped? {
        var d :| 0 <= d < |s.clients| && Launches(s.clients[d], i) && s.clients[d].pc.Inserted?;
        assert d != c;
        assert Launches(s'.clients[d], i);
      } else {
        assert Launches(s'.clients[c], i);
      }
    }
  }

  // ---- a script's step keeps the invariant -----------------------------------------------

  lemma OwnStepLife(sc: Script, shutdown: bool, ends: bool)
    requires LifeOk(sc)
    ensures LifeOk(OwnStep(sc, shutdown, ends))
  {
  }

  lemma OwnStepKeeps(sc: Script, g: Globals, ends: bool)
    requires ScriptEnabled(sc, g)
    ensures
      var sc' := OwnStep(sc, g.shutdown, ends);
      && sc'.sem == sc.sem && sc'.mem.lateLookup == sc.mem.lateLookup && sc'.mem.touchedFreed == sc.mem.touchedFreed
      && sc'.background == sc.background
      && (PastZero(sc'.pc) <==> PastZero(sc.pc) || sc.pc.Draining?)
      && (sc'.mem.mapped <==> sc.mem.mapped && !sc.pc.Deleting?)
      && Launched(sc.pc) && (Launched(sc'.pc) <==> !sc'.pc.Done?) && !sc'.pc.Unborn? && !sc'.pc.Mapped?
      && (sc'.pc.Done? ==> sc.pc.Finishing? || (sc.pc.FreeingPool? && !sc.background))
  {
  }

  lemma OwnStepGlobals(sc: Script, g: Globals, ends: bool)
    requires ScriptEnabled(sc, g) && Active(sc) <= g.active && LifeOk(sc)
    ensures
      var g' := OwnGlobals(sc, g);
      && g'.lock == g.lock && g'.others == g.others && g'.shutdown == g.shutdown && g'.mapLive == g.mapLive
      && g'.active + Active(sc) == g.active + Active(OwnStep(sc, g.shutdown, ends))
  {
    OwnStepKeeps(sc, g, ends);
  }

  lemma ScriptKeepsPairInv(s: State, i: Sid, ends: bool)
    requires LockInv(s) && SemInv(s) && LifeInv(s) && PairInv(s) && Enabled(s, ScriptStep(i, ends))
    ensures PairInv(StepScript(s, i, ends))
  {
    var n := |s.scripts|;
    var s' := StepScript(s, i, ends);
    assert LifeOk(s.scripts[i]);
    OwnStepLife(s.scripts[i], s.g.shutdown, ends);
    OwnStepKeeps(s.scripts[i], s.g, ends);
    forall d | 0 <= d < |s.clients| && Bound(s.clients[d], n) == Some(i) ensures PairOk(s.clients[d], s'.scripts[i]) {
      assert PairOk(s.clients[d], s.scripts[i]) && Addressed(s.clients[d], n);
      SumAt(s.clients, d, HeldBy(i));
      assert s.scripts[i].sem == 0 ==> HeldBy(i)(s.clients[d]) == 0;
    }
  }

  lemma ScriptKeepsLaunchInv(s: State, i: Sid, ends: bool)
    requires LifeInv(s) && LaunchInv(s) && Enabled(s, ScriptStep(i, ends))
    ensures LaunchInv(StepScript(s, i, ends))
  {
    assert LifeOk(s.scripts[i]);
    OwnStepLife(s.scripts[i], s.g.shutdown, ends);
    OwnStepKeeps(s.scripts[i], s.g, ends);
  }

  lemma ScriptKeepsActiveInv(s: State, i: Sid, ends: bool)
    requires LifeInv(s) && ActiveInv(s) && Enabled(s, ScriptStep(i, ends))
    ensures ActiveInv(StepScript(s, i, ends))
  {
    assert LifeOk(s.scripts[i]);
    SumAt(s.scripts, i, Active);
    OwnStepGlobals(s.scripts[i], s.g, ends);
    SumUpdate(s.scripts, i, OwnStep(s.scripts[i], s.g.shutdown, ends), Active);
  }

  lemma ScriptStepKeepsInv(s: State, i: Sid, ends: bool)
    requires Inv(s) && Enabled(s, ScriptStep(i, ends))
    ensures Inv(StepScript(s, i, ends))
  {
    assert LifeOk(s.scripts[i]);
    OwnStepLife(s.scripts[i], s.g.shutdown, ends);
    OwnStepKeeps(s.scripts[i], s.g, ends);
    SumAt(s.scripts, i, Active);
    OwnStepGlobals(s.scripts[i], s.g, ends);
    ScriptKeepsPairInv(s, i, ends);
    ScriptKeepsLaunchInv(s, i, ends);
    ScriptKeepsActiveInv(s, i, ends);
  }

  lemma ClientStepKeepsInv(s: State, c: Cid, fails: bool)
    requires Inv(s) && Enabled(s, ClientStep(c, fails))
    ensures Inv(StepClient(s, c, fails))
  {
    ClientStepLock(s, c, fails);
    ClientKeepsSemInv(s, c, fails);
    ClientKeepsLifeInv(s, c, fails);
    ClientKeepsPairInv(s, c, fails);
    ClientKeepsActiveInv(s, c, fails);
    ClientKeepsLaunchInv(s, c, fails);
  }

  lemma StepKeepsInv(s: State, a: Action)
    requires Inv(s) && Enabled(s, a)
    ensures Inv(Apply(s, a))
  {
    match a
    case ClientStep(c, fails) => ClientStepKeepsInv(s, c, fails);
    case ScriptStep(i, ends) => ScriptStepKeepsInv(s, i, ends);
    case _ =>
  }

  // ---- whole runs ------------------------------------------------------------------------

  ghost predicate Run(states: seq<State>, actions: seq<Action>) {
    && |states| == |actions| + 1
    && Init(states[0])
    && forall k :: 0 <= k < |actions| ==> Enabled(states[k], actions[k]) && states[k + 1] == Apply(states[k], actions[k])
  }

  lemma {:induction false} RunKeepsInv(states: seq<State>, actions: seq<Action>, k: nat)
    requires Run(states, actions) && k < |states|
    ensures Inv(states[k])
  {
    if k == 0 {
      InitInv(states[0]);
    } else {
      RunKeepsInv(states, actions, k - 1);
      StepKeepsInv(states[k - 1], actions[k - 1]);
    }
  }

  /** Registry safety: every script in the map has a live pool, and a client of the `list` command
      or of the shutdown sweep only ever works on such a script, whatever the lookups do. */
  lemma RegistryIsSafe(states: seq<State>, actions: seq<Action>, k: nat)
    requires Run(states, actions) && k < |states|
    ensures
      var s := states[k];
      && (forall i :: 0 <= i < |s.scripts| && s.scripts[i].mem.mapped ==> s.scripts[i].mem.poolLive)
      && (forall c :: 0 <= c < |s.clients| && (s.clients[c].pc.Visiting? || s.clients[c].pc.Marked?) ==>
            && s.g.lock == Some(c)
            && s.clients[c].pc.at < |s.scripts| && s.scripts[s.clients[c].pc.at].mem.mapped
            && s.scripts[s.clients[c].pc.at].sem > 0)
    ensures
      k < |actions| && actions[k].ClientStep? && InSection(states[k].clients[actions[k].c].pc) ==>
        forall i :: 0 <= i < |states[k].scripts| ==>
            states[k + 1].scripts[i].mem.touchedFreed == states[k].scripts[i].mem.touchedFreed
  {
    RunKeepsInv(states, actions, k);
    var s := states[k];
    forall i | 0 <= i < |s.scripts| && s.scripts[i].mem.mapped ensures s.scripts[i].mem.poolLive {
      assert LifeOk(s.scripts[i]);
    }
    forall c | 0 <= c < |s.clients| && (s.clients[c].pc.Visiting? || s.clients[c].pc.Marked?)
      ensures s.g.lock == Some(c) && s.clients[c].pc.at < |s.scripts| && s.scripts[s.clients[c].pc.at].mem.mapped
      ensures s.scripts[s.clients[c].pc.at].sem > 0
    {
      assert Addressed(s.clients[c], |s.scripts|);
      assert Bound(s.clients[c], |s.scripts|) == Some(s.clients[c].pc.at);
      SumAt(s.clients, c, HeldBy(s.clients[c].pc.at));
    }
    if k < |actions| && actions[k].ClientStep? && InSection(s.clients[actions[k].c].pc) {
      SectionTouchesLive(s, actions[k].c, actions[k].fails);
    }
  }

  lemma SectionTouchesLive(s: State, c: Cid, fails: bool)
    requires Inv(s) && Enabled(s, ClientStep(c, fails)) && InSection(s.clients[c].pc)
    ensures forall i :: 0 <= i < |s.scripts| ==>
        StepClient(s, c, fails).scripts[i].mem.touchedFreed == s.scripts[i].mem.touchedFreed
  {
    var cl := s.clients[c];
    match Target(cl, |s.scripts|)
    case Some(i) => assert LifeOk(s.scripts[i]) && PairOk(cl, s.scripts[i]);
    case None =>
  }

  /** Whoever holds a reference to a script without a pool took it late. */
  lemma HolderOfFreedIsLate(s: State, c: Cid, i: Sid)
    requires Inv(s) && c < |s.clients| && i < |s.scripts| && Held(s.clients[c], i) > 0 && !s.scripts[i].mem.poolLive
    ensures s.clients[c].pc in {Holding(true), Releasing(true)} && s.scripts[i].mem.lateLookup
  {
    assert LifeOk(s.scripts[i]) && Addressed(s.clients[c], |s.scripts|) && PairOk(s.clients[c], s.scripts[i]);
  }

  /** Script references. The counter is exact. When a script's pool is gone, every reference still
      out was taken late, after the drain loop saw zero; and the freed script is accessed by a
      client only if a lookup came late. */
  lemma ReferencesOfFreedScript(states: seq<State>, actions: seq<Action>, k: nat, i: Sid)
    requires Run(states, actions) && k < |states| && i < |states[k].scripts|
    ensures
      var s := states[k];
      && s.scripts[i].sem == Sum(s.clients, HeldBy(i)) <= |s.clients|
      && (s.scripts[i].pc.Finishing? || s.scripts[i].pc.Done? ==> !s.scripts[i].mem.poolLive)
      && (!s.scripts[i].mem.poolLive && s.scripts[i].sem > 0 ==> s.scripts[i].mem.lateLookup)
      && (!s.scripts[i].mem.poolLive ==>
            forall c :: 0 <= c < |s.clients| && HeldBy(i)(s.clients[c]) > 0 ==>
                s.clients[c].pc in {Holding(true), Releasing(true)})
      && (s.scripts[i].mem.touchedFreed ==> s.scripts[i].mem.lateLookup)
  {
    RunKeepsInv(states, actions, k);
    var s := states[k];
    assert LifeOk(s.scripts[i]);
    SumBound(s.clients, HeldBy(i), 1);
    SumZero(s.clients, HeldBy(i));
    if !s.scripts[i].mem.poolLive {
      forall c | 0 <= c < |s.clients| && HeldBy(i)(s.clients[c]) > 0
        ensures s.clients[c].pc in {Holding(true), Releasing(true)} && s.scripts[i].mem.lateLookup
      {
        HolderOfFreedIsLate(s, c, i);
      }
    }
  }

  /** A late lookup is one that finds the script in the map although its drain loop has already
      seen zero: it falls between that reading and the deletion from the map. */
  lemma {:induction false} LateLookupInWindow(states: seq<State>, actions: seq<Action>, k: nat, i: Sid)
    requires Run(states, actions) && k < |states| && i < |states[k].scripts| && states[k].scripts[i].mem.lateLookup
    ensures exists j :: 0 <= j < k && IsLateLookup(states[j], actions[j], i)
  {
    if k > 0 {
      RunKeepsInv(states, actions, k - 1);
      var s, a := states[k - 1], actions[k - 1];
      assert states[k] == Apply(s, a);
      if s.scripts[i].mem.lateLookup {
        LateLookupInWindow(states, actions, k - 1, i);
      } else {
        LateComesFromLookup(s, a, i);
      }
    }
  }

  ghost predicate IsLateLookup(s: State, a: Action, i: Sid) {
    && i < |s.scripts| && a.ClientStep? && a.c < |s.clients| && s.clients[a.c].pc.Looking?
    && LooksUp(s.clients[a.c].command) && s.clients[a.c].command.sid == i
    && s.scripts[i].mem.mapped
    && (s.scripts[i].pc.FreeingRuntime? || s.scripts[i].pc.ClearingReady? || s.scripts[i].pc.Deleting?)
  }

  lemma LateComesFromLookup(s: State, a: Action, i: Sid)
    requires Inv(s) && Enabled(s, a) && i < |s.scripts|
    requires Apply(s, a).scripts[i].mem.lateLookup && !s.scripts[i].mem.lateLookup
    ensures IsLateLookup(s, a, i)
  {
    assert LifeOk(s.scripts[i]);
    if a.ScriptStep? {
      assert LifeOk(s.scripts[a.i]);
      OwnStepKeeps(s.scripts[a.i], s.g, a.ends);
    }
  }

  /** So if no lookup falls in that window, no reference outlives the script and nothing touches
      it once it is freed. */
  lemma NoLateLookupNoDangling(states: seq<State>, actions: seq<Action>, k: nat, i: Sid)
    requires Run(states, actions) && k < |states| && i < |states[k].scripts|
    requires forall j :: 0 <= j < k ==> !IsLateLookup(states[j], actions[j], i)
    ensures !states[k].scripts[i].mem.touchedFreed
    ensures !states[k].scripts[i].mem.poolLive ==> states[k].scripts[i].sem == 0
  {
    if states[k].scripts[i].mem.lateLookup { LateLookupInWindow(states, actions, k, i); }
    ReferencesOfFreedScript(states, actions, k, i);
  }

  predicate PoolGone(pc: ScriptPc) { pc.Finishing? || pc.Done? }

  /** A client's step on a script without a pool: only a holder accesses it, and giving a reference
      back is an access. */
  lemma StepOnFreed(cl: Client, sc: Script, fails: bool, n: nat)
    requires Addressed(cl, n) && LifeOk(sc) && PoolGone(sc.pc) && Target(cl, n).Some?
    requires Bound(cl, n).Some? ==> PairOk(cl, sc)
    ensures
      var sc' := ScriptAfter(cl, sc, fails);
      && sc'.pc == sc.pc && sc'.sem <= sc.sem
      && (sc.mem.touchedFreed ==> sc'.mem.touchedFreed)
      && (sc'.sem < sc.sem ==> sc'.mem.touchedFreed)
      && (sc'.mem.touchedFreed && !sc.mem.touchedFreed ==> HoldsLooked(cl.pc))
  {
  }

  lemma AfterPoolStep(s: State, a: Action, i: Sid)
    requires Inv(s) && Enabled(s, a) && i < |s.scripts| && PoolGone(s.scripts[i].pc)
    ensures i < |Apply(s, a).scripts|
    ensures
      var sc, sc' := s.scripts[i], Apply(s, a).scripts[i];
      && PoolGone(sc'.pc) && sc'.sem <= sc.sem
      && (sc.mem.touchedFreed ==> sc'.mem.touchedFreed)
      && (sc'.sem < sc.sem ==> sc'.mem.touchedFreed)
      && (sc'.mem.touchedFreed && !sc.mem.touchedFreed ==> sc.sem > 0)
  {
    assert LifeOk(s.scripts[i]);
    if a.ClientStep? && Target(s.clients[a.c], |s.scripts|) == Some(i) {
      var cl := s.clients[a.c];
      assert Addressed(cl, |s.scripts|);
      if Bound(cl, |s.scripts|).Some? { assert PairOk(cl, s.scripts[i]); }
      StepOnFreed(cl, s.scripts[i], a.fails, |s.scripts|);
      SumAt(s.clients, a.c, HeldBy(i));
      assert HoldsLooked(cl.pc) ==> HeldBy(i)(cl) == 1;
    } else if a.ScriptStep? {
      OwnStepKeeps(s.scripts[a.i], s.g, a.ends);
    }
  }

  /** From the destruction of the pool on: a reference still out then is an access still to come. */
  lemma {:induction false} ReferencesBecomeAccesses(states: seq<State>, actions: seq<Action>, k: nat, n: nat, i: Sid)
    requires Run(states, actions) && k <= n < |states| && i < |states[k].scripts|
    requires PoolGone(states[k].scripts[i].pc) && !states[k].scripts[i].mem.touchedFreed
    ensures i < |states[n].scripts| && PoolGone(states[n].scripts[i].pc)
    ensures states[n].scripts[i].mem.touchedFreed ==> states[k].scripts[i].sem > 0
    ensures !states[n].scripts[i].mem.touchedFreed ==> states[n].scripts[i].sem == states[k].scripts[i].sem
    decreases n
  {
    if k < n {
      ReferencesBecomeAccesses(states, actions, k, n - 1, i);
      RunKeepsInv(states, actions, n - 1);
      AfterPoolStep(states[n - 1], actions[n - 1], i);
    }
  }

  lemma NobodyHolds(s: State, i: Sid)
    requires Inv(s) && i < |s.scripts| && forall c :: 0 <= c < |s.clients| ==> s.clients[c].pc.Finished?
    ensures s.scripts[i].sem == 0
  {
    SumZero(s.clients, HeldBy(i));
  }

  /** When every command has ended, a script whose pool was gone untouched has been accessed after
      its end if and only if references were out at the start. */
  lemma FreedScriptTouchedIff(states: seq<State>, actions: seq<Action>, k: nat, n: nat, i: Sid)
    requires Run(states, actions) && k <= n < |states| && i < |states[k].scripts|
    requires PoolGone(states[k].scripts[i].pc) && !states[k].scripts[i].mem.touchedFreed
    requires forall c :: 0 <= c < |states[n].clients| ==> states[n].clients[c].pc.Finished?
    ensures i < |states[n].scripts|
    ensures states[n].scripts[i].mem.touchedFreed <==> states[k].scripts[i].sem > 0
  {
    ReferencesBecomeAccesses(states, actions, k, n, i);
    RunKeepsInv(states, actions, n);
    NobodyHolds(states[n], i);
  }

  lemma TouchStep(s: State, a: Action, i: Sid)
    requires Inv(s) && Enabled(s, a) && i < |s.scripts| && !s.scripts[i].mem.touchedFreed
    ensures i < |Apply(s, a).scripts|
    ensures Apply(s, a).scripts[i].mem.touchedFreed ==> PoolGone(Apply(s, a).scripts[i].pc)
  {
    assert LifeOk(s.scripts[i]);
    if a.ClientStep? && Target(s.clients[a.c], |s.scripts|) == Some(i) {
      var cl := s.clients[a.c];
      assert Addressed(cl, |s.scripts|);
      if Bound(cl, |s.scripts|).Some? { assert PairOk(cl, s.scripts[i]); }
      LivePoolUntouched(cl, s.scripts[i], a.fails, |s.scripts|);
    } else if a.ScriptStep? {
      OwnStepKeeps(s.scripts[a.i], s.g, a.ends);
    }
  }

  lemma LivePoolUntouched(cl: Client, sc: Script, fails: bool, n: nat)
    requires Addressed(cl, n) && LifeOk(sc) && !sc.mem.touchedFreed && Target(cl, n).Some?
    requires Bound(cl, n).Some? ==> PairOk(cl, sc)
    ensures ScriptAfter(cl, sc, fails).mem.touchedFreed ==> PoolGone(ScriptAfter(cl, sc, fails).pc)
  {
  }

  lemma {:induction false} TouchedIsFreed(states: seq<State>, actions: seq<Action>, k: nat, i: Sid)
    requires Run(states, actions) && k < |states| && i < |states[k].scripts| && states[k].scripts[i].mem.touchedFreed
    ensures PoolGone(states[k].scripts[i].pc)
  {
    if k > 0 {
      var s, a := states[k - 1], actions[k - 1];
      RunKeepsInv(states, actions, k - 1);
      assert states[k] == Apply(s, a);
      if s.scripts[i].mem.touchedFreed {
        TouchedIsFreed(states, actions, k - 1, i);
        AfterPoolStep(s, a, i);
      } else {
        TouchStep(s, a, i);
      }
    }
  }

  /** Dangling references, exactly: when every command has ended, the script was accessed after its
      pool was destroyed if and only if `sem` was not zero at the destruction. */
  lemma DanglingIff(states: seq<State>, actions: seq<Action>, k: nat, n: nat, i: Sid)
    requires Run(states, actions) && k < n < |states|
    requires actions[k].ScriptStep? && actions[k].i == i
    requires i < |states[k].scripts| && states[k].scripts[i].pc.FreeingPool?
    requires forall c :: 0 <= c < |states[n].clients| ==> states[n].clients[c].pc.Finished?
    ensures i < |states[n].scripts|
    ensures states[n].scripts[i].mem.touchedFreed <==> states[k].scripts[i].sem > 0
  {
    if states[k].scripts[i].mem.touchedFreed { TouchedIsFreed(states, actions, k, i); }
    RunKeepsInv(states, actions, k);
    assert states[k + 1] == StepScript(states[k], i, actions[k].ends);
    FreedScriptTouchedIff(states, actions, k + 1, n, i);
  }

  /** The thread counter is exact: background scripts between launch and thread_finished, and the
      other live detached threads. Foreground scripts are not counted. */
  lemma ActiveThreadsExact(states: seq<State>, actions: seq<Action>, k: nat)
    requires Run(states, actions) && k < |states|
    ensures
      var s := states[k];
      && s.g.active == Sum(s.scripts, Active) + s.g.others
      && (s.g.active == 0 ==> s.g.others == 0 && forall i :: 0 <= i < |s.scripts| ==> Active(s.scripts[i]) == 0)
      && (forall i :: 0 <= i < |s.scripts| && s.scripts[i].pc.Finishing? ==> s.g.active > 0)
  {
    RunKeepsInv(states, actions, k);
    var s := states[k];
    SumZero(s.scripts, Active);
    forall i | 0 <= i < |s.scripts| && s.scripts[i].pc.Finishing? ensures s.g.active > 0 {
      assert LifeOk(s.scripts[i]);
      SumAt(s.scripts, i, Active);
    }
  }

  // ---- runs in which something goes wrong ------------------------------------------------

  lemma Extend(states: seq<State>, actions: seq<Action>, a: Action) returns (states': seq<State>, actions': seq<Action>)
    requires Run(states, actions) && Enabled(states[|actions|], a)
    ensures Run(states', actions') && |actions'| == |actions| + 1
    ensures states' == states + [Apply(states[|actions|], a)] && actions' == actions + [a]
  {
    states', actions' := states + [Apply(states[|actions|], a)], actions + [a];
  }

  /** Launching script 0 by client 0 with nothing else going on. */
  lemma LaunchFirst(clients: seq<Client>, background: bool) returns (states: seq<State>, actions: seq<Action>)
    requires Init(State([NewScript(0)], clients, Globals(None, false, 0, 0, true, false)))
    requires |clients| == 2 && clients[0] == Client(RunScript(0, background), Ready)
    ensures Run(states, actions)
    ensures
      var s := states[|actions|];
      && |s.scripts| == 1 && s.scripts[0] == NewScript(0).(pc := Begin, background := background,
                                                            mem := Memory(true, true, false, false))
      && |s.clients| == 2 && s.clients[1] == clients[1]
      && s.g == Globals(None, false, if background then 1 else 0, 0, true, false)
  {
    states, actions := [State([NewScript(0)], clients, Globals(None, false, 0, 0, true, false))], [];
    states, actions := Extend(states, actions, ClientStep(0, false));
    states, actions := Extend(states, actions, ClientStep(0, false));
    states, actions := Extend(states, actions, ClientStep(0, false));
  }

  /** The script ends at once and its drain loop sees zero. */
  lemma SeesZero() returns (states: seq<State>, actions: seq<Action>)
    ensures Run(states, actions)
    ensures
      var s := states[|actions|];
      && |s.scripts| == 1 && |s.clients| == 2 && s.clients[1] == Client(Interrupt(0), Ready)
      && s.g == Globals(None, false, 1, 0, true, false)
      && s.scripts[0] == NewScript(0).(pc := FreeingRuntime, background := true,
                                       flags := Flags(false, true, false), mem := Memory(true, true, false, false))
  {
    states, actions := LaunchFirst([Client(RunScript(0, true), Ready), Client(Interrupt(0), Ready)], true);
    states, actions := Extend(states, actions, ScriptStep(0, true));
    states, actions := Extend(states, actions, ScriptStep(0, true));
    states, actions := Extend(states, actions, ScriptStep(0, true));
  }

  /** And then a lookup finds it. */
  lemma LookupInWindow() returns (states: seq<State>, actions: seq<Action>)
    ensures Run(states, actions)
    ensures
      var s := states[|actions|];
      && |s.scripts| == 1 && |s.clients| == 2 && s.clients[1] == Client(Interrupt(0), Holding(true)) && s.g.lock == None
      && s.scripts[0] == NewScript(0).(pc := FreeingRuntime, background := true, sem := 1,
                                       flags := Flags(false, true, false), mem := Memory(true, true, true, false))
  {
    states, actions := SeesZero();
    states, actions := Extend(states, actions, ClientStep(1, false));
    states, actions := Extend(states, actions, ClientStep(1, false));
  }

  /** The shutdown has taken the map mutex while a foreground script is about to begin. */
  lemma SweepBegins() returns (states: seq<State>, actions: seq<Action>)
    ensures Run(states, actions)
    ensures
      var s := states[|actions|];
      && |s.scripts| == 1 && |s.clients| == 2 && s.clients[1] == Client(ShutdownModule, Sweeping(0))
      && s.scripts[0] == NewScript(0).(pc := Begin, mem := Memory(true, true, false, false))
      && s.g == Globals(Some(1), true, 0, 0, true, false)
  {
    states, actions := LaunchFirst([Client(RunScript(0, false), Ready), Client(ShutdownModule, Ready)], false);
    states, actions := Extend(states, actions, ClientStep(1, false));
    states, actions := Extend(states, actions, ClientStep(1, false));
  }

  /** Its sweep passes the script, which is not ready yet. */
  lemma SweepPassesForeground() returns (states: seq<State>, actions: seq<Action>)
    ensures Run(states, actions)
    ensures
      var s := states[|actions|];
      && |s.scripts| == 1 && |s.clients| == 2 && s.clients[1] == Client(ShutdownModule, Waiting)
      && s.scripts[0] == NewScript(0).(pc := Begin, mem := Memory(true, true, false, false))
      && s.g == Globals(None, true, 0, 0, true, false)
  {
    states, actions := SweepBegins();
    states, actions := Extend(states, actions, ClientStep(1, false));
    states, actions := Extend(states, actions, ClientStep(1, false));
  }

  /** The script is gone while the reference is still out. */
  lemma PoolGoneUnderReference() returns (states: seq<State>, actions: seq<Action>)
    ensures Run(states, actions)
    ensures
      var s := states[|actions|];
      && |s.scripts| == 1 && |s.clients| == 2 && s.clients[1] == Client(Interrupt(0), Holding(true)) && s.g.lock == None
      && s.scripts[0] == NewScript(0).(pc := Finishing, background := true, sem := 1,
                                       flags := Flags(false, true, false), mem := Memory(false, false, true, false))
  {
    states, actions := LookupInWindow();
    states, actions := Extend(states, actions, ScriptStep(0, true));
    states, actions := Extend(states, actions, ScriptStep(0, true));
    states, actions := Extend(states, actions, ScriptStep(0, true));
    states, actions := Extend(states, actions, ScriptStep(0, true));
  }

  /** The window is real: an `int` command whose lookup falls into it works on freed memory. */
  lemma LateLookupTouchesFreed() returns (states: seq<State>, actions: seq<Action>)
    ensures Run(states, actions)
    ensures
      var s := states[|actions|];
      |s.scripts| == 1 && !s.scripts[0].mem.poolLive && s.scripts[0].mem.touchedFreed && s.scripts[0].sem == 1
  {
    states, actions := PoolGoneUnderReference();
    states, actions := Extend(states, actions, ClientStep(1, false));
  }

  /** It reads zero active threads and destroys the map while the script still runs. */
  lemma MapDestroyedUnderForeground() returns (states: seq<State>, actions: seq<Action>)
    ensures Run(states, actions)
    ensures
      var s := states[|actions|];
      && |s.scripts| == 1 && |s.clients| == 2 && s.clients[1] == Client(ShutdownModule, Finished)
      && s.scripts[0] == NewScript(0).(pc := Draining, flags := Flags(false, true, false),
                                       mem := Memory(true, true, false, false))
      && s.g == Globals(None, true, 0, 0, false, false)
  {
    states, actions := SweepPassesForeground();
    states, actions := Extend(states, actions, ClientStep(1, false));
    states, actions := Extend(states, actions, ClientStep(1, false));
    states, actions := Extend(states, actions, ScriptStep(0, true));
    states, actions := Extend(states, actions, ScriptStep(0, true));
  }

  /** The shutdown does not wait for a foreground script, which then deletes itself from a map that
      no longer exists. */
  lemma ForegroundOutlivesMap() returns (states: seq<State>, actions: seq<Action>)
    ensures Run(states, actions)
    ensures
      var s := states[|actions|];
      |s.clients| == 2 && s.clients[1] == Client(ShutdownModule, Finished) && s.g.mapFault
  {
    states, actions := MapDestroyedUnderForeground();
    states, actions := Extend(states, actions, ScriptStep(0, true));
    states, actions := Extend(states, actions, ScriptStep(0, true));
    states, actions := Extend(states, actions, ScriptStep(0, true));
    states, actions := Extend(states, actions, ScriptStep(0, true));
  }
}
