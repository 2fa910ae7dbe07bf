/** The two kinds of script objects that own detached threads, seen alike: sessions with their
    playback threads and CURL objects with their workers. */
module Objects {
  import opened Sums
  import P = Playback
  import C = CurlJobs

  datatype Object = SessionObject(p: P.State) | CurlObject(q: C.State)

  datatype Action = OnSession(p: P.Action) | OnCurl(q: C.Action)

  ghost predicate Enabled(o: Object, a: Action) {
    match (o, a)
    case (SessionObject(p), OnSession(x)) => P.Enabled(p, x)
    case (CurlObject(q), OnCurl(x)) => C.Enabled(q, x)
    case _ => false
  }

  function Apply(o: Object, a: Action): Object
    requires Enabled(o, a)
  {
    if a.OnSession? then SessionObject(P.Apply(o.p, a.p)) else CurlObject(C.Apply(o.q, a.q))
  }

  ghost predicate Inv(o: Object) { if o.SessionObject? then P.Inv(o.p) else C.Inv(o.q) }

  /** The script thread is not inside an operation on the object. */
  predicate Idle(o: Object) { if o.SessionObject? then o.p.script.Idle? else o.q.script.Idle? }

  /** The finalizer is through. */
  predicate Freed(o: Object) { if o.SessionObject? then o.p.script.Freed? else o.q.script.Freed? }

  predicate ByThread(a: Action) { if a.OnSession? then a.p.ThreadStep? else a.q.WorkerStep? }

  function ThreadOf(a: Action): nat
    requires ByThread(a)
  {
    if a.OnSession? then a.p.t else a.q.k
  }

  predicate BeginsCall(a: Action) { if a.OnSession? then P.BeginsCall(a.p) else C.BeginsCall(a.q) }

  predicate BeginsFinalizer(a: Action) { if a.OnSession? then a.p.ClearReady? else a.q.BeginFinalize? }

  /** The action calls launch_thread. */
  predicate LaunchesThread(a: Action) { if a.OnSession? then a.p.LaunchPlayback? else a.q.LaunchJob? }

  /** The action is a thread's call of thread_finished. */
  ghost predicate EndsThread(o: Object, a: Action)
    requires Enabled(o, a)
  {
    ByThread(a) && if a.OnSession? then o.p.threads[a.p.t].pc.Finishing? else o.q.workers[a.q.k].pc.Detached?
  }

  /** Where the action reads the module's shutdown flag, it reads this value. */
  predicate Reads(a: Action, shutdown: bool) {
    a.OnSession? && (a.p.ThreadStep? || a.p.StopPoll?) ==> a.p.shutdown == shutdown
  }

  function PlayerAlive(th: P.Thread): nat { if th.pc.Done? then 0 else 1 }

  function WorkerAlive(w: C.Worker): nat { if w.pc.Done? then 0 else 1 }

  /** Detached threads of the object that have not called thread_finished. */
  function LiveThreads(o: Object): nat {
    if o.SessionObject? then Sum(o.p.threads, PlayerAlive) else Sum(o.q.workers, WorkerAlive)
  }

  predicate ThreadAlive(o: Object, t: nat) {
    if o.SessionObject? then t < |o.p.threads| && !o.p.threads[t].pc.Done?
    else t < |o.q.workers| && !o.q.workers[t].pc.Done?
  }

  /** Thread t of the object may still access it. */
  predicate ThreadTouches(o: Object, t: nat) {
    if o.SessionObject? then t < |o.p.threads| && P.Touches(o.p.threads[t])
    else t < |o.q.workers| && C.Unfinished(o.q.workers[t]) == 1
  }

  function Potential(o: Object): nat { if o.SessionObject? then P.Potential(o.p) else C.Potential(o.q) }

  const CALL_COST: nat := P.CALL_COST

  lemma StepKeepsInv(o: Object, a: Action)
    requires Inv(o) && Enabled(o, a)
    ensures Inv(Apply(o, a))
  {
    if a.OnSession? { P.StepKeepsInv(o.p, a.p); } else { C.StepKeepsInv(o.q, a.q); }
  }

  lemma PotentialStep(o: Object, a: Action)
    requires Inv(o) && Enabled(o, a)
    ensures
      if BeginsCall(a) then Potential(Apply(o, a)) <= Potential(o) + CALL_COST
      else Potential(Apply(o, a)) < Potential(o)
  {
    if a.OnSession? { P.PotentialStep(o.p, a.p); } else { C.PotentialStep(o.q, a.q); }
  }

  /** Script steps begin calls exactly from idle; thread steps leave the script's position alone. */
  lemma ScriptPosition(o: Object, a: Action)
    requires Inv(o) && Enabled(o, a)
    ensures ByThread(a) ==> Idle(Apply(o, a)) == Idle(o) && Freed(Apply(o, a)) == Freed(o)
    ensures !ByThread(a) ==> !Freed(o) && (Idle(o) <==> BeginsCall(a) || BeginsFinalizer(a))
    ensures BeginsCall(a) || BeginsFinalizer(a) ==> !Freed(Apply(o, a)) && !ByThread(a) && !LaunchesThread(a)
    ensures BeginsFinalizer(a) ==> !Idle(Apply(o, a)) && !BeginsCall(a)
    ensures LaunchesThread(a) ==> !ByThread(a) && !EndsThread(o, a)
  {
    if a.OnSession? {
      if a.p.ThreadStep? { P.ThreadStepKeepsInv(o.p, a.p.t, a.p.shutdown); }
    }
  }

  lemma PlayerEnds(s: P.State, t: P.Tid, shutdown: bool)
    requires P.Enabled(s, P.ThreadStep(t, shutdown))
    ensures
      var s' := P.StepThread(s, t, shutdown);
      && s'.threads == s.threads[t := s'.threads[t]]
      && (s'.threads[t].pc.Done? <==> s.threads[t].pc.Finishing?)
  {
  }

  lemma SessionLiveThreads(s: P.State, a: P.Action)
    requires P.Inv(s) && P.Enabled(s, a)
    ensures
      Sum(P.Apply(s, a).threads, PlayerAlive)
      == Sum(s.threads, PlayerAlive) + (if a.LaunchPlayback? then 1 else 0)
         - (if EndsThread(SessionObject(s), OnSession(a)) then 1 else 0)
  {
    var s' := P.Apply(s, a);
    match a
    case ThreadStep(t, sd) =>
      PlayerEnds(s, t, sd);
      SumUpdate(s.threads, t, s'.threads[t], PlayerAlive);
    case LaunchPlayback => SumAppend(s.threads, P.Thread(P.Spawned(s.script.emptyPath), P.NEW_HANDLE), PlayerAlive);
    case ControlBg(c) => ControlKeepsAlive(s, c);
    case FgBegin => ControlKeepsAlive(s, P.Pause);
    case FgEnd => ControlKeepsAlive(s, P.Resume);
    case _ =>
  }

  lemma ControlKeepsAlive(s: P.State, c: P.Control)
    requires P.Inv(s)
    ensures Sum(P.ControlInstalled(s, c).threads, PlayerAlive) == Sum(s.threads, PlayerAlive)
  {
    if s.fh.Some? {
      var t := s.fh.value;
      SumUpdate(s.threads, t, s.threads[t].(handle := P.ControlHandle(s.threads[t].handle, c)), PlayerAlive);
    }
  }

  lemma CurlLiveThreads(s: C.State, a: C.Action)
    requires C.Inv(s) && C.Enabled(s, a)
    ensures
      Sum(C.Apply(s, a).workers, WorkerAlive)
      == Sum(s.workers, WorkerAlive) + (if a.LaunchJob? then 1 else 0)
         - (if EndsThread(CurlObject(s), OnCurl(a)) then 1 else 0)
  {
    match a
    case WorkerStep(k) =>
      C.WorkerStepLowers(s, k);
      SumUpdate(s.workers, k, C.StepWorker(s, k).workers[k], WorkerAlive);
    case LaunchJob => SumAppend(s.workers, C.Worker(C.Performing, s.jobSeq), WorkerAlive);
    case _ =>
  }

  /** launch_thread and thread_finished are called exactly where a detached thread comes or goes. */
  lemma LiveThreadsStep(o: Object, a: Action)
    requires Inv(o) && Enabled(o, a)
    ensures
      LiveThreads(Apply(o, a))
      == LiveThreads(o) + (if LaunchesThread(a) then 1 else 0) - (if EndsThread(o, a) then 1 else 0)
  {
    if a.OnSession? { SessionLiveThreads(o.p, a.p); } else { CurlLiveThreads(o.q, a.q); }
  }

  /** A live detached thread can always take its next step: it waits for nothing without a bound. */
  lemma LiveThreadMoves(o: Object, t: nat, shutdown: bool) returns (a: Action)
    requires Inv(o) && ThreadAlive(o, t)
    ensures Enabled(o, a) && ByThread(a) && ThreadOf(a) == t && Reads(a, shutdown)
  {
    a := if o.SessionObject? then OnSession(P.ThreadStep(t, shutdown)) else OnCurl(C.WorkerStep(t));
  }

  /** Without live threads nothing holds up the script inside an operation on the object: the
      counter its finalizer waits for is zero. */
  lemma ScriptMovesWhenAlone(o: Object, shutdown: bool) returns (a: Action)
    requires Inv(o) && (forall t: nat :: !ThreadAlive(o, t)) && !Idle(o) && !Freed(o)
    ensures Enabled(o, a) && !ByThread(a) && !BeginsCall(a) && !BeginsFinalizer(a) && Reads(a, shutdown)
  {
    if o.SessionObject? {
      var s := o.p;
      forall t | 0 <= t < |s.threads| ensures P.Hold(s.threads[t]) == 0 { assert !ThreadAlive(o, t); }
      SumZero(s.threads, P.Hold);
      a := OnSession(match s.script
                     case Starting(_) => P.LaunchPlayback
                     case StopCall(_) => P.StopPoll(shutdown)
                     case FgPlaying(_) => P.FgEnd
                     case FinalStop => P.FinalStopStep
                     case _ => P.ObserveDrained);
    } else {
      var s := o.q;
      forall t | 0 <= t < |s.workers| ensures C.Unfinished(s.workers[t]) == 0 { assert !ThreadAlive(o, t); }
      SumZero(s.workers, C.Unfinished);
      a := OnCurl(match s.script
                  case JobCounted => C.NumberJob
                  case JobNumbered => C.LaunchJob
                  case Cleaning => if CanPopNow(s) then C.CleanOne else C.CleanEnd
                  case Terminating => C.TerminateQueue
                  case _ => C.ObserveDrained);
    }
  }

  predicate CanPopNow(s: C.State) { !s.queue.terminated && s.queue.items != [] }

  /** A freed object is not accessed by any thread. */
  lemma FreedIsUntouched(o: Object, t: nat)
    requires Inv(o) && ThreadTouches(o, t)
    ensures !Freed(o)
  {
    if o.SessionObject? { SumAt(o.p.threads, t, P.Hold); } else { SumAt(o.q.workers, t, C.Unfinished); }
  }

  lemma NoLiveThreads(o: Object)
    ensures LiveThreads(o) == 0 <==> forall t: nat :: !ThreadAlive(o, t)
  {
    if o.SessionObject? {
      SumZero(o.p.threads, PlayerAlive);
      if LiveThreads(o) == 0 {
        forall t: nat ensures !ThreadAlive(o, t) { if t < |o.p.threads| { assert PlayerAlive(o.p.threads[t]) == 0; } }
      }
      if forall t: nat :: !ThreadAlive(o, t) {
        forall t | 0 <= t < |o.p.threads| ensures PlayerAlive(o.p.threads[t]) == 0 { assert !ThreadAlive(o, t); }
      }
    } else {
      SumZero(o.q.workers, WorkerAlive);
      if LiveThreads(o) == 0 {
        forall t: nat ensures !ThreadAlive(o, t) { if t < |o.q.workers| { assert WorkerAlive(o.q.workers[t]) == 0; } }
      }
      if forall t: nat :: !ThreadAlive(o, t) {
        forall t | 0 <= t < |o.q.workers| ensures WorkerAlive(o.q.workers[t]) == 0 { assert !ThreadAlive(o, t); }
      }
    }
  }
}
