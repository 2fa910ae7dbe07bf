/** The CURL object itself: the C functions of js_curl.c and js_curl_misc.c that start jobs, run
    them, hand out results and finalize the object, run under interference from the other
    threads and proved to follow the CurlJobs system. */
module CurlObject {
  import opened Sums
  import opened Queues
  import opened CurlJobs

  datatype Actor = ScriptThread | WorkerThread(k: Job)

  function ActorOf(a: Action): Actor {
    if a.WorkerStep? then WorkerThread(a.k) else ScriptThread
  }

  ghost predicate Present(s: State, me: Actor) {
    me.WorkerThread? ==> me.k < |s.workers|
  }

  /** A stretch of a run in which `me` takes no step. */
  ghost predicate Path(states: seq<State>, actions: seq<Action>, me: Actor) {
    && |states| == |actions| + 1
    && forall i :: 0 <= i < |actions| ==>
         && Enabled(states[i], actions[i])
         && states[i + 1] == Apply(states[i], actions[i])
         && ActorOf(actions[i]) != me
  }

  ghost predicate OthersRan(s: State, s': State, me: Actor) {
    exists states, actions :: Path(states, actions, me) && states[0] == s && states[|actions|] == s'
  }

  /** What the others leave alone. The workers can push, but each push uses up a worker, so their
      steps never raise the potential; this is what ends the cleaning loop. */
  ghost predicate Undisturbed(s: State, s': State, me: Actor)
    requires Present(s, me)
  {
    && Inv(s')
    && (match me
        case WorkerThread(k) => k < |s'.workers| && s'.workers[k].pc == s.workers[k].pc
        case ScriptThread =>
          && s'.script == s.script && s'.destroying == s.destroying && s'.jobSeq == s.jobSeq
          && s'.queue.terminated == s.queue.terminated && |s'.workers| == |s.workers|
          && s'.h.delivered == s.h.delivered && s'.h.cleaned == s.h.cleaned && s'.h.cleanMark == s.h.cleanMark
          && Potential(s') <= Potential(s))
  }

  lemma OtherStepLeavesMine(s: State, a: Action, me: Actor)
    requires Inv(s) && Present(s, me) && Enabled(s, a) && ActorOf(a) != me
    ensures Undisturbed(s, Apply(s, a), me)
  {
    StepKeepsInv(s, a);
    if a.WorkerStep? {
      SumAt(s.workers, a.k, Unfinished);
      WorkerStepOwn(s, a.k);
      PotentialStep(s, a);
    }
  }

  lemma {:induction false} OthersLeaveMine(states: seq<State>, actions: seq<Action>, me: Actor)
    requires Path(states, actions, me) && Inv(states[0]) && Present(states[0], me)
    ensures Undisturbed(states[0], states[|actions|], me)
    decreases |actions|
  {
    if actions != [] {
      var n := |actions| - 1;
      OthersLeaveMine(states[..n + 1], actions[..n], me);
      OtherStepLeavesMine(states[n], actions[n], me);
    }
  }

  /** The workers cannot go on for ever: each of their steps lowers the potential. */
  lemma {:induction false} OthersLower(states: seq<State>, actions: seq<Action>)
    requires Path(states, actions, ScriptThread) && Inv(states[0])
    ensures Inv(states[|actions|]) && Potential(states[|actions|]) + |actions| <= Potential(states[0])
    decreases |actions|
  {
    if actions != [] {
      var n := |actions| - 1;
      OthersLower(states[..n + 1], actions[..n]);
      StepKeepsInv(states[n], actions[n]);
      PotentialStep(states[n], actions[n]);
    }
  }

  ghost predicate OthersMoved(s: State, s': State, me: Actor) {
    exists states, actions :: Path(states, actions, me) && actions != [] && states[0] == s && states[|actions|] == s'
  }

  /** An active job has a worker with steps left. */
  lemma SomeWorker(s: State) returns (k: Job)
    requires Inv(s) && s.activeJobs > 0 && s.script.Draining?
    ensures k < |s.workers| && Unfinished(s.workers[k]) == 1
  {
    SumZero(s.workers, Unfinished);
    k :| 0 <= k < |s.workers| && Unfinished(s.workers[k]) != 0;
  }

  /** A worker that still refers to the object keeps it from being freed. */
  lemma WorkerKeepsObject(s: State, k: Job)
    requires Inv(s) && k < |s.workers| && Unfinished(s.workers[k]) == 1
    ensures !s.script.Freed? && s.activeJobs > 0
  {
    SumAt(s.workers, k, Unfinished);
  }

  /** The fields of js_curl_t, with the positions of the threads that run on it and the history of
      the results. */
  class JsCurl {
    var destroying: bool
    var jobSeq: nat
    var activeJobs: nat
    var events: Queue<Job>
    var workers: seq<Worker>
    var script: ScriptPc
    var history: History

    function View(): State
      reads this
    {
      State(destroying, jobSeq, activeJobs, events, workers, script, history)
    }

    constructor ()
      ensures View() == INITIAL && Inv(View())
    {
      destroying, jobSeq, activeJobs, events := false, 0, 0, Queue([], CURL_QUEUE_SIZE, false);
      workers, script, history := [], Idle, History([], [], [], {}, 0);
    }

    /** Any finite number of steps of the other threads. */
    method Interfere(ghost me: Actor)
      requires Inv(View()) && Present(View(), me)
      modifies this
      ensures OthersRan(old(View()), View(), me)
      ensures Undisturbed(old(View()), View(), me)
    {
      assert Path([View()], [], me);
    }

    /** Records that the fields now hold what action `a` leaves, and what it adds to the history. */
    method Advance(before: State, a: Action)
      requires Inv(before) && Enabled(before, a)
      requires
        var s' := Apply(before, a);
        destroying == s'.destroying && jobSeq == s'.jobSeq && activeJobs == s'.activeJobs && events == s'.queue
      modifies `workers, `script, `history
      ensures View() == Apply(before, a) && Inv(View())
    {
      var s' := Apply(before, a);
      workers, script, history := s'.workers, s'.script, s'.h;
      StepKeepsInv(before, a);
    }

    /** js_curl_job_next_id, a 32-bit counter. */
    method JobNextId() returns (id: nat)
      requires Inv(View()) && script == JobCounted
      modifies this
      ensures Inv(View()) && View() == Apply(old(View()), NumberJob)
      ensures id == jobSeq == (old(jobSeq) + 1) % UINT32
    {
      var before := View();
      jobSeq := (jobSeq + 1) % UINT32;
      id := jobSeq;
      Advance(before, NumberJob);
    }

    /** js_curl_request_exec_async: the id of the launched job. The guard of the counter and of the
        id is never false for an existing object, so a job is always launched. */
    method RequestExecAsync() returns (jid: nat)
      requires Inv(View()) && script == Idle
      modifies this
      ensures Inv(View()) && script == Idle
      ensures |workers| == |old(workers)| + 1 && workers[|old(workers)|] == Worker(Performing, jid)
      ensures jid == (|old(workers)| + 1) % UINT32
    {
      var before := View();
      activeJobs := activeJobs + 1;
      Advance(before, CountJob);
      Interfere(ScriptThread);
      jid := JobNextId();
      Interfere(ScriptThread);
      before := View();
      Advance(before, LaunchJob);
    }

    /** js_curl_get_bg_request_result: the oldest result not yet taken, if there is one. */
    method GetBgRequestResult() returns (result: Option<Job>)
      requires Inv(View()) && script == Idle
      modifies this
      ensures Inv(View()) && script == Idle
      ensures result == None <==> old(events.items) == []
      ensures result.Some? ==>
          history.delivered == old(history.delivered) + [result.value] && history.delivered <= history.pushed
      ensures result == None ==> View() == old(View())
    {
      var before := View();
      result := None;
      if CanPop(events) {
        result := Some(events.items[0]);
        events := Pop(events);
      }
      Advance(before, GetResult);
    }

    /** The end of the transfer: try to push the result; a result not accepted is freed. */
    method PushResult(k: Job) returns (accepted: bool)
      requires Inv(View()) && k < |workers| && workers[k].pc == Performing
      modifies this
      ensures Inv(View()) && View() == StepWorker(old(View()), k) && workers[k].pc == ConfigOwned
      ensures old(script) != Freed && script != Freed
      ensures accepted == CanPush(old(events))
      ensures if accepted then history.pushed == old(history.pushed) + [k] else k in history.dropped
    {
      var before := View();
      WorkerKeepsObject(before, k);
      accepted := CanPush(events);
      events := Push(events, k);
      Advance(before, WorkerStep(k));
    }

    /** A step of the worker that does not touch the object: freeing its request, or returning. */
    method LeaveObjectAlone(k: Job)
      requires Inv(View()) && k < |workers| && (workers[k].pc == ConfigOwned || workers[k].pc == Detached)
      modifies this
      ensures Inv(View()) && View() == old(View()).(workers := workers)
      ensures k < |workers| && workers[k].pc == if old(workers[k].pc) == ConfigOwned then Counted else Done
    {
      var before := View();
      Advance(before, WorkerStep(k));
    }

    /** js_curl_request_exec_thread, from its launch to its return. */
    method RequestExecThread(k: Job)
      requires Inv(View()) && k < |workers| && workers[k].pc == Performing
      modifies this
      ensures Inv(View()) && k < |workers| && workers[k].pc == Done
      ensures k in history.pushed || k in history.dropped
    {
      var accepted := PushResult(k);
      Interfere(WorkerThread(k));
      LeaveObjectAlone(k);
      Interfere(WorkerThread(k));
      JobFinished(k);
      Interfere(WorkerThread(k));
      LeaveObjectAlone(k);
    }

    /** js_curl_job_finished: the worker's last access to the object. */
    method JobFinished(k: Job)
      requires Inv(View()) && k < |workers| && workers[k].pc == Counted
      modifies this
      ensures Inv(View()) && View() == StepWorker(old(View()), k)
      ensures activeJobs == old(activeJobs) - 1 && workers[k].pc == Detached
      ensures old(script) != Freed && script != Freed
    {
      var before := View();
      WorkerKeepsObject(before, k);
      if activeJobs > 0 { activeJobs := activeJobs - 1; }
      Advance(before, WorkerStep(k));
    }

    /** js_curl_queue_clean: pops until a pop fails. Workers may push meanwhile, but only as many
        results as there are workers, so the loop ends. */
    method QueueClean()
      requires Inv(View()) && script == Cleaning
      modifies this
      ensures Inv(View()) && script == Terminating && events.items == [] && history.cleanMark == |history.pushed|
      ensures destroying == old(destroying) && |workers| == |old(workers)|
    {
      while CanPop(events)
        invariant Inv(View()) && script == Cleaning
        invariant destroying == old(destroying) && |workers| == |old(workers)|
        decreases Potential(View())
      {
        var before := View();
        events := Pop(events);
        Advance(before, CleanOne);
        PotentialStep(before, CleanOne);
        Interfere(ScriptThread);
      }
      var before := View();
      Advance(before, CleanEnd);
    }

    /** js_curl_finalizer up to the point where pool and object are freed. */
    method Finalizer()
      requires Inv(View()) && script == Idle
      modifies this
      ensures Inv(View()) && destroying && events.terminated
      ensures script == Freed && activeJobs == 0 && |events.items| <= CURL_QUEUE_SIZE
    {
      var before := View();
      destroying := true;
      Advance(before, BeginFinalize);
      Interfere(ScriptThread);
      QueueClean();
      Interfere(ScriptThread);
      before := View();
      events := events.(terminated := true);
      Advance(before, TerminateQueue);
      DrainJobs();
    }

    /** switch_yield while jobs are active: the workers run, and as one of them can, at least one
        step is taken. */
    method Yield()
      requires Inv(View()) && script == Draining && activeJobs > 0
      modifies this
      ensures OthersMoved(old(View()), View(), ScriptThread)
      ensures Undisturbed(old(View()), View(), ScriptThread) && Potential(View()) < Potential(old(View()))
    {
      var before := View();
      ghost var worker := SomeWorker(before);
      var k := 0;
      while Unfinished(workers[k]) == 0
        invariant k <= worker && View() == before
        decreases worker - k
      {
        k := k + 1;
      }
      var after := StepWorker(before, k);
      destroying, jobSeq, activeJobs, events := after.destroying, after.jobSeq, after.activeJobs, after.queue;
      workers, script, history := after.workers, after.script, after.h;
      OtherStepLeavesMine(before, WorkerStep(k), ScriptThread);
      PotentialStep(before, WorkerStep(k));
      assert View() == after == Apply(before, WorkerStep(k));
      assert Path([before, after], [WorkerStep(k)], ScriptThread);
    }

    /** The finalizer's loop on active_jobs. It ends: a yield lets some worker go on, and the
        workers have only so many steps left. */
    method DrainJobs()
      requires Inv(View()) && script == Draining
      modifies this
      ensures Inv(View()) && script == Freed && activeJobs == 0
    {
      while activeJobs != 0
        invariant Inv(View()) && script == Draining
        decreases Potential(View())
      {
        Yield();
      }
      var before := View();
      Advance(before, ObserveDrained);
    }
  }
}
