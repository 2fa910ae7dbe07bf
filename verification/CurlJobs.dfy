/** Background requests of one CURL object: js_curl.c and js_curl_misc.c. The script thread starts
    jobs, polls for results and finalizes the object; each job runs on its own detached thread and
    pushes its result on a queue of 128 entries. */
module CurlJobs {
  import opened Sums
  import opened Queues

  const CURL_QUEUE_SIZE: nat := 128
  const JID_NONE: nat := 0
  const UINT32: nat := 0x1_0000_0000

  /** A job is named by its place in the order of starts; `jid` is the 32-bit id scripts see. */
  type Job = nat

  datatype WorkerPc = Performing | ConfigOwned | Counted | Detached | Done

  datatype Worker = Worker(pc: WorkerPc, jid: nat)

  datatype ScriptPc = Idle | JobCounted | JobNumbered | Cleaning | Terminating | Draining | Freed

  /** What happened to each result so far; `cleanMark` is how many had been pushed when the
      finalizer saw the queue empty. */
  datatype History = History(
    pushed: seq<Job>,
    delivered: seq<Job>,
    cleaned: seq<Job>,
    dropped: set<Job>,
    cleanMark: nat)

  datatype State = State(
    destroying: bool,
    jobSeq: nat,
    activeJobs: nat,
    queue: Queue<Job>,
    workers: seq<Worker>,
    script: ScriptPc,
    h: History)

  const INITIAL := State(false, 0, 0, Queue([], CURL_QUEUE_SIZE, false), [], Idle, History([], [], [], {}, 0))

  datatype Action =
    | CountJob
    | NumberJob
    | LaunchJob
    | GetResult
    | BeginFinalize
    | CleanOne
    | CleanEnd
    | TerminateQueue
    | ObserveDrained
    | WorkerStep(k: Job)

  ghost predicate Enabled(s: State, a: Action) {
    match a
    case CountJob => s.script.Idle?
    case NumberJob => s.script.JobCounted?
    case LaunchJob => s.script.JobNumbered?
    case GetResult => s.script.Idle?
    case BeginFinalize => s.script.Idle?
    case CleanOne => s.script.Cleaning? && CanPop(s.queue)
    case CleanEnd => s.script.Cleaning? && !CanPop(s.queue)
    case TerminateQueue => s.script.Terminating?
    case ObserveDrained => s.script.Draining? && s.activeJobs == 0
    case WorkerStep(k) => k < |s.workers| && !s.workers[k].pc.Done?
  }

  function SetPc(s: State, k: Job, pc: WorkerPc): State
    requires k < |s.workers|
  {
    s.(workers := s.workers[k := s.workers[k].(pc := pc)])
  }

  /** js_curl_request_exec_thread: push the result or free it, free the request, report the job
      finished, report the thread finished. */
  function StepWorker(s: State, k: Job): State
    requires k < |s.workers| && !s.workers[k].pc.Done?
  {
    match s.workers[k].pc
    case Performing =>
      if CanPush(s.queue)
      then SetPc(s.(queue := Push(s.queue, k), h := s.h.(pushed := s.h.pushed + [k])), k, ConfigOwned)
      else SetPc(s.(h := s.h.(dropped := s.h.dropped + {k})), k, ConfigOwned)
    case ConfigOwned => SetPc(s, k, Counted)
    case Counted => SetPc(s.(activeJobs := if s.activeJobs > 0 then s.activeJobs - 1 else 0), k, Detached)
    case Detached => SetPc(s, k, Done)
  }

  function Apply(s: State, a: Action): State
    requires Enabled(s, a)
  {
    match a
    case CountJob => s.(activeJobs := s.activeJobs + 1, script := JobCounted)
    case NumberJob => s.(jobSeq := (s.jobSeq + 1) % UINT32, script := JobNumbered)
    case LaunchJob => s.(workers := s.workers + [Worker(Performing, s.jobSeq)], script := Idle)
    case GetResult =>
      if CanPop(s.queue) then s.(queue := Pop(s.queue), h := s.h.(delivered := s.h.delivered + [s.queue.items[0]])) else s
    case BeginFinalize => s.(destroying := true, script := Cleaning)
    case CleanOne => s.(queue := Pop(s.queue), h := s.h.(cleaned := s.h.cleaned + [s.queue.items[0]]))
    case CleanEnd => s.(script := Terminating, h := s.h.(cleanMark := |s.h.pushed|))
    case TerminateQueue => s.(queue := s.queue.(terminated := true), script := Draining)
    case ObserveDrained => s.(script := Freed)
    case WorkerStep(k) => StepWorker(s, k)
  }

  // ---- the invariant ---------------------------------------------------------------------

  /** The worker still refers to the CURL object: it has not called js_curl_job_finished. */
  function Unfinished(w: Worker): nat { if w.pc.Detached? || w.pc.Done? then 0 else 1 }

  predicate Past(script: ScriptPc) { script.Terminating? || script.Draining? || script.Freed? }

  ghost predicate CountInv(s: State) {
    && s.activeJobs == Sum(s.workers, Unfinished) + (if s.script.JobCounted? || s.script.JobNumbered? then 1 else 0)
    && (s.script.Freed? ==> s.activeJobs == 0)
    && (s.destroying <==> s.script.Cleaning? || Past(s.script))
    && (s.queue.terminated <==> s.script.Draining? || s.script.Freed?)
  }

  ghost predicate IdInv(s: State) {
    && s.jobSeq == (|s.workers| + if s.script.JobNumbered? then 1 else 0) % UINT32
    && forall k :: 0 <= k < |s.workers| ==> s.workers[k].jid == (k + 1) % UINT32
  }

  /** Every finished job's result was pushed or dropped, and only those; the pushed ones went to
      the script, then to the cleaning, and the rest is still queued, in push order. */
  ghost predicate ResultInv(s: State) {
    && s.queue.capacity == CURL_QUEUE_SIZE && |s.queue.items| <= CURL_QUEUE_SIZE
    && s.h.pushed == s.h.delivered + s.h.cleaned + s.queue.items
    && Distinct(s.h.pushed)
    && (forall k :: k in s.h.pushed ==> k < |s.workers| && !s.workers[k].pc.Performing? && k !in s.h.dropped)
    && (forall k :: k in s.h.dropped ==> k < |s.workers| && !s.workers[k].pc.Performing?)
    && (forall k :: 0 <= k < |s.workers| && !s.workers[k].pc.Performing? ==> k in s.h.pushed || k in s.h.dropped)
    && (!s.destroying ==> s.h.cleaned == [])
    && (Past(s.script) ==> s.h.cleanMark == |s.h.delivered| + |s.h.cleaned|)
  }

  ghost predicate Inv(s: State) { CountInv(s) && IdInv(s) && ResultInv(s) }

  /** A worker's step changes its own position and, when it reports the job finished, the
      counter by as much; it leaves flags and script alone. */
  lemma WorkerStepOwn(s: State, k: Job)
    requires Enabled(s, WorkerStep(k)) && Unfinished(s.workers[k]) <= s.activeJobs
    ensures
      var s' := StepWorker(s, k);
      && |s'.workers| == |s.workers| && s'.workers == s.workers[k := s'.workers[k]]
      && s'.workers[k].jid == s.workers[k].jid && !s'.workers[k].pc.Performing?
      && s'.activeJobs + Unfinished(s.workers[k]) == s.activeJobs + Unfinished(s'.workers[k])
      && s'.destroying == s.destroying && s'.script == s.script && s'.queue.terminated == s.queue.terminated
      && s'.queue.capacity == s.queue.capacity && s'.jobSeq == s.jobSeq
      && s'.h.delivered == s.h.delivered && s'.h.cleaned == s.h.cleaned && s'.h.cleanMark == s.h.cleanMark
  {
  }

  lemma StepKeepsCountInv(s: State, a: Action)
    requires CountInv(s) && Enabled(s, a)
    ensures CountInv(Apply(s, a))
  {
    match a
    case WorkerStep(k) =>
      SumAt(s.workers, k, Unfinished);
      WorkerStepOwn(s, k);
      SumUpdate(s.workers, k, StepWorker(s, k).workers[k], Unfinished);
    case LaunchJob => SumAppend(s.workers, Worker(Performing, s.jobSeq), Unfinished);
    case _ =>
  }

  lemma StepKeepsIdInv(s: State, a: Action)
    requires IdInv(s) && Enabled(s, a)
    ensures IdInv(Apply(s, a))
  {
  }

  lemma PushKeepsResultInv(s: State, k: Job)
    requires ResultInv(s) && CountInv(s) && k < |s.workers| && s.workers[k].pc.Performing? && CanPush(s.queue)
    ensures ResultInv(StepWorker(s, k))
  {
    var s' := StepWorker(s, k);
    assert s'.h.pushed == s.h.delivered + s.h.cleaned + (s.queue.items + [k]);
    assert k !in s.h.pushed && k !in s.h.dropped;
    forall j | j in s'.h.pushed ensures j < |s'.workers| && !s'.workers[j].pc.Performing? && j !in s'.h.dropped {
      assert j in s.h.pushed || j == k;
    }
  }

  lemma DropKeepsResultInv(s: State, k: Job)
    requires ResultInv(s) && k < |s.workers| && s.workers[k].pc.Performing? && !CanPush(s.queue)
    ensures ResultInv(StepWorker(s, k))
  {
    var s' := StepWorker(s, k);
    assert k !in s.h.pushed;
    forall j | j in s'.h.dropped ensures j < |s'.workers| && !s'.workers[j].pc.Performing? {
      assert j in s.h.dropped || j == k;
    }
  }

  lemma ReturnKeepsResultInv(s: State, k: Job)
    requires ResultInv(s) && Enabled(s, WorkerStep(k)) && !s.workers[k].pc.Performing?
    ensures ResultInv(StepWorker(s, k))
  {
    var s' := StepWorker(s, k);
    assert forall j :: 0 <= j < |s.workers| ==> (s'.workers[j].pc.Performing? <==> s.workers[j].pc.Performing?);
  }

  lemma StepKeepsResultInv(s: State, a: Action)
    requires ResultInv(s) && CountInv(s) && Enabled(s, a)
    ensures ResultInv(Apply(s, a))
  {
    var q := s.queue.items;
    match a
    case WorkerStep(k) =>
      if !s.workers[k].pc.Performing? {
        ReturnKeepsResultInv(s, k);
      } else if CanPush(s.queue) {
        PushKeepsResultInv(s, k);
      } else {
        DropKeepsResultInv(s, k);
      }
    case GetResult =>
      if CanPop(s.queue) {
        assert q == [q[0]] + q[1..];
        assert s.h.delivered + [] + q == (s.h.delivered + [q[0]]) + [] + q[1..];
      }
    case CleanOne =>
      assert q == [q[0]] + q[1..];
      assert s.h.delivered + s.h.cleaned + q == s.h.delivered + (s.h.cleaned + [q[0]]) + q[1..];
    case _ =>
  }

  lemma StepKeepsInv(s: State, a: Action)
    requires Inv(s) && Enabled(s, a)
    ensures Inv(Apply(s, a))
  {
    StepKeepsCountInv(s, a);
    StepKeepsIdInv(s, a);
    StepKeepsResultInv(s, a);
  }

  // ---- whole runs ------------------------------------------------------------------------

  ghost predicate Run(states: seq<State>, actions: seq<Action>) {
    && |states| == |actions| + 1
    && states[0] == INITIAL
    && forall i :: 0 <= i < |actions| ==> Enabled(states[i], actions[i]) && states[i + 1] == Apply(states[i], actions[i])
  }

  lemma {:induction false} RunKeepsInv(states: seq<State>, actions: seq<Action>, i: nat)
    requires Run(states, actions) && i < |states|
    ensures Inv(states[i])
  {
    if i > 0 {
      RunKeepsInv(states, actions, i - 1);
      StepKeepsInv(states[i - 1], actions[i - 1]);
    }
  }

  /** Where the result of a job is. */
  datatype Place = Running | Queued | Delivered | Cleaned | Dropped

  predicate At(s: State, k: Job, p: Place)
    requires k < |s.workers|
  {
    match p
    case Running => s.workers[k].pc.Performing?
    case Queued => k in s.queue.items
    case Delivered => k in s.h.delivered
    case Cleaned => k in s.h.cleaned
    case Dropped => k in s.h.dropped
  }

  ghost predicate AtOnePlace(s: State, k: Job)
    requires k < |s.workers|
  {
    exists p :: At(s, k, p) && forall p' :: At(s, k, p') ==> p' == p
  }

  /** Job conservation: in every reachable state each started job is at exactly one place, at most
      128 results are queued, and results come back in the order they were pushed. */
  lemma JobsAreConserved(states: seq<State>, actions: seq<Action>, i: nat)
    requires Run(states, actions) && i < |states|
    ensures
      var s := states[i];
      && (forall k :: 0 <= k < |s.workers| ==> AtOnePlace(s, k))
      && (forall k :: k in s.h.pushed || k in s.h.dropped ==> k < |s.workers|)
      && Distinct(s.h.pushed)
      && |s.queue.items| <= CURL_QUEUE_SIZE
      && s.h.delivered <= s.h.pushed
      && s.h.pushed == s.h.delivered + s.h.cleaned + s.queue.items
  {
    RunKeepsInv(states, actions, i);
    var s := states[i];
    forall k | 0 <= k < |s.workers|
      ensures AtOnePlace(s, k)
    {
      OnePlace(s, k);
    }
  }

  lemma OnePlace(s: State, k: Job)
    requires ResultInv(s) && k < |s.workers|
    ensures AtOnePlace(s, k)
  {
    var d, c, q := s.h.delivered, s.h.cleaned, s.queue.items;
    assert forall i :: 0 <= i < |d| ==> s.h.pushed[i] == d[i];
    assert forall i :: 0 <= i < |c| ==> s.h.pushed[|d| + i] == c[i];
    assert forall i :: 0 <= i < |q| ==> s.h.pushed[|d| + |c| + i] == q[i];
    assert k in s.h.pushed <==> k in d || k in c || k in q;
    var p := if s.workers[k].pc.Performing? then Running else if k in s.h.dropped then Dropped
             else if k in d then Delivered else if k in c then Cleaned else Queued;
    assert At(s, k, p);
    forall p' | At(s, k, p') ensures p' == p {
      if k in d && k in c { assert false; }
      if k in d && k in q { assert false; }
      if k in c && k in q { assert false; }
    }
  }

  // ---- job ids ---------------------------------------------------------------------------

  ghost predicate IdsUsable(s: State) {
    && (forall k :: 0 <= k < |s.workers| ==> s.workers[k].jid != JID_NONE)
    && (forall k, k' :: 0 <= k < k' < |s.workers| ==> s.workers[k].jid != s.workers[k'].jid)
  }

  /** The ids handed to scripts are nonzero and distinct exactly as long as fewer than 2^32 jobs
      were started; the next start gets id 0, which scripts read as a failure to start. */
  lemma JobIdsUsableIff(states: seq<State>, actions: seq<Action>, i: nat)
    requires Run(states, actions) && i < |states|
    ensures IdsUsable(states[i]) <==> |states[i].workers| < UINT32
  {
    RunKeepsInv(states, actions, i);
    var s := states[i];
    if |s.workers| >= UINT32 {
      assert s.workers[UINT32 - 1].jid == UINT32 % UINT32 == JID_NONE;
    } else {
      forall k | 0 <= k < |s.workers| ensures s.workers[k].jid == k + 1 {
        assert (k + 1) % UINT32 == k + 1;
      }
    }
  }

  /** A script can start any number of jobs. */
  lemma {:induction false} JobsStarted(n: nat) returns (states: seq<State>, actions: seq<Action>)
    ensures Run(states, actions)
    ensures |states[|actions|].workers| == n && states[|actions|].script.Idle?
  {
    if n == 0 {
      states, actions := [INITIAL], [];
    } else {
      states, actions := JobsStarted(n - 1);
      states, actions := Extend(states, actions, CountJob);
      states, actions := Extend(states, actions, NumberJob);
      states, actions := Extend(states, actions, LaunchJob);
    }
  }

  /** So the ids do run out: the job started last here has id 0. */
  lemma IdsRunOut() returns (states: seq<State>, actions: seq<Action>)
    ensures Run(states, actions) && !IdsUsable(states[|actions|])
    ensures var w := states[|actions|].workers; |w| == UINT32 && w[UINT32 - 1].jid == JID_NONE
  {
    states, actions := JobsStarted(UINT32);
    JobIdsUsableIff(states, actions, |actions|);
    RunKeepsInv(states, actions, |actions|);
    assert UINT32 % UINT32 == 0;
  }

  // ---- drain and teardown ----------------------------------------------------------------

  /** The active-job counter is the number of workers that still refer to the object, plus the job
      the script is about to launch, so the guarded decrement never saturates. */
  lemma ActiveJobsExact(states: seq<State>, actions: seq<Action>, i: nat)
    requires Run(states, actions) && i < |states|
    ensures
      var s := states[i];
      && s.activeJobs == Sum(s.workers, Unfinished) + (if s.script.JobCounted? || s.script.JobNumbered? then 1 else 0)
      && (forall k :: 0 <= k < |s.workers| && Unfinished(s.workers[k]) == 1 ==> s.activeJobs > 0 && !s.script.Freed?)
      && s.activeJobs <= |s.workers| + 1
  {
    RunKeepsInv(states, actions, i);
    var s := states[i];
    SumBound(s.workers, Unfinished, 1);
    forall k | 0 <= k < |s.workers| && Unfinished(s.workers[k]) == 1 ensures s.activeJobs > 0 && !s.script.Freed? {
      SumAt(s.workers, k, Unfinished);
    }
  }

  lemma {:induction false} FreedStays(states: seq<State>, actions: seq<Action>, i: nat, j: nat)
    requires Run(states, actions) && i <= j < |states| && Past(states[i].script)
    ensures Past(states[j].script) && states[j].h.cleanMark == states[i].h.cleanMark
    ensures |states[j].workers| == |states[i].workers|
    ensures states[i].script.Freed? ==>
        states[j].script.Freed? && states[j].queue == states[i].queue && states[j].h.pushed == states[i].h.pushed
    decreases j
  {
    if i < j {
      FreedStays(states, actions, i, j - 1);
      RunKeepsInv(states, actions, j - 1);
      PastStep(states[j - 1], actions[j - 1]);
    }
  }

  lemma PastStep(s: State, a: Action)
    requires Inv(s) && Enabled(s, a) && Past(s.script)
    ensures
      var s' := Apply(s, a);
      && Past(s'.script) && s'.h.cleanMark == s.h.cleanMark && |s'.workers| == |s.workers|
      && (s.script.Freed? ==> s'.script.Freed? && s'.queue == s.queue && s'.h.pushed == s.h.pushed)
  {
  }

  /** Once the finalizer's loop has seen no active job, none appears again: every step still taken
      is a worker reporting to the module that its thread is finished. */
  lemma DrainedStaysDrained(states: seq<State>, actions: seq<Action>, i: nat, j: nat)
    requires Run(states, actions) && i <= j < |states| && states[i].script.Freed?
    ensures states[j].script.Freed? && states[j].activeJobs == 0
    ensures forall k :: 0 <= k < |states[j].workers| ==> Unfinished(states[j].workers[k]) == 0
    ensures j < |actions| ==> actions[j].WorkerStep? && states[j].workers[actions[j].k].pc.Detached?
  {
    FreedStays(states, actions, i, j);
    RunKeepsInv(states, actions, j);
    SumZero(states[j].workers, Unfinished);
    if j < |actions| { assert Enabled(states[j], actions[j]); }
  }

  /** Teardown accounting. When the object is freed every result was delivered to the script,
      freed by the cleaning, freed by its worker, or is one of at most 128 left in the queue; the
      latter are exactly the results pushed after the cleaning saw the queue empty. So nothing is
      left behind if and only if nothing was pushed in that window. */
  lemma TeardownAccounting(states: seq<State>, actions: seq<Action>, i: nat)
    requires Run(states, actions) && i < |states| && states[i].script.Freed?
    ensures
      var s := states[i];
      && (forall k :: 0 <= k < |s.workers| ==>
          k in s.h.delivered || k in s.h.cleaned || k in s.h.dropped || k in s.queue.items)
      && s.h.cleanMark <= |s.h.pushed| && s.queue.items == s.h.pushed[s.h.cleanMark..]
      && |s.queue.items| <= CURL_QUEUE_SIZE
      && (s.queue.items == [] <==> |s.h.pushed| == s.h.cleanMark)
  {
    RunKeepsInv(states, actions, i);
    var s := states[i];
    SumZero(s.workers, Unfinished);
    forall k | 0 <= k < |s.workers|
      ensures k in s.h.delivered || k in s.h.cleaned || k in s.h.dropped || k in s.queue.items
    {
      assert Unfinished(s.workers[k]) == 0;
      OnePlace(s, k);
    }
  }

  /** The entries left behind were pushed while the finalizer stood between the two. */
  lemma {:induction false} LeftoversPushedInWindow(states: seq<State>, actions: seq<Action>, i: nat)
    requires Run(states, actions) && i < |states| && Past(states[i].script)
    requires |states[i].h.pushed| > states[i].h.cleanMark
    ensures exists j :: 0 <= j < i && actions[j].WorkerStep? && states[j].script.Terminating?
                     && |states[j + 1].h.pushed| == |states[j].h.pushed| + 1
  {
    RunKeepsInv(states, actions, i - 1);
    var s, a := states[i - 1], actions[i - 1];
    assert states[i] == Apply(s, a);
    if Past(s.script) && |s.h.pushed| > s.h.cleanMark {
      LeftoversPushedInWindow(states, actions, i - 1);
    } else if Past(s.script) {
      assert a.WorkerStep? && s.script.Terminating?;
    }
  }

  lemma Extend(states: seq<State>, actions: seq<Action>, a: Action) returns (states': seq<State>, actions': seq<Action>)
    requires Run(states, actions) && Enabled(states[|actions|], a)
    ensures Run(states', actions')
    ensures states' == states + [Apply(states[|actions|], a)] && actions' == actions + [a]
  {
    states', actions' := states + [Apply(states[|actions|], a)], actions + [a];
  }

  /** A job is started, and its result comes in after the cleaning and before the termination. */
  lemma PushInWindow() returns (states: seq<State>, actions: seq<Action>)
    ensures Run(states, actions)
    ensures
      states[|actions|] == State(true, 1, 1, Queue([0], CURL_QUEUE_SIZE, false), [Worker(ConfigOwned, 1)],
                                 Terminating, History([0], [], [], {}, 0))
  {
    states, actions := [INITIAL], [];
    states, actions := Extend(states, actions, CountJob);
    states, actions := Extend(states, actions, NumberJob);
    states, actions := Extend(states, actions, LaunchJob);
    states, actions := Extend(states, actions, BeginFinalize);
    states, actions := Extend(states, actions, CleanEnd);
    states, actions := Extend(states, actions, WorkerStep(0));
  }

  /** The window is real: a result pushed in it is neither delivered nor freed. */
  lemma ResultLeftBehind() returns (states: seq<State>, actions: seq<Action>)
    ensures Run(states, actions)
    ensures var s := states[|actions|]; s.script.Freed? && s.queue.items == [0]
  {
    states, actions := PushInWindow();
    states, actions := Extend(states, actions, TerminateQueue);
    states, actions := Extend(states, actions, WorkerStep(0));
    states, actions := Extend(states, actions, WorkerStep(0));
    states, actions := Extend(states, actions, ObserveDrained);
  }

  // ---- progress --------------------------------------------------------------------------

  function Rank(w: Worker): nat {
    match w.pc
    case Performing => 5
    case ConfigOwned => 3
    case Counted => 2
    case Detached => 1
    case Done => 0
  }

  function ScriptRank(script: ScriptPc): nat {
    match script
    case JobCounted => 12
    case JobNumbered => 11
    case Idle => 5
    case Cleaning => 3
    case Terminating => 2
    case Draining => 1
    case Freed => 0
  }

  /** Bounds the steps this object can still take without a new call by its script; each queued
      result stands for one turn of the cleaning loop. */
  function Potential(s: State): nat {
    Sum(s.workers, Rank) + |s.queue.items| + ScriptRank(s.script)
  }

  const CALL_COST: nat := 7

  predicate BeginsCall(a: Action) { a.CountJob? || a.GetResult? }

  lemma WorkerStepLowers(s: State, k: Job)
    requires Enabled(s, WorkerStep(k))
    ensures
      var s' := StepWorker(s, k);
      && s'.workers == s.workers[k := s'.workers[k]] && s'.script == s.script
      && Rank(s'.workers[k]) + |s'.queue.items| < Rank(s.workers[k]) + |s.queue.items|
  {
  }

  lemma PotentialStep(s: State, a: Action)
    requires Inv(s) && Enabled(s, a)
    ensures
      if BeginsCall(a) then Potential(Apply(s, a)) <= Potential(s) + CALL_COST
      else Potential(Apply(s, a)) < Potential(s)
  {
    match a
    case WorkerStep(k) =>
      WorkerStepLowers(s, k);
      SumUpdate(s.workers, k, StepWorker(s, k).workers[k], Rank);
    case LaunchJob => SumAppend(s.workers, Worker(Performing, s.jobSeq), Rank);
    case _ =>
  }
}
