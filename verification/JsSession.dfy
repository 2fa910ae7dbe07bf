/** The Session object itself: the C functions of js_session_bgs.c and js_session_misc.c and the
    finalizer, run under interference. Between any two critical sections the other threads may
    take any finite number of steps of the Playback system. Every method is proved to follow that
    system, so what Playback proves of all runs holds of this code, and every access to the
    session is checked to happen before the finalizer frees it. */
module SessionObject {
  import opened Sums
  import opened Playback

  datatype Actor = ScriptThread | Player(t: Tid)

  function ActorOf(a: Action): Actor {
    if a.ThreadStep? then Player(a.t) else ScriptThread
  }

  ghost predicate Present(s: State, me: Actor) {
    me.Player? ==> me.t < |s.threads|
  }

  /** A stretch of a run in which `me` takes no step. */
  ghost predicate Path(states: seq<State>, actions: seq<Action>, me: Actor) {
    && |states| == |actions| + 1
    && forall i :: 0 <= i < |actions| ==>
         && Enabled(states[i], actions[i])
         && states[i + 1] == Apply(states[i], actions[i])
         && ActorOf(actions[i]) != me
  }

  ghost predicate OthersRan(s: State, s': State, me: Actor) {
    exists states, actions :: Path(states, actions, me) && states[0] == s && states[|actions|] == s'
  }

  /** What the steps of the others leave alone: a thread's own position, and for the script
      thread its own position, the ready flag, the number of threads and their file handles. */
  ghost predicate Undisturbed(s: State, s': State, me: Actor)
    requires Present(s, me)
  {
    && Inv(s')
    && (match me
        case Player(t) => t < |s'.threads| && s'.threads[t].pc == s.threads[t].pc
        case ScriptThread =>
          && s'.script == s.script && s'.ready == s.ready && |s'.threads| == |s.threads|
          && forall t :: 0 <= t < |s.threads| ==> s'.threads[t].handle == s.threads[t].handle)
  }

  lemma OtherStepLeavesMine(s: State, a: Action, me: Actor)
    requires Inv(s) && Present(s, me) && Enabled(s, a) && ActorOf(a) != me
    ensures Undisturbed(s, Apply(s, a), me)
  {
    StepKeepsInv(s, a);
    match me
    case Player(t) => RankStep(s, a, t);
    case ScriptThread =>
      ThreadStepKeepsInv(s, a.t, a.shutdown);
      ThreadStepHandles(s, a.t, a.shutdown);
  }

  lemma {:induction false} OthersLeaveMine(states: seq<State>, actions: seq<Action>, me: Actor)
    requires Path(states, actions, me) && Inv(states[0]) && Present(states[0], me)
    ensures Undisturbed(states[0], states[|actions|], me)
    decreases |actions|
  {
    if actions != [] {
      var n := |actions| - 1;
      OthersLeaveMine(states[..n + 1], actions[..n], me);
      OtherStepLeavesMine(states[n], actions[n], me);
    }
  }

  /** The playback threads cannot go on for ever: each of their steps lowers the potential. */
  lemma {:induction false} OthersLower(states: seq<State>, actions: seq<Action>)
    requires Path(states, actions, ScriptThread) && Inv(states[0])
    ensures Inv(states[|actions|]) && Potential(states[|actions|]) + |actions| <= Potential(states[0])
    decreases |actions|
  {
    if actions != [] {
      var n := |actions| - 1;
      OthersLower(states[..n + 1], actions[..n]);
      StepKeepsInv(states[n], actions[n]);
      PotentialStep(states[n], actions[n]);
    }
  }

  ghost predicate OthersMoved(s: State, s': State, me: Actor) {
    exists states, actions :: Path(states, actions, me) && actions != [] && states[0] == s && states[|actions|] == s'
  }

  /** A thread that owes a reference has steps left. */
  lemma SomeHolder(s: State) returns (t: Tid)
    requires Inv(s) && s.wlock > 0 && !s.script.Starting?
    ensures t < |s.threads| && Hold(s.threads[t]) > 0 && !s.threads[t].pc.Done?
  {
    SumZero(s.threads, Hold);
    t :| 0 <= t < |s.threads| && Hold(s.threads[t]) != 0;
  }

  /** Whoever holds a reference keeps the session from being freed. */
  lemma HolderKeepsSession(s: State, t: Tid)
    requires Inv(s) && t < |s.threads| && Touches(s.threads[t])
    ensures !s.script.Freed? && s.wlock > 0
  {
    SumAt(s.threads, t, Hold);
  }

  /** The fields of js_session_t, with the positions of the threads that run on it. */
  class JsSession {
    var ready: bool
    var wlock: nat
    var bgStreams: nat
    var bgStreamFh: Option<Tid>
    var threads: seq<Thread>
    var script: ScriptPc

    function View(): State
      reads this
    {
      State(ready, wlock, bgStreams, bgStreamFh, threads, script)
    }

    constructor ()
      ensures View() == INITIAL && Inv(View())
    {
      ready, wlock, bgStreams, bgStreamFh := true, 0, 0, None;
      threads, script := [], Idle;
    }

    /** Any finite number of steps of the other threads. Doing nothing is one of them; callers
        know only the contract. */
    method Interfere(ghost me: Actor)
      requires Inv(View()) && Present(View(), me)
      modifies this
      ensures OthersRan(old(View()), View(), me)
      ensures Undisturbed(old(View()), View(), me)
    {
      assert Path([View()], [], me);
    }

    /** Records that the fields now hold what the next step of thread t leaves. */
    method Advance(t: Tid, before: State, shutdown: bool)
      requires Inv(before) && Enabled(before, ThreadStep(t, shutdown))
      requires View() == StepThread(before, t, shutdown).(threads := before.threads)
      modifies `threads
      ensures View() == StepThread(before, t, shutdown) && Inv(View())
    {
      threads := StepThread(before, t, shutdown).threads;
      ThreadStepKeepsInv(before, t, shutdown);
    }

    /** The same for a step of the script thread. */
    method AdvanceScript(before: State, a: Action)
      requires Inv(before) && Enabled(before, a) && !a.ThreadStep?
      requires View() == Apply(before, a).(threads := before.threads, script := before.script)
      modifies `threads, `script
      ensures View() == Apply(before, a) && Inv(View())
    {
      threads, script := Apply(before, a).threads, Apply(before, a).script;
      StepKeepsInv(before, a);
    }

    method Take() returns (status: bool)
      requires !script.Freed?
      modifies `wlock
      ensures status == ready
      ensures View() == Playback.Take(old(View()))
    {
      status := false;
      if ready {
        status := true;
        wlock := wlock + 1;
      }
    }

    method Release()
      requires !script.Freed?
      modifies `wlock
      ensures View() == Playback.Release(old(View()))
    {
      if wlock > 0 { wlock := wlock - 1; }
    }

    /** js_session_bgs_stream_stop called by a playback thread; `shutdown` is what each turn of
        the loop reads from the module's flag. */
    method StreamStop(t: Tid, shutdown: nat -> bool) returns (success: bool, waits: nat)
      requires Inv(View()) && t < |threads| && threads[t].pc == Stopping(0)
      modifies this
      ensures Inv(View()) && t < |threads|
      ensures threads[t].pc == if success then Installing else StopFailed
      ensures waits <= MAX_POLLS && (!success ==> waits == MAX_POLLS)
    {
      var x: nat := 0;
      success, waits := true, 0;
      while true
        invariant Inv(View()) && t < |threads| && threads[t].pc == Stopping(x)
        invariant x == waits <= MAX_POLLS && success
        decreases MAX_POLLS - waits
      {
        HolderKeepsSession(View(), t);
        var before := View();
        var seen, isReady := bgStreams, ready;
        Advance(t, before, shutdown(waits));
        if seen == 0 { break; }
        if shutdown(waits) || !isReady { break; }
        x := x + 1;
        if x > MAX_POLLS {
          success := false;
          break;
        }
        Interfere(Player(t));
        waits := waits + 1;
      }
    }

    /** The first section of session_playback_perform: js_session_take, under the mutex. */
    method EnterPlayback(t: Tid, emptyPath: bool) returns (taken: bool)
      requires Inv(View()) && t < |threads| && threads[t].pc == Spawned(emptyPath) && !emptyPath
      modifies this
      ensures Inv(View()) && View() == StepThread(old(View()), t, false)
      ensures threads[t].pc == if taken then Checking else Unwinding
    {
      var before := View();
      HolderKeepsSession(before, t);
      taken := Take();
      Advance(t, before, false);
    }

    /** Under the mutex: count the stream and publish the handle in this thread's frame. */
    method InstallHandle(t: Tid)
      requires Inv(View()) && t < |threads| && threads[t].pc == Installing
      modifies this
      ensures Inv(View()) && View() == StepThread(old(View()), t, false) && threads[t].pc == Playing
    {
      var before := View();
      HolderKeepsSession(before, t);
      bgStreams := bgStreams + 1;
      bgStreamFh := Some(t);
      Advance(t, before, false);
    }

    /** Under the mutex: take the stream off the count and withdraw the handle. */
    method UninstallHandle(t: Tid)
      requires Inv(View()) && t < |threads| && threads[t].pc == Playing
      modifies this
      ensures Inv(View()) && View() == StepThread(old(View()), t, false) && threads[t].pc == Leaving
    {
      var before := View();
      HolderKeepsSession(before, t);
      if bgStreams > 0 { bgStreams := bgStreams - 1; }
      bgStreamFh := None;
      Advance(t, before, false);
    }

    /** js_session_release of the nested hold, or of the hold taken at the start. */
    method ReleaseHold(t: Tid)
      requires Inv(View()) && t < |threads|
      requires var pc := threads[t].pc; pc == Leaving || pc == StopFailed || pc == Unwinding
      modifies this
      ensures Inv(View()) && View() == StepThread(old(View()), t, false)
      ensures threads[t].pc == if old(threads[t].pc) == Unwinding then Finishing else Unwinding
    {
      var before := View();
      HolderKeepsSession(before, t);
      Release();
      Advance(t, before, false);
    }

    /** The unsynchronised read of bg_streams and, when one is seen, js_session_bgs_stream_stop. */
    method AwaitTurn(t: Tid, shutdown: nat -> bool) returns (proceed: bool)
      requires Inv(View()) && t < |threads| && threads[t].pc == Checking
      modifies this
      ensures Inv(View()) && t < |threads|
      ensures threads[t].pc == if proceed then Installing else StopFailed
    {
      var before := View();
      HolderKeepsSession(before, t);
      var streams := bgStreams;
      Advance(t, before, false);
      proceed := true;
      if streams != 0 {
        Interfere(Player(t));
        var waits;
        proceed, waits := StreamStop(t, shutdown);
      }
    }

    /** From installing the handle to withdrawing it, with the playback itself in between. */
    method PlayInstalled(t: Tid)
      requires Inv(View()) && t < |threads| && threads[t].pc == Installing
      modifies this
      ensures Inv(View()) && t < |threads| && threads[t].pc == Leaving
    {
      InstallHandle(t);
      Interfere(Player(t));
      UninstallHandle(t);
      Interfere(Player(t));
    }

    /** session_playback_perform; the result says whether the handle was ever installed. */
    method SessionPlaybackPerform(t: Tid, emptyPath: bool, shutdown: nat -> bool) returns (played: bool)
      requires Inv(View()) && t < |threads| && threads[t].pc == Spawned(emptyPath)
      modifies this
      ensures Inv(View()) && t < |threads| && threads[t].pc == Unwinding
      ensures emptyPath ==> !played
    {
      played := false;
      if emptyPath {
        var before := View();
        Advance(t, before, false);
        return;
      }
      var taken := EnterPlayback(t, emptyPath);
      if taken { played := PlayTaken(t, shutdown); }
    }

    /** The rest of it, with the nested reference taken. */
    method PlayTaken(t: Tid, shutdown: nat -> bool) returns (played: bool)
      requires Inv(View()) && t < |threads| && threads[t].pc == Checking
      modifies this
      ensures Inv(View()) && t < |threads| && threads[t].pc == Unwinding
    {
      Interfere(Player(t));
      played := AwaitTurn(t, shutdown);
      Interfere(Player(t));
      if played { PlayInstalled(t); }
      ReleaseHold(t);
    }

    /** bg_playback_thread, from its launch to its return. */
    method BgPlaybackThread(t: Tid, emptyPath: bool, shutdown: nat -> bool)
      requires Inv(View()) && t < |threads| && threads[t].pc == Spawned(emptyPath)
      modifies this
      ensures Inv(View()) && t < |threads| && threads[t].pc == Done
    {
      var played := SessionPlaybackPerform(t, emptyPath, shutdown);
      Interfere(Player(t));
      ReleaseHold(t);
      Interfere(Player(t));
      var before := View();
      Advance(t, before, false);
    }

    /** js_session_bgs_stream_start. Only a failing pool is reported; without memory for the
        parameters nothing is started and success is reported all the same. */
    method StreamStart(emptyPath: bool, poolFails: bool, allocFails: bool) returns (status: bool, launched: bool)
      requires Inv(View()) && script == Idle
      modifies this
      ensures Inv(View()) && script == Idle
      ensures status <==> !poolFails
      ensures launched <==> !poolFails && !allocFails && old(ready)
      ensures |threads| == |old(threads)| + if launched then 1 else 0
      ensures launched ==> threads[|threads| - 1] == Thread(Spawned(emptyPath), NEW_HANDLE)
      ensures !launched ==> View() == old(View())
    {
      status, launched := !poolFails, false;
      if poolFails { return; }
      if allocFails { return; }
      var before := View();
      launched := Take();
      AdvanceScript(before, StartTake(emptyPath));
      if launched {
        Interfere(ScriptThread);
        before := View();
        AdvanceScript(before, LaunchPlayback);
      }
    }

    /** js_session_fg_playback around its playback. The stream that was installed at its start runs
        again at its end if and only if it is still the installed one; whatever is installed then
        runs if something was paused; and no other stream's handle is touched. */
    method FgPlayback() returns (bgPaused: bool)
      requires Inv(View()) && script == Idle
      modifies this
      ensures Inv(View()) && script == Idle && bgPaused == old(bgStreamFh).Some? && |threads| == |old(threads)|
      ensures bgPaused ==> old(bgStreamFh).value < |threads|
      ensures bgPaused ==> (threads[old(bgStreamFh).value].handle.paused <==> bgStreamFh != old(bgStreamFh))
      ensures bgPaused && bgStreamFh.Some? ==> bgStreamFh.value < |threads| && !threads[bgStreamFh.value].handle.paused
      ensures forall t :: 0 <= t < |threads| && old(bgStreamFh) != Some(t) && (bgPaused ==> bgStreamFh != Some(t))
                ==> threads[t].handle == old(threads)[t].handle
    {
      bgPaused := PauseBackground();
      Interfere(ScriptThread);
      ResumeBackground();
    }

    /** Under the mutex, before the playback: pause the installed stream. */
    method PauseBackground() returns (bgPaused: bool)
      requires Inv(View()) && script == Idle
      modifies this
      ensures Inv(View()) && bgPaused == old(bgStreamFh).Some? && script == FgPlaying(bgPaused)
      ensures |threads| == |old(threads)|
      ensures bgPaused ==> old(bgStreamFh).value < |threads| && threads[old(bgStreamFh).value].handle.paused
      ensures forall t :: 0 <= t < |threads| && old(bgStreamFh) != Some(t) ==> threads[t] == old(threads)[t]
    {
      var before := View();
      bgPaused := bgStreamFh.Some?;
      AdvanceScript(before, FgBegin);
    }

    /** And after it: resume whatever stream is installed then, if one was paused. */
    method ResumeBackground()
      requires Inv(View()) && script.FgPlaying?
      modifies this
      ensures Inv(View()) && script == Idle && bgStreamFh == old(bgStreamFh) && |threads| == |old(threads)|
      ensures old(script.bgPaused) && bgStreamFh.Some? ==>
        bgStreamFh.value < |threads| && !threads[bgStreamFh.value].handle.paused
      ensures forall t :: 0 <= t < |threads| && (old(script.bgPaused) ==> bgStreamFh != Some(t)) ==>
        threads[t] == old(threads)[t]
    {
      var before := View();
      AdvanceScript(before, FgEnd);
    }

    /** js_session_finalizer up to the point where the object is freed. The last reading that ends
        the loop is also followed by a yield, but not the reading before the loop. */
    method Finalizer()
      requires Inv(View()) && script == Idle
      modifies this
      ensures Inv(View()) && !ready && script == Freed && wlock == 0
      ensures forall t :: 0 <= t < |threads| ==> !Touches(threads[t])
    {
      var before := View();
      ready := false;
      AdvanceScript(before, ClearReady);
      Interfere(ScriptThread);
      before := View();
      AdvanceScript(before, FinalStopStep);
      Interfere(ScriptThread);
      DrainReferences();
    }

    /** switch_yield while references are out: the other threads run, and as one of them can, at
        least one step is taken. */
    method Yield()
      requires Inv(View()) && script == FinalDrain && wlock > 0
      modifies this
      ensures OthersMoved(old(View()), View(), ScriptThread)
      ensures Undisturbed(old(View()), View(), ScriptThread) && Potential(View()) < Potential(old(View()))
    {
      var before := View();
      ghost var holder := SomeHolder(before);
      var t := 0;
      while Hold(threads[t]) == 0
        invariant t <= holder && View() == before
        decreases holder - t
      {
        t := t + 1;
      }
      var after := StepThread(before, t, false);
      ready, wlock, bgStreams, bgStreamFh, threads := after.ready, after.wlock, after.streams, after.fh, after.threads;
      OtherStepLeavesMine(before, ThreadStep(t, false), ScriptThread);
      PotentialStep(before, ThreadStep(t, false));
      assert View() == after == Apply(before, ThreadStep(t, false));
      assert Path([before, after], [ThreadStep(t, false)], ScriptThread);
    }

    /** The finalizer's loop on wlock. It ends: a yield lets some thread go on, and the threads have
        only so many steps left. */
    method DrainReferences()
      requires Inv(View()) && script == FinalDrain
      modifies this
      ensures Inv(View()) && !ready && script == Freed && wlock == 0
      ensures forall t :: 0 <= t < |threads| ==> !Touches(threads[t])
    {
      while wlock > 0
        invariant Inv(View()) && script == FinalDrain
        decreases Potential(View())
      {
        Yield();
      }
      var before := View();
      AdvanceScript(before, ObserveDrained);
      NoneTouches(View());
    }
  }

  lemma NoneTouches(s: State)
    requires Inv(s) && s.script.Freed?
    ensures forall t :: 0 <= t < |s.threads| ==> !Touches(s.threads[t])
  {
    forall t | 0 <= t < |s.threads| ensures !Touches(s.threads[t]) {
      SumAt(s.threads, t, Hold);
    }
  }
}
