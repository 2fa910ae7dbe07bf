/** Background playback of one Session object: js_session_bgs.c, js_session_misc.c and the
    finalizer and playback controls of js_session.c. Any number of playback threads share the
    session with the one script thread that owns it. Each action below is one critical section
    under jss->mutex, or one unsynchronised read or write of a field. */
module Playback {
  import opened Sums

  type Tid = nat

  /** The wait loop of js_session_bgs_stream_stop gives up after this many yields. */
  const MAX_POLLS: nat := 500

  /** The part of switch_file_handle_t that scripts can change. */
  datatype Handle = Handle(paused: bool, speed: int, vol: int)

  /** Where a playback thread stands; `Spawned` has been launched, `Done` has returned. */
  datatype Pc =
    | Spawned(emptyPath: bool)
    | Checking
    | Stopping(polls: nat)
    | Installing
    | Playing
    | Leaving
    | StopFailed
    | Unwinding
    | Finishing
    | Done

  /** A playback thread with the file handle that lives in its stack frame. */
  datatype Thread = Thread(pc: Pc, handle: Handle)

  /** Where the owning script thread stands inside an operation on this session. */
  datatype ScriptPc =
    | Idle
    | Starting(emptyPath: bool)
    | StopCall(polls: nat)
    | FgPlaying(bgPaused: bool)
    | FinalStop
    | FinalDrain
    | Freed

  datatype State = State(
    ready: bool,
    wlock: nat,
    streams: nat,
    fh: Option<Tid>,
    threads: seq<Thread>,
    script: ScriptPc)

  const NEW_HANDLE := Handle(false, 0, 0)

  /** The object as js_session_object_create and the constructor leave it. */
  const INITIAL := State(true, 0, 0, None, [], Idle)

  // ---- critical sections -----------------------------------------------------------------

  function Take(s: State): State {
    if s.ready then s.(wlock := s.wlock + 1) else s
  }

  function Release(s: State): State {
    if s.wlock > 0 then s.(wlock := s.wlock - 1) else s
  }

  function Install(s: State, t: Tid): State {
    s.(streams := s.streams + 1, fh := Some(t))
  }

  function Uninstall(s: State): State {
    s.(streams := if s.streams > 0 then s.streams - 1 else 0, fh := None)
  }

  function SetPc(s: State, t: Tid, pc: Pc): State
    requires t < |s.threads|
  {
    s.(threads := s.threads[t := s.threads[t].(pc := pc)])
  }

  datatype PollOutcome = Stopped | Ignored | TimedOut | Again

  /** One turn of the loop in js_session_bgs_stream_stop. */
  function PollStop(s: State, shutdown: bool, polls: nat): PollOutcome {
    if s.streams == 0 then Stopped
    else if shutdown || !s.ready then Ignored
    else if polls + 1 > MAX_POLLS then TimedOut
    else Again
  }

  // ---- playback controls -----------------------------------------------------------------

  /** The second argument of bgPlaybackCtl: a number, or a text given to atoi. */
  datatype Level = Number(n: int) | Text(text: string)

  datatype Control = Pause | Resume | Speed(speed: Level) | Volume(vol: Level)

  predicate IsDigit(c: char) { '0' <= c <= '9' }

  function Digits(s: string, acc: nat): int {
    if s == [] || !IsDigit(s[0]) then acc else Digits(s[1..], acc * 10 + (s[0] as int - '0' as int))
  }

  predicate IsSpace(c: char) { c == ' ' || ('\t' <= c <= '\r') }

  function SkipSpace(s: string): string {
    if s != [] && IsSpace(s[0]) then SkipSpace(s[1..]) else s
  }

  function Atoi(text: string): int {
    var s := SkipSpace(text);
    if s != [] && s[0] == '-' then -Digits(s[1..], 0)
    else if s != [] && s[0] == '+' then Digits(s[1..], 0)
    else Digits(s, 0)
  }

  predicate IsSigned(s: string) { s != [] && (s[0] == '+' || s[0] == '-') }

  function Adjust(current: int, level: Level): int {
    match level
    case Number(n) => n
    case Text(s) => current + (if IsSigned(s) && Atoi(s) == 0 then 1 else Atoi(s))
  }

  function ControlHandle(h: Handle, c: Control): Handle {
    match c
    case Pause => h.(paused := true)
    case Resume => h.(paused := false)
    case Speed(l) => h.(speed := Adjust(h.speed, l))
    case Volume(l) => h.(vol := Adjust(h.vol, l))
  }

  /** Under the session mutex: act on the installed handle, if there is one. */
  function ControlInstalled(s: State, c: Control): State
    requires s.fh.Some? ==> s.fh.value < |s.threads|
  {
    match s.fh
    case None => s
    case Some(t) => s.(threads := s.threads[t := s.threads[t].(handle := ControlHandle(s.threads[t].handle, c))])
  }

  // ---- the step system -------------------------------------------------------------------

  datatype Action =
    | StartTake(emptyPath: bool)
    | LaunchPlayback
    | StopBegin
    | StopPoll(shutdown: bool)
    | ControlBg(control: Control)
    | FgBegin
    | FgEnd
    | ClearReady
    | FinalStopStep
    | ObserveDrained
    | ThreadStep(t: Tid, shutdown: bool)

  ghost predicate Enabled(s: State, a: Action) {
    match a
    case StartTake(_) => s.script.Idle?
    case LaunchPlayback => s.script.Starting?
    case StopBegin => s.script.Idle?
    case StopPoll(_) => s.script.StopCall?
    case ControlBg(_) => s.script.Idle? && (s.fh.Some? ==> s.fh.value < |s.threads|)
    case FgBegin => s.script.Idle? && (s.fh.Some? ==> s.fh.value < |s.threads|)
    case FgEnd => s.script.FgPlaying? && (s.fh.Some? ==> s.fh.value < |s.threads|)
    case ClearReady => s.script.Idle?
    case FinalStopStep => s.script.FinalStop?
    case ObserveDrained => s.script.FinalDrain? && s.wlock == 0
    case ThreadStep(t, _) => t < |s.threads| && !s.threads[t].pc.Done?
  }

  /** One step of playback thread t: bg_playback_thread around session_playback_perform. */
  function StepThread(s: State, t: Tid, shutdown: bool): State
    requires t < |s.threads| && !s.threads[t].pc.Done?
  {
    match s.threads[t].pc
    case Spawned(emptyPath) =>
      if emptyPath || !s.ready then SetPc(s, t, Unwinding) else SetPc(Take(s), t, Checking)
    case Checking => if s.streams == 0 then SetPc(s, t, Installing) else SetPc(s, t, Stopping(0))
    case Stopping(polls) =>
      (match PollStop(s, shutdown, polls)
       case Stopped => SetPc(s, t, Installing)
       case Ignored => SetPc(s, t, Installing)
       case TimedOut => SetPc(s, t, StopFailed)
       case Again => SetPc(s, t, Stopping(polls + 1)))
    case Installing => SetPc(Install(s, t), t, Playing)
    case Playing => SetPc(Uninstall(s), t, Leaving)
    case Leaving => SetPc(Release(s), t, Unwinding)
    case StopFailed => SetPc(Release(s), t, Unwinding)
    case Unwinding => SetPc(Release(s), t, Finishing)
    case Finishing => SetPc(s, t, Done)
  }

  function Apply(s: State, a: Action): State
    requires Enabled(s, a)
  {
    match a
    case StartTake(e) => if s.ready then Take(s).(script := Starting(e)) else s
    case LaunchPlayback =>
      s.(threads := s.threads + [Thread(Spawned(s.script.emptyPath), NEW_HANDLE)], script := Idle)
    case StopBegin => s.(script := StopCall(0))
    case StopPoll(shutdown) =>
      s.(script := if PollStop(s, shutdown, s.script.polls).Again? then StopCall(s.script.polls + 1) else Idle)
    case ControlBg(c) => ControlInstalled(s, c)
    case FgBegin => ControlInstalled(s, Pause).(script := FgPlaying(s.fh.Some?))
    case FgEnd => (if s.script.bgPaused then ControlInstalled(s, Resume) else s).(script := Idle)
    case ClearReady => s.(ready := false, script := FinalStop)
    case FinalStopStep => s.(script := FinalDrain)
    case ObserveDrained => s.(script := Freed)
    case ThreadStep(t, shutdown) => StepThread(s, t, shutdown)
  }

  // ---- the invariant ---------------------------------------------------------------------

  /** References on jss->wlock a thread still owes: the start hold and the nested hold. */
  function Hold(th: Thread): nat {
    match th.pc
    case Spawned(_) => 1
    case Unwinding => 1
    case Finishing => 0
    case Done => 0
    case _ => 2
  }

  function Installed(th: Thread): nat { if th.pc.Playing? then 1 else 0 }

  /** The session object may still be read or written by a thread standing here. */
  predicate Touches(th: Thread) { !th.pc.Finishing? && !th.pc.Done? }

  ghost predicate Inv(s: State) {
    && s.wlock == Sum(s.threads, Hold) + (if s.script.Starting? then 1 else 0)
    && s.streams == Sum(s.threads, Installed)
    && (s.fh.Some? ==> s.fh.value < |s.threads| && s.threads[s.fh.value].pc.Playing?)
    && (forall t :: 0 <= t < |s.threads| && s.threads[t].pc.Stopping? ==> s.threads[t].pc.polls <= MAX_POLLS)
    && (s.script.StopCall? ==> s.script.polls <= MAX_POLLS)
    && (s.ready <==> !(s.script.FinalStop? || s.script.FinalDrain? || s.script.Freed?))
    && (s.script.Freed? ==> s.wlock == 0)
  }

  /** What a step of thread t may do: its effect on the two counters mirrors the effect on its
      own pc, and the installed handle is kept, cleared, or becomes its own. */
  ghost predicate OwnStep(s: State, s': State, t: Tid)
    requires t < |s.threads|
  {
    && |s'.threads| == |s.threads|
    && s'.threads == s.threads[t := s'.threads[t]]
    && s'.wlock + Hold(s.threads[t]) == s.wlock + Hold(s'.threads[t])
    && s'.streams + Installed(s.threads[t]) == s.streams + Installed(s'.threads[t])
    && s'.ready == s.ready && s'.script == s.script
    && (s'.fh == None || (s'.fh == s.fh && !s.threads[t].pc.Playing?) || (s'.fh == Some(t) && s'.threads[t].pc.Playing?))
    && (s'.threads[t].pc.Stopping? ==> s'.threads[t].pc.polls <= MAX_POLLS)
    && (s.script.Freed? ==> Hold(s'.threads[t]) <= Hold(s.threads[t]))
  }

  lemma ThreadStepOwn(s: State, t: Tid, shutdown: bool)
    requires Enabled(s, ThreadStep(t, shutdown))
    requires Hold(s.threads[t]) <= s.wlock && Installed(s.threads[t]) <= s.streams
    requires s.script.Freed? ==> s.wlock == 0
    ensures OwnStep(s, StepThread(s, t, shutdown), t)
  {
  }

  lemma OwnStepKeepsInv(s: State, s': State, t: Tid)
    requires Inv(s) && t < |s.threads| && OwnStep(s, s', t)
    ensures Inv(s')
  {
    SumUpdate(s.threads, t, s'.threads[t], Hold);
    SumUpdate(s.threads, t, s'.threads[t], Installed);
  }

  lemma ThreadStepKeepsInv(s: State, t: Tid, shutdown: bool)
    requires Inv(s) && Enabled(s, ThreadStep(t, shutdown))
    ensures OwnStep(s, StepThread(s, t, shutdown), t) && Inv(StepThread(s, t, shutdown))
  {
    SumAt(s.threads, t, Hold);
    SumAt(s.threads, t, Installed);
    ThreadStepOwn(s, t, shutdown);
    OwnStepKeepsInv(s, StepThread(s, t, shutdown), t);
  }

  /** Acting on the installed handle changes no counter. */
  lemma ControlKeepsInv(s: State, c: Control)
    requires Inv(s)
    ensures Inv(ControlInstalled(s, c))
  {
    if s.fh.Some? {
      var t := s.fh.value;
      var th := s.threads[t].(handle := ControlHandle(s.threads[t].handle, c));
      SumUpdate(s.threads, t, th, Hold);
      SumUpdate(s.threads, t, th, Installed);
    }
  }

  lemma StepKeepsInv(s: State, a: Action)
    requires Inv(s) && Enabled(s, a)
    ensures Inv(Apply(s, a))
  {
    match a
    case ThreadStep(t, shutdown) => ThreadStepKeepsInv(s, t, shutdown);
    case LaunchPlayback =>
      var th := Thread(Spawned(s.script.emptyPath), NEW_HANDLE);
      SumAppend(s.threads, th, Hold);
      SumAppend(s.threads, th, Installed);
    case ControlBg(c) => ControlKeepsInv(s, c);
    case FgBegin => ControlKeepsInv(s, Pause);
    case FgEnd => ControlKeepsInv(s, Resume);
    case _ =>
  }

  // ---- whole runs ------------------------------------------------------------------------

  ghost predicate Run(states: seq<State>, actions: seq<Action>) {
    && |states| == |actions| + 1
    && states[0] == INITIAL
    && forall i :: 0 <= i < |actions| ==> Enabled(states[i], actions[i]) && states[i + 1] == Apply(states[i], actions[i])
  }

  lemma {:induction false} RunKeepsInv(states: seq<State>, actions: seq<Action>, i: nat)
    requires Run(states, actions) && i < |states|
    ensures Inv(states[i])
  {
    if i > 0 {
      RunKeepsInv(states, actions, i - 1);
      StepKeepsInv(states[i - 1], actions[i - 1]);
    }
  }

  lemma RunStep(states: seq<State>, actions: seq<Action>, i: nat) returns (s: State, a: Action)
    requires Run(states, actions) && i < |actions|
    ensures s == states[i] && a == actions[i] && Inv(s) && Enabled(s, a) && states[i + 1] == Apply(s, a)
  {
    RunKeepsInv(states, actions, i);
    s, a := states[i], actions[i];
  }

  /** References, streams and the handle agree in every reachable state, so neither guarded
      decrement ever saturates and a control never acts on a handle whose frame is gone. */
  lemma CountersExact(states: seq<State>, actions: seq<Action>, i: nat)
    requires Run(states, actions) && i < |states|
    ensures
      var s := states[i];
      && s.wlock == Sum(s.threads, Hold) + (if s.script.Starting? then 1 else 0)
      && s.streams == Sum(s.threads, Installed)
      && s.wlock <= 2 * |s.threads| + 1
      && (s.fh.Some? ==> s.fh.value < |s.threads| && s.threads[s.fh.value].pc.Playing?)
      && (forall t :: 0 <= t < |s.threads| && s.threads[t].pc.Playing? ==> s.streams > 0)
      && (forall t :: 0 <= t < |s.threads| && Touches(s.threads[t]) ==> s.wlock > 0 && !s.script.Freed?)
  {
    RunKeepsInv(states, actions, i);
    var s := states[i];
    SumBound(s.threads, Hold, 2);
    forall t | 0 <= t < |s.threads|
      ensures s.threads[t].pc.Playing? ==> s.streams > 0
      ensures Touches(s.threads[t]) ==> s.wlock > 0
    {
      SumAt(s.threads, t, Hold);
      SumAt(s.threads, t, Installed);
    }
  }

  // ---- what the controls reach -----------------------------------------------------------

  /** The control a step applies to the installed handle, if any. */
  function ControlOf(s: State, a: Action): Option<Control> {
    match a
    case ControlBg(c) => Some(c)
    case FgBegin => Some(Pause)
    case FgEnd => if s.script.FgPlaying? && s.script.bgPaused then Some(Resume) else None
    case _ => None
  }

  /** The controls issued in the first n steps while the handle of thread t was the installed one. */
  function Received(states: seq<State>, actions: seq<Action>, t: Tid, n: nat): seq<Control>
    requires n <= |actions| && n <= |states|
  {
    if n == 0 then []
    else
      var c := ControlOf(states[n - 1], actions[n - 1]);
      Received(states, actions, t, n - 1) + if c.Some? && states[n - 1].fh == Some(t) then [c.value] else []
  }

  function Controlled(h: Handle, controls: seq<Control>): Handle {
    if controls == [] then h
    else ControlHandle(Controlled(h, controls[..|controls| - 1]), controls[|controls| - 1])
  }

  lemma ControlledNext(h: Handle, controls: seq<Control>, c: Control)
    ensures Controlled(h, controls + [c]) == ControlHandle(Controlled(h, controls), c)
  {
    assert (controls + [c])[..|controls|] == controls;
  }

  /** A step gives a handle exactly the control it issues, if that handle is installed, and leaves
      it alone otherwise; a new thread has a fresh handle. */
  lemma HandleStep(s: State, a: Action, t: Tid)
    requires Inv(s) && Enabled(s, a) && t < |Apply(s, a).threads|
    ensures
      var h' := Apply(s, a).threads[t].handle;
      if t >= |s.threads| then h' == NEW_HANDLE && s.fh != Some(t)
      else if s.fh == Some(t) && ControlOf(s, a).Some? then
        h' == ControlHandle(s.threads[t].handle, ControlOf(s, a).value)
      else h' == s.threads[t].handle
  {
    if a.ThreadStep? { ThreadStepHandles(s, a.t, a.shutdown); }
  }

  lemma ThreadStepHandles(s: State, t: Tid, shutdown: bool)
    requires Enabled(s, ThreadStep(t, shutdown))
    ensures
      var s' := StepThread(s, t, shutdown);
      |s'.threads| == |s.threads| && forall u :: 0 <= u < |s.threads| ==> s'.threads[u].handle == s.threads[u].handle
  {
  }

  lemma {:induction false} NoneBeforeLaunch(states: seq<State>, actions: seq<Action>, t: Tid, n: nat)
    requires Run(states, actions) && n < |states| && t >= |states[n].threads|
    ensures Received(states, actions, t, n) == []
  {
    if n > 0 {
      var s, a := RunStep(states, actions, n - 1);
      ThreadsStay(s, a);
      NoneBeforeLaunch(states, actions, t, n - 1);
    }
  }

  lemma ThreadsStay(s: State, a: Action)
    requires Inv(s) && Enabled(s, a)
    ensures |s.threads| <= |Apply(s, a).threads|
  {
    if a.ThreadStep? { ThreadStepKeepsInv(s, a.t, a.shutdown); }
  }

  lemma ReceivedNext(states: seq<State>, actions: seq<Action>, t: Tid, n: nat)
    requires n < |actions| && n < |states|
    ensures
      var (c, before) := (ControlOf(states[n], actions[n]), Received(states, actions, t, n));
      Received(states, actions, t, n + 1) == if c.Some? && states[n].fh == Some(t) then before + [c.value] else before
  {
  }

  /** In every reachable state the handle of a thread holds what exactly those controls made of a
      fresh one that were issued while it was installed, in their order: none is lost, none goes to
      another stream, none arrives before the installing or after the withdrawal. */
  lemma {:induction false} HandleIsItsControls(states: seq<State>, actions: seq<Action>, n: nat, t: Tid)
    requires Run(states, actions) && n < |states| && t < |states[n].threads|
    ensures states[n].threads[t].handle == Controlled(NEW_HANDLE, Received(states, actions, t, n))
  {
    if n > 0 {
      var s, a := RunStep(states, actions, n - 1);
      ReceivedNext(states, actions, t, n - 1);
      HandleStep(s, a, t);
      if t < |s.threads| {
        HandleIsItsControls(states, actions, n - 1, t);
        if ControlOf(s, a).Some? {
          ControlledNext(NEW_HANDLE, Received(states, actions, t, n - 1), ControlOf(s, a).value);
        }
      } else {
        NoneBeforeLaunch(states, actions, t, n - 1);
      }
    }
  }

  /** Every control that a thread's handle received came while the thread was playing. */
  lemma ControlsReachPlaying(states: seq<State>, actions: seq<Action>, i: nat, t: Tid)
    requires Run(states, actions) && i < |actions| && t < |states[i].threads|
    requires states[i + 1].threads[t].handle != states[i].threads[t].handle
    ensures ControlOf(states[i], actions[i]).Some? && states[i].fh == Some(t)
    ensures states[i].threads[t].pc.Playing? && states[i + 1].threads[t].pc.Playing?
  {
    var s, a := RunStep(states, actions, i);
    HandleStep(s, a, t);
  }

  /** A bare sign counts as a step of one upwards, also for a minus; a text without a sign is an
      offset, not a level. So a text lowers the level exactly if its number is negative. */
  lemma TextLowersIff(level: int, s: string)
    ensures Adjust(level, Text(s)) < level <==> Atoi(s) < 0
    ensures Adjust(level, Text("-")) == level + 1 == Adjust(level, Text("+"))
    ensures Adjust(level, Text("5")) == level + 5
  {
    assert Atoi("-") == -Digits([], 0) by { assert "-"[1..] == []; }
    assert Atoi("+") == Digits([], 0) by { assert "+"[1..] == []; }
    assert "5"[1..] == [];
    assert Digits("5", 0) == Digits([], 5);
  }

  /** The foreground playback begins at step i and the script is still inside it in state j. */
  ghost predicate Foreground(states: seq<State>, actions: seq<Action>, i: nat, j: nat) {
    && i < j < |states| && j <= |actions| && actions[i].FgBegin?
    && forall k :: i < k <= j ==> states[k].script.FgPlaying?
  }

  /** Inside a foreground playback, with the handle of thread t paused. */
  predicate HeldPaused(s: State, t: Tid) {
    s.script == FgPlaying(true) && t < |s.threads| && s.threads[t].handle.paused
  }

  lemma ForegroundStep(s: State, a: Action, t: Tid)
    requires Inv(s) && Enabled(s, a) && HeldPaused(s, t) && Apply(s, a).script.FgPlaying?
    ensures HeldPaused(Apply(s, a), t)
  {
    assert a.ThreadStep?;
    HandleStep(s, a, t);
    ThreadStepKeepsInv(s, a.t, a.shutdown);
  }

  lemma ForegroundBegins(s: State, t: Tid)
    requires Inv(s) && Enabled(s, FgBegin) && s.fh == Some(t)
    ensures HeldPaused(Apply(s, FgBegin), t)
  {
  }

  /** Meanwhile nobody changes a handle. */
  lemma {:induction false} ForegroundHolds(states: seq<State>, actions: seq<Action>, i: nat, j: nat, t: Tid)
    requires Run(states, actions) && Foreground(states, actions, i, j) && states[i].fh == Some(t)
    ensures HeldPaused(states[j], t)
    decreases j
  {
    if j == i + 1 {
      var s, a := RunStep(states, actions, i);
      ForegroundBegins(s, t);
    } else {
      ForegroundHolds(states, actions, i, j - 1, t);
      var s, a := RunStep(states, actions, j - 1);
      ForegroundStep(s, a, t);
    }
  }

  /** The stream that was playing when a foreground playback began is paused all along, and it is
      running again afterwards if and only if its handle is still the installed one: a paused
      stream that was overtaken by another stays paused. */
  lemma PausedStreamResumesIff(states: seq<State>, actions: seq<Action>, i: nat, j: nat, t: Tid)
    requires Run(states, actions) && Foreground(states, actions, i, j) && t < |states[i].threads|
    requires states[i].fh == Some(t) && j < |actions| && actions[j].FgEnd?
    ensures forall k :: i < k <= j ==> t < |states[k].threads| && states[k].threads[t].handle.paused
    ensures t < |states[j + 1].threads| && (!states[j + 1].threads[t].handle.paused <==> states[j].fh == Some(t))
  {
    forall k | i < k <= j ensures t < |states[k].threads| && states[k].threads[t].handle.paused {
      ForegroundHolds(states, actions, i, k, t);
    }
    ForegroundHolds(states, actions, i, j, t);
    var s, a := RunStep(states, actions, j);
    ThreadsStay(s, a);
    HandleStep(s, a, t);
  }

  /** From fl_ready's clearing on, references are only given back and no thread is added. */
  lemma {:induction false} AfterClearOnlyReleases(states: seq<State>, actions: seq<Action>, i: nat, j: nat)
    requires Run(states, actions) && i <= j < |states| && !states[i].ready
    ensures !states[j].ready && states[j].wlock <= states[i].wlock && |states[j].threads| == |states[i].threads|
    ensures states[i].script.Freed? ==> states[j].script.Freed?
    decreases j
  {
    if i < j {
      AfterClearOnlyReleases(states, actions, i, j - 1);
      RunKeepsInv(states, actions, j - 1);
      ClearedStep(states[j - 1], actions[j - 1]);
    }
  }

  lemma ClearedStep(s: State, a: Action)
    requires Inv(s) && Enabled(s, a) && !s.ready
    ensures
      var s' := Apply(s, a);
      && !s'.ready && s'.wlock <= s.wlock && |s'.threads| == |s.threads|
      && (s.script.Freed? ==> s'.script.Freed?)
  {
  }

  /** Once the finalizer has cleared fl_ready and seen wlock at zero, the counter stays at zero,
      and the only steps still taken are threads returning without the session. */
  lemma DrainedStaysDrained(states: seq<State>, actions: seq<Action>, i: nat, j: nat)
    requires Run(states, actions) && i <= j < |states| && states[i].script.Freed?
    ensures states[j].wlock == 0 && states[j].script.Freed? && states[j].fh == None && states[j].streams == 0
    ensures forall t :: 0 <= t < |states[j].threads| ==> !Touches(states[j].threads[t])
    ensures j < |actions| ==> actions[j].ThreadStep? && states[j].threads[actions[j].t].pc.Finishing?
  {
    FreedStays(states, actions, i, j);
    var s := states[j];
    SumZero(s.threads, Hold);
    forall t | 0 <= t < |s.threads| ensures !Touches(s.threads[t]) && Installed(s.threads[t]) == 0 {
      assert Hold(s.threads[t]) == 0;
    }
    SumZero(s.threads, Installed);
    if j < |actions| {
      assert Enabled(s, actions[j]);
    }
  }

  lemma FreedStays(states: seq<State>, actions: seq<Action>, i: nat, j: nat)
    requires Run(states, actions) && i <= j < |states| && states[i].script.Freed?
    ensures states[j].script.Freed? && Inv(states[j])
  {
    RunKeepsInv(states, actions, i);
    RunKeepsInv(states, actions, j);
    AfterClearOnlyReleases(states, actions, i, j);
  }

  // ---- at most one stream ----------------------------------------------------------------

  /** The thread has seen no stream (or stopped waiting) and has not installed its own yet. */
  function InWindow(th: Thread): nat { if th.pc.Installing? then 1 else 0 }

  /** The streams that play or are about to. */
  function Claims(s: State): nat { s.streams + Sum(s.threads, InWindow) }

  /** The step with which a thread claims the session beside another: it stops waiting for a running
      stream because of a shutdown or because the session is no longer ready, or it sees no stream
      while another thread is between that look and its install. */
  predicate JoinsAnother(s: State, a: Action) {
    && a.ThreadStep? && a.t < |s.threads|
    && var pc := s.threads[a.t].pc;
       || (pc.Stopping? && s.streams > 0 && (a.shutdown || !s.ready))
       || ((pc.Stopping? || pc.Checking?) && s.streams == 0 && Sum(s.threads, InWindow) > 0)
  }

  /** A step of thread t claims the session exactly on leaving its look at the streams. */
  lemma ClaimingStep(s: State, t: Tid, shutdown: bool)
    requires Inv(s) && Enabled(s, ThreadStep(t, shutdown))
    ensures
      var (s', pc) := (StepThread(s, t, shutdown), s.threads[t].pc);
      && s'.threads == s.threads[t := s'.threads[t]]
      && (if (pc.Checking? && s.streams == 0) || (pc.Stopping? && (s.streams == 0 || shutdown || !s.ready)) then
            s'.streams == s.streams && InWindow(s'.threads[t]) == 1 && InWindow(s.threads[t]) == 0
          else s'.streams + InWindow(s'.threads[t]) <= s.streams + InWindow(s.threads[t]))
  {
  }

  lemma ControlKeepsWindow(s: State, c: Control)
    requires Inv(s)
    ensures Claims(ControlInstalled(s, c)) == Claims(s)
  {
    if s.fh.Some? {
      var t := s.fh.value;
      SumUpdate(s.threads, t, s.threads[t].(handle := ControlHandle(s.threads[t].handle, c)), InWindow);
    }
  }

  /** From at most one claim a step leads to two if and only if it joins another. */
  lemma SecondClaimIff(s: State, a: Action)
    requires Inv(s) && Enabled(s, a) && Claims(s) <= 1
    ensures Claims(Apply(s, a)) >= 2 <==> JoinsAnother(s, a)
  {
    match a
    case ThreadStep(t, shutdown) =>
      ClaimingStep(s, t, shutdown);
      SumUpdate(s.threads, t, StepThread(s, t, shutdown).threads[t], InWindow);
    case LaunchPlayback => SumAppend(s.threads, Thread(Spawned(s.script.emptyPath), NEW_HANDLE), InWindow);
    case ControlBg(c) => ControlKeepsWindow(s, c);
    case FgBegin => ControlKeepsWindow(s, Pause);
    case FgEnd => ControlKeepsWindow(s, Resume);
    case _ =>
  }

  /** Exclusivity holds throughout a run if and only if no step of the run joins another. */
  lemma {:induction false} OneStreamIff(states: seq<State>, actions: seq<Action>, n: nat)
    requires Run(states, actions) && n < |states|
    ensures
      (forall i :: 0 <= i <= n ==> Claims(states[i]) <= 1)
      <==> (forall i :: 0 <= i < n ==> !JoinsAnother(states[i], actions[i]))
  {
    if n > 0 {
      OneStreamIff(states, actions, n - 1);
      var s, a := RunStep(states, actions, n - 1);
      assert states[n] == Apply(s, a);
      if Claims(s) <= 1 { SecondClaimIff(s, a); }
    }
  }

  /** A claim is a stream that can play at once: the claiming threads only have to go on. */
  lemma {:induction false} ClaimsCanPlay(s: State) returns (states: seq<State>, actions: seq<Action>)
    requires Inv(s)
    ensures Continues(states, actions) && states[0] == s && states[|actions|].streams == Claims(s)
    decreases Sum(s.threads, InWindow)
  {
    states, actions := [s], [];
    SumZero(s.threads, InWindow);
    if t :| 0 <= t < |s.threads| && InWindow(s.threads[t]) != 0 {
      var s' := StepThread(s, t, false);
      ThreadStepKeepsInv(s, t, false);
      SumUpdate(s.threads, t, s'.threads[t], InWindow);
      var rest, steps := ClaimsCanPlay(s');
      states, actions := [s] + rest, [ThreadStep(t, false)] + steps;
      assert forall i :: 0 < i < |states| ==> states[i] == rest[i - 1];
      assert forall i :: 0 < i < |actions| ==> actions[i] == steps[i - 1];
    }
  }

  /** A stretch of a run. */
  ghost predicate Continues(states: seq<State>, actions: seq<Action>) {
    && |states| == |actions| + 1
    && forall i :: 0 <= i < |actions| ==> Enabled(states[i], actions[i]) && states[i + 1] == Apply(states[i], actions[i])
  }

  /** The session stays ready, no two threads are between check and install, and no one
      watches the module shutting down. */
  ghost predicate Orderly(states: seq<State>, actions: seq<Action>) {
    && (forall i :: 0 <= i < |states| ==> states[i].ready && Sum(states[i].threads, InWindow) <= 1)
    && (forall i :: 0 <= i < |actions| && actions[i].ThreadStep? ==> !actions[i].shutdown)
  }

  /** In particular an orderly run has one stream. */
  lemma {:induction false} OrderlyRunHasOneStream(states: seq<State>, actions: seq<Action>, i: nat)
    requires Run(states, actions) && Orderly(states, actions) && i < |states|
    ensures Claims(states[i]) <= 1
  {
    if i > 0 {
      OrderlyRunHasOneStream(states, actions, i - 1);
      var s, a := RunStep(states, actions, i - 1);
      SecondClaimIff(s, a);
      if JoinsAnother(s, a) {
        ClaimingStep(s, a.t, a.shutdown);
      }
    }
  }

  lemma Extend(states: seq<State>, actions: seq<Action>, a: Action) returns (states': seq<State>, actions': seq<Action>)
    requires Run(states, actions) && Enabled(states[|actions|], a)
    ensures Run(states', actions')
    ensures states' == states + [Apply(states[|actions|], a)] && actions' == actions + [a]
  {
    states', actions' := states + [Apply(states[|actions|], a)], actions + [a];
  }

  /** Two launched threads that both hold the session and are about to check for a stream. */
  lemma TwoThreads() returns (states: seq<State>, actions: seq<Action>)
    ensures Run(states, actions) && |actions| == 6
    ensures states[6] == INITIAL.(wlock := 4, threads := [Thread(Checking, NEW_HANDLE), Thread(Checking, NEW_HANDLE)])
    ensures forall i :: 0 <= i < |actions| && actions[i].ThreadStep? ==> !actions[i].shutdown
    ensures forall i :: 0 <= i < |states| ==>
              states[i].ready && forall t :: 0 <= t < |states[i].threads| ==> InWindow(states[i].threads[t]) == 0
  {
    states, actions := [INITIAL], [];
    states, actions := Extend(states, actions, StartTake(false));
    states, actions := Extend(states, actions, LaunchPlayback);
    states, actions := Extend(states, actions, StartTake(false));
    states, actions := Extend(states, actions, LaunchPlayback);
    states, actions := Extend(states, actions, ThreadStep(0, false));
    states, actions := Extend(states, actions, ThreadStep(1, false));
  }

  /** Without the hypothesis on the window exclusivity fails: two threads that both see no stream
      play together, and the handle of the first is no longer reachable by the controls. */
  lemma OverlapPlaysTwoStreams() returns (states: seq<State>, actions: seq<Action>)
    ensures Run(states, actions)
    ensures forall i :: 0 <= i < |states| ==> states[i].ready
    ensures forall i :: 0 <= i < |actions| && actions[i].ThreadStep? ==> !actions[i].shutdown
    ensures states[|actions|].streams == 2 && states[|actions|].fh == Some(1)
  {
    states, actions := TwoThreads();
    states, actions := Extend(states, actions, ThreadStep(0, false));
    states, actions := Extend(states, actions, ThreadStep(1, false));
    states, actions := Extend(states, actions, ThreadStep(0, false));
    states, actions := Extend(states, actions, ThreadStep(1, false));
  }

  lemma PairSum(ths: seq<Thread>)
    requires |ths| == 2
    ensures Sum(ths, InWindow) == InWindow(ths[0]) + InWindow(ths[1])
  {
    assert Sum(ths[1..], InWindow) == InWindow(ths[1]) + Sum(ths[1..][1..], InWindow);
  }

  /** One thread plays and the other waits for it to stop. */
  lemma WaitingBeside() returns (states: seq<State>, actions: seq<Action>)
    ensures Run(states, actions)
    ensures
      states[|actions|] == INITIAL.(wlock := 4, streams := 1, fh := Some(0),
                                    threads := [Thread(Playing, NEW_HANDLE), Thread(Stopping(0), NEW_HANDLE)])
    ensures forall i :: 0 <= i < |actions| && actions[i].ThreadStep? ==> !actions[i].shutdown
    ensures forall i :: 0 <= i < |states| ==> states[i].ready && Sum(states[i].threads, InWindow) <= 1
  {
    states, actions := TwoThreads();
    states, actions := Extend(states, actions, ThreadStep(0, false));
    states, actions := Extend(states, actions, ThreadStep(0, false));
    states, actions := Extend(states, actions, ThreadStep(1, false));
    forall i | 0 <= i < |states| ensures Sum(states[i].threads, InWindow) <= 1 {
      SumZero(states[i].threads, InWindow);
      if i > 6 { PairSum(states[i].threads); }
    }
  }

  /** Nor without the hypothesis on shutdown: a thread that stops waiting because the module shuts
      down installs its handle beside a stream that is still playing. */
  lemma ShutdownPlaysTwoStreams() returns (states: seq<State>, actions: seq<Action>)
    ensures Run(states, actions)
    ensures forall i :: 0 <= i < |states| ==> states[i].ready && Sum(states[i].threads, InWindow) <= 1
    ensures states[|actions|].streams == 2
  {
    states, actions := WaitingBeside();
    states, actions := Extend(states, actions, ThreadStep(1, true));
    PairSum(states[|actions|].threads);
    states, actions := Extend(states, actions, ThreadStep(1, true));
    PairSum(states[|actions|].threads);
  }

  /** Nor without the hypothesis on the session: clearing fl_ready ends the wait in the same way. */
  lemma UnreadyPlaysTwoStreams() returns (states: seq<State>, actions: seq<Action>)
    ensures Run(states, actions)
    ensures forall i :: 0 <= i < |actions| && actions[i].ThreadStep? ==> !actions[i].shutdown
    ensures forall i :: 0 <= i < |states| ==> Sum(states[i].threads, InWindow) <= 1
    ensures states[|actions|].streams == 2
  {
    states, actions := WaitingBeside();
    states, actions := Extend(states, actions, ClearReady);
    PairSum(states[|actions|].threads);
    states, actions := Extend(states, actions, ThreadStep(1, false));
    PairSum(states[|actions|].threads);
    states, actions := Extend(states, actions, ThreadStep(1, false));
    PairSum(states[|actions|].threads);
  }

  /** A stream paused for a foreground playback and overtaken meanwhile plays on, paused. */
  lemma OvertakenStaysPaused() returns (states: seq<State>, actions: seq<Action>)
    ensures Run(states, actions)
    ensures
      var s := states[|actions|];
      s.script.Idle? && |s.threads| == 2 && s.threads[0] == Thread(Playing, NEW_HANDLE.(paused := true))
  {
    states, actions := TwoThreads();
    states, actions := Extend(states, actions, ThreadStep(0, false));
    states, actions := Extend(states, actions, ThreadStep(1, false));
    states, actions := Extend(states, actions, ThreadStep(0, false));
    states, actions := Extend(states, actions, FgBegin);
    states, actions := Extend(states, actions, ThreadStep(1, false));
    states, actions := Extend(states, actions, FgEnd);
  }

  // ---- progress of a thread --------------------------------------------------------------

  /** Steps a thread still has in front of it at most; the 500 polls are the bulk of them. */
  function Rank(th: Thread): nat {
    match th.pc
    case Spawned(_) => MAX_POLLS + 8
    case Checking => MAX_POLLS + 7
    case Stopping(polls) => if polls <= MAX_POLLS then MAX_POLLS - polls + 6 else 6
    case Installing => 5
    case Playing => 4
    case Leaving => 3
    case StopFailed => 3
    case Unwinding => 2
    case Finishing => 1
    case Done => 0
  }

  function ScriptRank(script: ScriptPc): nat {
    match script
    case Starting(_) => MAX_POLLS + 12
    case StopCall(polls) => if polls <= MAX_POLLS then MAX_POLLS - polls + 4 else 4
    case FgPlaying(_) => 4
    case Idle => 3
    case FinalStop => 2
    case FinalDrain => 1
    case Freed => 0
  }

  /** Bounds the steps this session can still take without a new call by its script. */
  function Potential(s: State): nat {
    Sum(s.threads, Rank) + ScriptRank(s.script)
  }

  /** The cost of one call by the script: what it can add to the potential. */
  const CALL_COST: nat := MAX_POLLS + 9

  /** The steps by which a script begins an ordinary call on an idle session. */
  predicate BeginsCall(a: Action) {
    a.StartTake? || a.StopBegin? || a.ControlBg? || a.FgBegin?
  }

  lemma ControlKeepsRank(s: State, c: Control)
    requires Inv(s)
    ensures Sum(ControlInstalled(s, c).threads, Rank) == Sum(s.threads, Rank)
  {
    if s.fh.Some? {
      var t := s.fh.value;
      SumUpdate(s.threads, t, s.threads[t].(handle := ControlHandle(s.threads[t].handle, c)), Rank);
    }
  }

  lemma PolledStepLowersRank(s: State, t: Tid, shutdown: bool)
    requires Enabled(s, ThreadStep(t, shutdown)) && (s.threads[t].pc.Stopping? ==> s.threads[t].pc.polls <= MAX_POLLS)
    ensures Rank(StepThread(s, t, shutdown).threads[t]) < Rank(s.threads[t])
  {
  }

  lemma ThreadStepLowersRank(s: State, t: Tid, shutdown: bool)
    requires Inv(s) && Enabled(s, ThreadStep(t, shutdown))
    ensures Rank(StepThread(s, t, shutdown).threads[t]) < Rank(s.threads[t])
  {
    PolledStepLowersRank(s, t, shutdown);
  }

  lemma PotentialStep(s: State, a: Action)
    requires Inv(s) && Enabled(s, a)
    ensures
      if BeginsCall(a) then Potential(Apply(s, a)) <= Potential(s) + CALL_COST
      else Potential(Apply(s, a)) < Potential(s)
  {
    match a
    case ThreadStep(t, shutdown) =>
      ThreadStepKeepsInv(s, t, shutdown);
      ThreadStepLowersRank(s, t, shutdown);
      SumUpdate(s.threads, t, StepThread(s, t, shutdown).threads[t], Rank);
    case LaunchPlayback => SumAppend(s.threads, Thread(Spawned(s.script.emptyPath), NEW_HANDLE), Rank);
    case ControlBg(c) => ControlKeepsRank(s, c);
    case FgBegin => ControlKeepsRank(s, Pause);
    case FgEnd => ControlKeepsRank(s, Resume);
    case _ =>
  }

  /** Lower in rank, or still at the same place. */
  predicate Fell(th: Thread, th': Thread) {
    Rank(th') < Rank(th) || th'.pc == th.pc
  }

  lemma FellTwice(a: Thread, b: Thread, c: Thread)
    requires Fell(a, b) && Fell(b, c)
    ensures Fell(a, c)
  {
  }

  lemma NextFell(s: State, a: Action, t: Tid)
    requires Inv(s) && Enabled(s, a) && t < |s.threads|
    ensures t < |Apply(s, a).threads| && Fell(s.threads[t], Apply(s, a).threads[t])
  {
    RankStep(s, a, t);
  }

  /** A thread only ever moves down in rank. */
  lemma {:induction false} RankFalls(states: seq<State>, actions: seq<Action>, i: nat, j: nat, t: Tid)
    requires Run(states, actions) && i <= j < |states| && t < |states[i].threads|
    ensures t < |states[j].threads| && Fell(states[i].threads[t], states[j].threads[t])
    decreases j
  {
    if i < j {
      RankFalls(states, actions, i, j - 1, t);
      RunKeepsInv(states, actions, j - 1);
      NextFell(states[j - 1], actions[j - 1], t);
      FellTwice(states[i].threads[t], states[j - 1].threads[t], states[j].threads[t]);
    }
  }

  lemma RankStep(s: State, a: Action, t: Tid)
    requires Inv(s) && Enabled(s, a) && t < |s.threads|
    ensures t < |Apply(s, a).threads|
    ensures a.ThreadStep? && a.t == t ==> Rank(Apply(s, a).threads[t]) < Rank(s.threads[t])
    ensures !(a.ThreadStep? && a.t == t) ==> Apply(s, a).threads[t].pc == s.threads[t].pc
  {
    if a.ThreadStep? {
      ThreadStepKeepsInv(s, a.t, a.shutdown);
      ThreadStepLowersRank(s, a.t, a.shutdown);
    }
  }

  /** A thread whose stop timed out has not installed its handle before and never will. */
  lemma StopFailedNeverInstalls(states: seq<State>, actions: seq<Action>, i: nat, j: nat, t: Tid)
    requires Run(states, actions) && i < |states| && j < |states|
    requires t < |states[i].threads| && states[i].threads[t].pc.StopFailed?
    requires t < |states[j].threads|
    ensures !states[j].threads[t].pc.Playing? && states[j].fh != Some(t)
  {
    RunKeepsInv(states, actions, j);
    if i <= j {
      RankFalls(states, actions, i, j, t);
    } else if states[j].threads[t].pc.Playing? {
      PlayingEndsInLeaving(states, actions, j, i, t);
      assert false;
    }
  }

  predicate HasPlayed(pc: Pc) {
    pc.Playing? || pc.Leaving? || pc.Unwinding? || pc.Finishing? || pc.Done?
  }

  lemma HasPlayedStep(s: State, a: Action, t: Tid)
    requires Inv(s) && Enabled(s, a) && t < |s.threads| && HasPlayed(s.threads[t].pc)
    ensures t < |Apply(s, a).threads| && HasPlayed(Apply(s, a).threads[t].pc)
  {
    if a.ThreadStep? && a.t == t {
    } else {
      RankStep(s, a, t);
    }
  }

  lemma {:induction false} PlayingEndsInLeaving(states: seq<State>, actions: seq<Action>, i: nat, j: nat, t: Tid)
    requires Run(states, actions) && i <= j < |states| && t < |states[i].threads| && states[i].threads[t].pc.Playing?
    ensures t < |states[j].threads| && HasPlayed(states[j].threads[t].pc)
    decreases j
  {
    if i < j {
      PlayingEndsInLeaving(states, actions, i, j - 1, t);
      RunKeepsInv(states, actions, j - 1);
      HasPlayedStep(states[j - 1], actions[j - 1], t);
    }
  }
}
