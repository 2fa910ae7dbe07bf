/** Playing a prompt and detecting speech: the input callback and the wait loop of
    js_session_asr.c. What the callback leaves behind is specified over the whole sequence of
    inputs it was given. */
module SpeechDetect {
  import opened Sums
  import opened CStrings

  const DONE: nat := 1
  const DONE_RECOGNIZING: nat := 2
  const UINT32: nat := 0x1_0000_0000

  datatype Status = Success | False | Generr | Break | OtherStatus(code: nat)

  /** switch_input_args_t of the caller: whether it has an input callback and a digit machine. */
  datatype Args = Args(hasCallback: bool, hasDmachine: bool)

  /** A speech event carries its Speech-Type header and its body, "" standing for a missing one; a
      digit carries what the caller's callback answers to it. */
  datatype Input = Speech(kind: string, body: string) | Digit(answer: Status) | OtherInput

  // ---- what a sequence of inputs means ----------------------------------------------------

  predicate HasCallback(args: Option<Args>) { args.Some? && args.value.hasCallback }

  predicate IsSpeech(i: Input, kind: string) {
    i.Speech? && i.kind != "" && EqualsIgnoreCase(i.kind, kind)
  }

  /** The input ends detection. */
  predicate Finishes(i: Input, args: Option<Args>) {
    || IsSpeech(i, "detected-speech") || IsSpeech(i, "closed")
    || (i.Digit? && HasCallback(args) && i.answer != Success)
  }

  /** The caller's callback is shown the input. */
  predicate ForCaller(i: Input, args: Option<Args>) {
    HasCallback(args) && (i.Digit? || (i.Speech? && i.kind != ""))
  }

  /** The place of the first input that ends detection. */
  function FirstFinish(inputs: seq<Input>, args: Option<Args>): (k: nat)
    ensures k <= |inputs|
  {
    if inputs == [] || Finishes(inputs[0], args) then 0 else FirstFinish(inputs[1..], args) + 1
  }

  lemma {:induction false} FirstFinishIs(inputs: seq<Input>, args: Option<Args>)
    ensures var k := FirstFinish(inputs, args); k < |inputs| ==> Finishes(inputs[k], args)
    ensures forall j :: 0 <= j < FirstFinish(inputs, args) ==> !Finishes(inputs[j], args)
  {
    if inputs != [] && !Finishes(inputs[0], args) {
      FirstFinishIs(inputs[1..], args);
      var k := FirstFinish(inputs[1..], args);
      assert forall j :: 0 < j <= k ==> inputs[j] == inputs[1..][j - 1];
    }
  }

  predicate Finished(inputs: seq<Input>, args: Option<Args>) { FirstFinish(inputs, args) < |inputs| }

  function DoneOf(inputs: seq<Input>, args: Option<Args>): nat {
    var k := FirstFinish(inputs, args);
    if k == |inputs| then 0 else if inputs[k].Speech? then DONE_RECOGNIZING else DONE
  }

  /** The recognized text: the body of the input that ended detection if that was detected speech. */
  function ResultOf(inputs: seq<Input>, args: Option<Args>): string {
    var k := FirstFinish(inputs, args);
    if k < |inputs| && IsSpeech(inputs[k], "detected-speech") then inputs[k].body else ""
  }

  /** The inputs that count: up to and including the one that ends detection. */
  function Heard(inputs: seq<Input>, args: Option<Args>): seq<Input> {
    var k := FirstFinish(inputs, args);
    if k < |inputs| then inputs[..k + 1] else inputs
  }

  function OnlyForCaller(inputs: seq<Input>, args: Option<Args>): seq<Input> {
    if inputs == [] then []
    else
      var n := |inputs| - 1;
      OnlyForCaller(inputs[..n], args) + if ForCaller(inputs[n], args) then [inputs[n]] else []
  }

  function ShownOf(inputs: seq<Input>, args: Option<Args>): seq<Input> { OnlyForCaller(Heard(inputs, args), args) }

  /** One more input after detection has ended. */
  lemma OneMore(inputs: seq<Input>, i: Input, args: Option<Args>)
    ensures
      var k := FirstFinish(inputs, args);
      FirstFinish(inputs + [i], args) == if k < |inputs| then k else if Finishes(i, args) then |inputs| else |inputs| + 1
    ensures Heard(inputs + [i], args) == if Finished(inputs, args) then Heard(inputs, args) else inputs + [i]
  {
    var k, k' := FirstFinish(inputs, args), FirstFinish(inputs + [i], args);
    FirstFinishIs(inputs, args);
    FirstFinishIs(inputs + [i], args);
    assert forall j :: 0 <= j < |inputs| ==> (inputs + [i])[j] == inputs[j];
    if k < |inputs| {
      assert k' == k by {
        assert Finishes((inputs + [i])[k], args);
      }
    } else {
      assert (inputs + [i])[|inputs|] == i;
      assert (inputs + [i])[..|inputs| + 1] == inputs + [i];
    }
  }

  /** Once detection has ended, no later input changes the state, the result or what the caller's
      callback has been shown. */
  lemma {:induction false} NothingAfterFinish(inputs: seq<Input>, more: seq<Input>, args: Option<Args>)
    requires Finished(inputs, args)
    ensures Finished(inputs + more, args)
    ensures DoneOf(inputs + more, args) == DoneOf(inputs, args) != 0
    ensures ResultOf(inputs + more, args) == ResultOf(inputs, args)
    ensures ShownOf(inputs + more, args) == ShownOf(inputs, args)
    decreases |more|
  {
    if more == [] {
      assert inputs + more == inputs;
    } else {
      assert inputs + more == inputs + [more[0]] + more[1..];
      OneMore(inputs, more[0], args);
      assert (inputs + [more[0]])[FirstFinish(inputs, args)] == inputs[FirstFinish(inputs, args)];
      NothingAfterFinish(inputs + [more[0]], more[1..], args);
    }
  }

  /** A text is returned exactly if the first input that ends detection is detected speech with
      that body: neither an earlier digit nor an earlier closing of the channel preceded it. */
  lemma TextIffDetectedFirst(inputs: seq<Input>, args: Option<Args>, text: string)
    requires text != ""
    ensures ResultOf(inputs, args) == text <==>
              exists k :: 0 <= k < |inputs| && IsSpeech(inputs[k], "detected-speech") && inputs[k].body == text
                       && forall j :: 0 <= j < k ==> !Finishes(inputs[j], args)
  {
    var f := FirstFinish(inputs, args);
    FirstFinishIs(inputs, args);
    forall k | 0 <= k < |inputs| && IsSpeech(inputs[k], "detected-speech") && (forall j :: 0 <= j < k ==>
        !Finishes(inputs[j], args))
      ensures k == f
    {
      assert Finishes(inputs[k], args);
    }
  }

  // ---- the callback ----------------------------------------------------------------------

  /** play_and_detect_speech_state_t, with the inputs given so far and those shown on. */
  class Detection {
    var done: nat
    var result: string
    var originalArgs: Option<Args>
    ghost const args: Option<Args>
    ghost var inputs: seq<Input>
    ghost var shown: seq<Input>

    ghost predicate Valid()
      reads this
    {
      && done == DoneOf(inputs, args)
      && result == ResultOf(inputs, args)
      && (done == 0 ==> originalArgs == args)
      && shown == ShownOf(inputs, args)
    }

    constructor (callerArgs: Option<Args>)
      ensures Valid() && inputs == [] && args == callerArgs
    {
      done, result, originalArgs := 0, "", callerArgs;
      args, inputs, shown := callerArgs, [], [];
    }

    /** deliver_asr_event, and the call of the caller's callback for a digit. */
    method Deliver(i: Input) returns (answer: Status)
      requires originalArgs == args && (i.Digit? || (i.Speech? && i.kind != ""))
      modifies `shown
      ensures shown == old(shown) + if ForCaller(i, args) then [i] else []
      ensures answer == if i.Digit? && HasCallback(args) then i.answer else Success
    {
      answer := Success;
      if originalArgs.Some? && originalArgs.value.hasCallback {
        shown := shown + [i];
        if i.Digit? { answer := i.answer; }
      }
    }

    /** play_and_detect_input_callback. It asks to break off exactly at the input that ends
        detection and at a start of speech before it. */
    method InputCallback(i: Input) returns (status: Status)
      requires Valid()
      modifies this
      ensures Valid() && inputs == old(inputs) + [i]
      ensures status == if old(done) == 0 && (Finishes(i, args) || IsSpeech(i, "begin-speaking")) then Break else Success
    {
      OneMore(inputs, i, args);
      ghost var before := inputs;
      inputs := inputs + [i];
      assert inputs[..|before|] == before;
      status := Success;
      if done == 0 {
        match i
        case Speech(kind, body) =>
          if kind != "" {
            var answer := Deliver(i);
            status := OnSpeech(kind, body);
          }
        case Digit(_) =>
          var answer := Deliver(i);
          if answer != Success {
            done := DONE;
            status := Break;
          }
        case OtherInput =>
      }
    }

    method OnSpeech(kind: string, body: string) returns (status: Status)
      requires done == 0 && result == "" && kind != ""
      modifies `done, `result, `originalArgs
      ensures
        var i := Speech(kind, body);
        && (done == if Finishes(i, None) then DONE_RECOGNIZING else 0)
        && (result == if IsSpeech(i, "detected-speech") then body else "")
        && (done == 0 ==> originalArgs == old(originalArgs))
        && (status == if Finishes(i, None) || IsSpeech(i, "begin-speaking") then Break else Success)
    {
      DistinctKinds(kind);
      status := Success;
      if EqualsIgnoreCase(kind, "detected-speech") {
        result := body;
        originalArgs := None;
        done := DONE_RECOGNIZING;
        status := Break;
      } else if EqualsIgnoreCase(kind, "detected-partial-speech") {
      } else if EqualsIgnoreCase(kind, "begin-speaking") {
        status := Break;
      } else if EqualsIgnoreCase(kind, "closed") {
        done := DONE_RECOGNIZING;
        result := "";
        status := Break;
      }
    }

    /** A stretch of media during which the host calls the callback for each input. */
    method Feed(more: seq<Input>)
      requires Valid()
      modifies this
      ensures Valid() && inputs == old(inputs) + more
    {
      for n := 0 to |more|
        invariant Valid() && inputs == old(inputs) + more[..n]
      {
        assert more[..n + 1] == more[..n] + [more[n]];
        var status := InputCallback(more[n]);
      }
      assert more[..|more|] == more;
    }
  }

  /** No kind of speech event equals two of the four names. */
  lemma DistinctKinds(kind: string)
    ensures EqualsIgnoreCase(kind, "detected-partial-speech") ==>
        !EqualsIgnoreCase(kind, "detected-speech") && !EqualsIgnoreCase(kind, "closed")
            && !EqualsIgnoreCase(kind, "begin-speaking")
    ensures EqualsIgnoreCase(kind, "begin-speaking") ==>
        !EqualsIgnoreCase(kind, "detected-speech") && !EqualsIgnoreCase(kind, "closed")
  {
    assert |LowerAll(kind)| == |kind|;
    assert |LowerAll("detected-speech")| == 15 && |LowerAll("detected-partial-speech")| == 23;
    assert |LowerAll("begin-speaking")| == 14 && |LowerAll("closed")| == 6;
  }

  // ---- the wait loop ---------------------------------------------------------------------

  /** What one stretch of media brings: whether the channel is up before it, the inputs, the
      status, the clock after it and whether the digit machine still answers. */
  datatype Tick = Tick(ready: bool, inputs: seq<Input>, status: Status, now: nat, pingOk: bool)

  /** The channel goes down in the end. */
  predicate HangsUp(env: seq<Tick>) { env != [] && !env[|env| - 1].ready }

  /** The prompt to play, if there is one, and whether the digit machine answers after it. */
  datatype Prompt = Prompt(file: Option<Tick>, pingOk: bool)

  /** The timeout asked for and the clock when the wait begins. */
  datatype Limit = Limit(timeout: nat, start: nat)

  datatype Call = Call(
    wantsResult: bool,
    detectStatus: Status,
    args: Option<Args>,
    prompt: Prompt,
    limit: Limit,
    closeAsr: bool)

  /** What the host was asked: how often detection was paused and stopped, how often to sleep. */
  datatype Asked = Asked(pauses: nat, stops: nat, sleeps: nat)

  datatype Outcome = Outcome(status: Status, text: Option<string>, asked: Asked)

  predicate Acceptable(status: Status) { status == Break || status == Success }

  predicate PingFails(args: Option<Args>, pingOk: bool) { args.Some? && args.value.hasDmachine && !pingOk }

  /** Twice the timeout, wrapping at 32 bits. */
  function Doubled(timeout: nat): nat { (timeout * 2) % UINT32 }

  /** The deadline, 0 for none. */
  function Expiry(limit: Limit): nat {
    if limit.timeout == 0 then 0 else Doubled(limit.timeout) + limit.start
  }

  predicate TimedOut(limit: Limit, tick: Tick) { Expiry(limit) != 0 && Expiry(limit) <= tick.now }

  /** The loop is left right after this sleep. */
  predicate Leaves(call: Call, tick: Tick) {
    TimedOut(call.limit, tick) || PingFails(call.args, tick.pingOk) || !Acceptable(tick.status)
  }

  function PromptInputs(call: Call): seq<Input> {
    if call.prompt.file.Some? then call.prompt.file.value.inputs else []
  }

  /** Everything the callback was given by the end of n sleeps. */
  function InputsBy(call: Call, env: seq<Tick>, n: nat): seq<Input>
    requires n <= |env|
  {
    if n == 0 then PromptInputs(call) else InputsBy(call, env, n - 1) + env[n - 1].inputs
  }

  function PromptStatus(call: Call): Status { if call.prompt.file.Some? then call.prompt.file.value.status
      else call.detectStatus }

  predicate Recognizing(call: Call) { call.wantsResult && call.detectStatus == Success }

  /** The prompt ends with the wait loop still to be entered. */
  predicate Waits(call: Call) {
    && Recognizing(call) && !PingFails(call.args, call.prompt.pingOk) && Acceptable(PromptStatus(call))
    && !Finished(PromptInputs(call), call.args)
  }

  /** The next sleep is entered: the channel is up and detection has not ended. */
  ghost predicate Enters(call: Call, env: seq<Tick>, j: nat) {
    j < |env| && env[j].ready && !Finished(InputsBy(call, env, j), call.args)
  }

  ghost predicate GoesOn(call: Call, env: seq<Tick>, j: nat) {
    Enters(call, env, j) && !Leaves(call, env[j])
  }

  /** The loop slept exactly n times: every sleep went on to the next, and after the last one the
      loop was left or no further sleep was entered. */
  ghost predicate SleptExactly(call: Call, env: seq<Tick>, n: nat)
    requires n <= |env|
  {
    || ((forall j: nat :: j < n ==> GoesOn(call, env, j)) && !Enters(call, env, n))
    || (n > 0 && (forall j: nat :: j < n - 1 ==> GoesOn(call, env, j)) && Enters(call, env, n - 1)
        && Leaves(call, env[n - 1]))
  }

  /** The loop's length is determined by its environment. */
  lemma SleptUnique(call: Call, env: seq<Tick>, n: nat, n': nat)
    requires n < n' <= |env| && SleptExactly(call, env, n)
    ensures !SleptExactly(call, env, n')
  {
    if n > 0 && GoesOn(call, env, n - 1) {
      assert GoesOn(call, env, n) ==> Enters(call, env, n);
    } else {
      assert GoesOn(call, env, n) ==> Enters(call, env, n);
    }
  }

  /** The clock advances by at least a second per sleep. */
  ghost predicate Advances(call: Call, env: seq<Tick>) {
    && 0 < call.limit.start && (env != [] ==> call.limit.start < env[0].now)
    && forall j: nat :: j + 1 < |env| ==> env[j].now < env[j + 1].now
  }

  lemma {:induction false} ClockAfter(call: Call, env: seq<Tick>, j: nat)
    requires Advances(call, env) && j < |env|
    ensures env[j].now >= call.limit.start + j + 1
  {
    if j > 0 {
      ClockAfter(call, env, j - 1);
      assert env[j - 1].now < env[j - 1 + 1].now;
    }
  }

  function MostSleeps(timeout: nat): nat {
    if Doubled(timeout) == 0 then 1 else Doubled(timeout)
  }

  lemma DeadlineReached(call: Call, env: seq<Tick>, j: nat)
    requires j < |env| && Advances(call, env) && call.limit.timeout > 0 && j + 1 >= MostSleeps(call.limit.timeout)
    ensures Leaves(call, env[j])
  {
    ClockAfter(call, env, j);
  }

  /** With a timeout and an advancing clock the loop sleeps at most twice the timeout, reckoned
      in 32 bits, and at most once if that is 0. */
  lemma TimeoutBounds(call: Call, env: seq<Tick>, n: nat)
    requires n <= |env| && SleptExactly(call, env, n) && Advances(call, env) && call.limit.timeout > 0
    ensures n <= MostSleeps(call.limit.timeout)
  {
    var m := MostSleeps(call.limit.timeout);
    if n > m && GoesOn(call, env, m - 1) {
      DeadlineReached(call, env, m - 1);
    }
  }

  lemma SmallTimeout(call: Call, env: seq<Tick>, n: nat)
    requires n <= |env| && SleptExactly(call, env, n) && Advances(call, env) && 0 < call.limit.timeout < 0x8000_0000
    ensures n <= 2 * call.limit.timeout
  {
    TimeoutBounds(call, env, n);
  }

  // ---- too early a timeout ---------------------------------------------------------------

  /** Whatever the clock shows, the deadline is not passed before twice the timeout is over. */
  ghost predicate DeadlineInTime(limit: Limit) {
    forall tick: Tick :: TimedOut(limit, tick) ==> tick.now >= limit.start + 2 * limit.timeout
  }

  ghost predicate EndsAtDeadline(limit: Limit, call: Call, env: seq<Tick>, n: nat) {
    && call.limit == limit && 0 < n <= |env| && Advances(call, env)
    && SleptExactly(call, env, n) && TimedOut(limit, env[n - 1])
  }

  /** No wait is left for its deadline before twice the timeout is over. */
  ghost predicate NeverEarly(limit: Limit) {
    forall call: Call, env: seq<Tick>, n: nat :: EndsAtDeadline(limit, call, env, n) ==>
      env[n - 1].now >= limit.start + 2 * limit.timeout
  }

  /** The doubled timeout keeps its value exactly below 2^31. */
  lemma DeadlineInTimeIff(limit: Limit)
    requires 0 < limit.timeout < UINT32 && limit.start > 0
    ensures DeadlineInTime(limit) <==> limit.timeout < 0x8000_0000
  {
    if limit.timeout >= 0x8000_0000 {
      var early := Tick(true, [], Success, Doubled(limit.timeout) + limit.start, true);
      assert TimedOut(limit, early);
    }
  }

  /** A wait under way: recognition started, no prompt, no digit machine. */
  function PlainCall(limit: Limit): Call {
    Call(true, Success, None, Prompt(None, true), limit, false)
  }

  /** A timeout of 2^31 or more is reckoned 2^32 seconds too short: a wait can end after a single
      sleep, long before twice the timeout is over. */
  lemma EarlyWait(limit: Limit) returns (env: seq<Tick>)
    requires 0x8000_0000 <= limit.timeout < UINT32 && limit.start > 0
    ensures HangsUp(env) && Waits(PlainCall(limit)) && Advances(PlainCall(limit), env)
    ensures |env| > 1 && SleptExactly(PlainCall(limit), env, 1) && TimedOut(limit, env[0])
    ensures env[0].now == limit.start + 2 * limit.timeout - UINT32 + 1 < limit.start + 2 * limit.timeout
  {
    var call, now := PlainCall(limit), limit.start + Doubled(limit.timeout) + 1;
    env := [Tick(true, [], Success, now, true), Tick(false, [], Success, now + 1, true)];
    assert Enters(call, env, 0);
    assert Leaves(call, env[0]);
  }

  /** The loop is never left for its deadline too early if and only if the timeout is below 2^31. */
  lemma NeverEarlyIff(limit: Limit)
    requires 0 < limit.timeout < UINT32 && limit.start > 0
    ensures NeverEarly(limit) <==> limit.timeout < 0x8000_0000
  {
    DeadlineInTimeIff(limit);
    if limit.timeout >= 0x8000_0000 {
      var env := EarlyWait(limit);
      assert EndsAtDeadline(limit, PlainCall(limit), env, 1);
    }
  }

  /** The clock advances by exactly a second per sleep. */
  ghost predicate Steady(call: Call, env: seq<Tick>) {
    call.limit.start > 0 && forall j: nat :: j < |env| ==> env[j].now == call.limit.start + j + 1
  }

  /** On a steady clock a wait that only its deadline ends sleeps exactly as often as the doubled
      timeout says: twice the timeout below 2^31, and once for 2^31. */
  lemma SteadySleeps(call: Call, env: seq<Tick>, n: nat)
    requires 0 < n <= |env| && SleptExactly(call, env, n) && Steady(call, env) && call.limit.timeout > 0
    requires TimedOut(call.limit, env[n - 1])
    ensures n == MostSleeps(call.limit.timeout)
  {
    TimeoutBounds(call, env, n);
  }

  /** The status after a sleep, detection not having ended. */
  function StatusAfter(call: Call, last: Tick): Status {
    if TimedOut(call.limit, last) then last.status
    else if PingFails(call.args, last.pingOk) then Success
    else if !Acceptable(last.status) then False
    else last.status
  }

  /** The status with which the loop ends after n sleeps. */
  function StatusOf(call: Call, env: seq<Tick>, n: nat): Status
    requires n <= |env|
  {
    if n == 0 then PromptStatus(call) else StatusAfter(call, env[n - 1])
  }

  /** The status when recognition never started. */
  function StatusWithout(call: Call): Status {
    if !call.wantsResult then False
    else if call.detectStatus == False then Generr
    else call.detectStatus
  }

  /** The text the caller is given, if it asked for one. */
  function TextAfter(call: Call, env: seq<Tick>, n: nat): Option<string>
    requires n <= |env|
  {
    if !call.wantsResult then None
    else if Recognizing(call) then Some(ResultOf(InputsBy(call, env, n), call.args))
    else Some("")
  }

  /** What the caller gets. */
  ghost predicate Answers(call: Call, env: seq<Tick>, o: Outcome) {
    && o.asked.sleeps <= |env|
    && o.text == TextAfter(call, env, o.asked.sleeps)
    && o.asked.pauses == (if Recognizing(call) then 1 else 0)
    && o.asked.stops == (if Recognizing(call) && call.closeAsr then 1 else 0)
    && (if Waits(call) then SleptExactly(call, env, o.asked.sleeps) else o.asked.sleeps == 0)
    && (if Recognizing(call) then
          if Finished(InputsBy(call, env, o.asked.sleeps), call.args) then o.status == Success
          else if Waits(call) then o.status == StatusOf(call, env, o.asked.sleeps)
          else o.status == if PingFails(call.args, call.prompt.pingOk) then Success else False
        else o.status == StatusWithout(call))
  }

  lemma DoneIffFinished(inputs: seq<Input>, args: Option<Args>)
    ensures DoneOf(inputs, args) != 0 <==> Finished(inputs, args)
  {
  }

  /** How the host's sleep ends, and whether the loop is left. A silent digit machine raises `done`,
      which makes the status a success in the end. */
  method AfterSleep(call: Call, tick: Tick) returns (status: Status, leaves: bool)
    ensures leaves == Leaves(call, tick) && status == StatusAfter(call, tick)
  {
    status, leaves := tick.status, true;
    var expiry := Expiry(call.limit);
    if expiry != 0 && expiry <= tick.now { return; }
    if call.args.Some? && call.args.value.hasDmachine && !tick.pingOk {
      status := Success;
      return;
    }
    if !Acceptable(status) {
      status := False;
      return;
    }
    leaves := false;
  }

  /** A sleep, during which the callback may end detection. */
  method Sleep(inputs: seq<Input>, state: Detection) returns (over: bool)
    requires state.Valid()
    modifies state
    ensures state.Valid() && state.inputs == old(state.inputs) + inputs
    ensures over == Finished(state.inputs, state.args)
  {
    state.Feed(inputs);
    over := state.done != 0;
    DoneIffFinished(state.inputs, state.args);
  }

  /** Every one of the first n sleeps went on to the next. */
  ghost predicate Through(call: Call, env: seq<Tick>, n: nat) {
    forall j: nat :: j < n ==> GoesOn(call, env, j)
  }

  lemma OneMoreSleep(call: Call, env: seq<Tick>, n: nat)
    requires Through(call, env, n) && Enters(call, env, n)
    ensures if Leaves(call, env[n]) then SleptExactly(call, env, n + 1) else Through(call, env, n + 1)
  {
    assert Leaves(call, env[n]) || GoesOn(call, env, n);
  }

  lemma WaitEnds(call: Call, env: seq<Tick>, n: nat)
    requires n <= |env| && Through(call, env, n) && !Enters(call, env, n)
    ensures SleptExactly(call, env, n)
  {
  }

  /** One turn of the wait loop. */
  method SleepOnce(call: Call, env: seq<Tick>, n: nat, state: Detection)
    returns (over: bool, status: Status, leaves: bool)
    requires Through(call, env, n) && Enters(call, env, n)
    requires state.Valid() && state.args == call.args && state.inputs == InputsBy(call, env, n)
    modifies state
    ensures state.Valid() && state.inputs == InputsBy(call, env, n + 1)
    ensures over == Finished(state.inputs, call.args)
    ensures if leaves then SleptExactly(call, env, n + 1) else Through(call, env, n + 1)
    ensures status == StatusOf(call, env, n + 1)
  {
    OneMoreSleep(call, env, n);
    status, leaves := AfterSleep(call, env[n]);
    over := Sleep(env[n].inputs, state);
  }

  method WaitForResult(call: Call, env: seq<Tick>, state: Detection) returns (sleeps: nat, status: Status)
    requires state.Valid() && state.args == call.args && state.inputs == PromptInputs(call)
    requires !Finished(state.inputs, call.args)
    requires HangsUp(env)
    modifies state
    ensures sleeps <= |env| && state.Valid() && state.inputs == InputsBy(call, env, sleeps)
    ensures SleptExactly(call, env, sleeps)
    ensures status == StatusOf(call, env, sleeps)
  {
    sleeps, status := 0, PromptStatus(call);
    var over := false;
    while !over && env[sleeps].ready
      invariant sleeps < |env| && state.Valid() && state.inputs == InputsBy(call, env, sleeps)
      invariant over == Finished(state.inputs, call.args)
      invariant Through(call, env, sleeps) && status == StatusOf(call, env, sleeps)
      decreases |env| - sleeps
    {
      var leaves;
      over, status, leaves := SleepOnce(call, env, sleeps, state);
      sleeps := sleeps + 1;
      if leaves { return; }
    }
    WaitEnds(call, env, sleeps);
  }

  /** From the start of recognition to its pause, on every way out. */
  method Recognize(call: Call, env: seq<Tick>) returns (o: Outcome)
    requires HangsUp(env) && Recognizing(call)
    ensures Answers(call, env, o)
  {
    var state := new Detection(call.args);
    var status, sleeps, done := call.detectStatus, 0, 0;
    if call.prompt.file.Some? {
      state.Feed(call.prompt.file.value.inputs);
      status := call.prompt.file.value.status;
    }
    assert state.inputs == PromptInputs(call);
    DoneIffFinished(state.inputs, call.args);
    if PingFails(call.args, call.prompt.pingOk) {
      done := DONE;
    } else if !Acceptable(status) {
      status := False;
    } else if state.done == 0 {
      sleeps, status := WaitForResult(call, env, state);
      DoneIffFinished(state.inputs, call.args);
    }
    if done != 0 || state.done != 0 { status := Success; }
    o := Outcome(status, Some(state.result), Asked(1, if call.closeAsr then 1 else 0, sleeps));
  }

  /** switch_ivr_play_and_detect_speech_ex, on a channel that goes down in the end. Every way out
      after recognition started pauses detection exactly once, and a finished detection is a
      success whatever the host reported. */
  method PlayAndDetectSpeech(call: Call, env: seq<Tick>) returns (o: Outcome)
    requires HangsUp(env)
    ensures Answers(call, env, o)
    ensures call.limit.timeout > 0 && Advances(call, env) ==> o.asked.sleeps <= MostSleeps(call.limit.timeout)
  {
    if !call.wantsResult { return Outcome(False, None, Asked(0, 0, 0)); }
    if call.detectStatus != Success {
      return Outcome(if call.detectStatus == False then Generr else call.detectStatus, Some(""), Asked(0, 0, 0));
    }
    o := Recognize(call, env);
    if Waits(call) && call.limit.timeout > 0 && Advances(call, env) { TimeoutBounds(call, env, o.asked.sleeps); }
  }
}
