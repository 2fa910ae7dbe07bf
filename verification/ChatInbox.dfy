/** The inbox of a script: the Chat class of js_chat.c and the sending side, xxx_chat_api of
    mod_quickjs.c. Any number of senders push messages through script->chat_queue_ref while the
    script thread creates, reads and finalizes Chat objects. Senders hold a reference to the script
    meanwhile; that part is in the Registry. */
module ChatInbox {
  import opened Sums
  import opened Queues

  const JS_CHAT_QUEUE_SIZE: nat := 1024

  /** A message is named by its sender, which sends one. */
  type Msg = nat

  datatype Sender = Checking | Pushing | Accepted(at: nat) | Refused

  datatype ScriptPc =
    | Idle
    | Publishing(id: nat)
    | Draining(id: nat)
    | Detaching(id: nat)
    | Destroying(id: nat)

  /** A Chat object with the history of its queue. */
  datatype Chat = Chat(live: bool, queue: Queue<Msg>, log: Log)

  /** `drainMark` is how many messages had been accepted when the finalizer saw the queue empty. */
  datatype Log = Log(accepted: seq<Msg>, delivered: seq<Msg>, freed: seq<Msg>, drainMark: nat)

  /** `ref` is script->chat_queue_ref; `deadPush` records a push on a queue that is gone. */
  datatype State = State(ref: Option<nat>, chats: seq<Chat>, senders: seq<Sender>, script: ScriptPc, deadPush: bool)

  datatype Action =
    | NewChat(qsize: nat)
    | Publish
    | GetMessage(id: nat)
    | BeginFinalize(id: nat)
    | DrainOne
    | DrainEnd
    | Detach
    | Destroy
    | SenderStep(p: Msg, scriptReady: bool)

  ghost predicate Enabled(s: State, a: Action) {
    match a
    case NewChat(_) => s.script.Idle? && s.ref == None
    case Publish => s.script.Publishing?
    case GetMessage(id) => s.script.Idle? && id < |s.chats| && s.chats[id].live
    case BeginFinalize(id) => s.script.Idle? && id < |s.chats| && s.chats[id].live
    case DrainOne => s.script.Draining? && s.script.id < |s.chats| && CanPop(s.chats[s.script.id].queue)
    case DrainEnd => s.script.Draining? && s.script.id < |s.chats| && !CanPop(s.chats[s.script.id].queue)
    case Detach => s.script.Detaching?
    case Destroy => s.script.Destroying? && s.script.id < |s.chats|
    case SenderStep(p, _) => p < |s.senders| && (s.senders[p].Checking? || s.senders[p].Pushing?)
  }

  function NewInbox(qsize: nat): Chat {
    Chat(true, Queue([], if qsize == 0 then JS_CHAT_QUEUE_SIZE else qsize, false), Log([], [], [], 0))
  }

  function Deliver(c: Chat): Chat {
    if CanPop(c.queue)
    then c.(queue := Pop(c.queue), log := c.log.(delivered := c.log.delivered + [c.queue.items[0]]))
    else c
  }

  function Discard(c: Chat): Chat
    requires CanPop(c.queue)
  {
    c.(queue := Pop(c.queue), log := c.log.(freed := c.log.freed + [c.queue.items[0]]))
  }

  function Accept(c: Chat, m: Msg): Chat {
    c.(queue := Push(c.queue, m), log := c.log.(accepted := c.log.accepted + [m]))
  }

  function Mark(c: Chat): Chat { c.(log := c.log.(drainMark := |c.log.accepted|)) }

  /** The step is a push that the queue of inbox `id` accepts. */
  predicate Reaches(s: State, a: Action, id: nat)
    requires id < |s.chats|
  {
    && a.SenderStep? && a.p < |s.senders| && s.senders[a.p].Pushing?
    && s.ref == Some(id) && s.chats[id].live && CanPush(s.chats[id].queue)
  }

  /** The effect of a step on the inbox `id`. */
  function ChatAfter(s: State, a: Action, id: nat): Chat
    requires Enabled(s, a) && id < |s.chats|
  {
    var c := s.chats[id];
    match a
    case GetMessage(k) => if k == id then Deliver(c) else c
    case DrainOne => if s.script.id == id then Discard(c) else c
    case DrainEnd => if s.script.id == id then Mark(c) else c
    case Destroy => if s.script.id == id then c.(live := false) else c
    case SenderStep(p, _) => if Reaches(s, a, id) then Accept(c, p) else c
    case _ => c
  }

  /** A sender looks at the queue reference and the script's flags without a lock, then pushes
      under the chat mutex if the reference is still there. */
  function SenderAfter(s: State, p: Msg, scriptReady: bool): Sender
    requires p < |s.senders|
  {
    match s.senders[p]
    case Checking => if s.ref.Some? && scriptReady then Pushing else Refused
    case Pushing =>
      if s.ref.Some? && s.ref.value < |s.chats| && Reaches(s, SenderStep(p, scriptReady), s.ref.value)
      then Accepted(s.ref.value) else Refused
    case done => done
  }

  predicate PushesOnDead(s: State, p: Msg)
    requires p < |s.senders|
  {
    s.senders[p].Pushing? && s.ref.Some? && !(s.ref.value < |s.chats| && s.chats[s.ref.value].live)
  }

  function ChatsAfter(s: State, a: Action): (chats: seq<Chat>)
    requires Enabled(s, a)
    ensures |chats| == |s.chats|
    ensures forall id :: 0 <= id < |s.chats| ==> chats[id] == ChatAfter(s, a, id)
  {
    seq(|s.chats|, id requires 0 <= id < |s.chats| => ChatAfter(s, a, id))
  }

  function Apply(s: State, a: Action): State
    requires Enabled(s, a)
  {
    match a
    case NewChat(qsize) => s.(chats := s.chats + [NewInbox(qsize)], script := Publishing(|s.chats|))
    case Publish => s.(ref := Some(s.script.id), script := Idle)
    case BeginFinalize(id) => s.(script := Draining(id))
    case Detach => s.(ref := None, script := Destroying(s.script.id))
    case DrainEnd => s.(chats := ChatsAfter(s, a), script := Detaching(s.script.id))
    case Destroy => s.(chats := ChatsAfter(s, a), script := Idle)
    case SenderStep(p, ready) =>
      s.(chats := ChatsAfter(s, a),
         senders := s.senders[p := SenderAfter(s, p, ready)],
         deadPush := s.deadPush || PushesOnDead(s, p))
    case _ => s.(chats := ChatsAfter(s, a))
  }

  // ---- the invariant ---------------------------------------------------------------------

  /** The reference names a live inbox, and every live inbox is the one it names, is about to be
      published or has just been detached. */
  ghost predicate RefInv(s: State) {
    && !s.deadPush
    && (s.ref.Some? ==> s.ref.value < |s.chats|)
    && (forall id :: 0 <= id < |s.chats| ==>
          (s.chats[id].live <==> s.ref == Some(id) || s.script == Publishing(id) || s.script == Destroying(id)))
    && (s.script.Publishing? || s.script.Destroying? ==> s.ref == None && s.script.id < |s.chats|)
    && (s.script.Draining? || s.script.Detaching? ==> s.ref == Some(s.script.id))
  }

  /** The finalizer of the inbox has seen its queue empty. */
  predicate Drained(c: Chat, id: nat, script: ScriptPc) {
    !c.live || script == Detaching(id) || script == Destroying(id)
  }

  predicate QueueOk(c: Chat) {
    && 0 < c.queue.capacity && |c.queue.items| <= c.queue.capacity && !c.queue.terminated
    && c.log.accepted == c.log.delivered + c.log.freed + c.queue.items
    && Distinct(c.log.accepted)
  }

  ghost predicate LogOk(c: Chat, id: nat, script: ScriptPc) {
    && QueueOk(c)
    && (Drained(c, id, script) ==> c.log.drainMark == |c.log.delivered| + |c.log.freed|)
    && (!Drained(c, id, script) && script != Draining(id) ==> c.log.freed == [])
  }

  /** The messages on the log of an inbox are those whose sender was told so. */
  ghost predicate SendersOk(c: Chat, id: nat, senders: seq<Sender>) {
    && (forall m :: m in c.log.accepted ==> m < |senders|)
    && (forall m :: 0 <= m < |senders| ==> (m in c.log.accepted <==> senders[m] == Accepted(id)))
  }

  ghost predicate Inv(s: State) {
    && RefInv(s)
    && (forall id :: 0 <= id < |s.chats| ==> LogOk(s.chats[id], id, s.script) && SendersOk(s.chats[id], id, s.senders))
    && (forall m :: 0 <= m < |s.senders| && s.senders[m].Accepted? ==> s.senders[m].at < |s.chats|)
  }

  ghost predicate Init(s: State) {
    && s.ref == None && s.chats == [] && s.script == Idle && !s.deadPush
    && forall p :: 0 <= p < |s.senders| ==> s.senders[p].Checking?
  }

  lemma StepKeepsRefInv(s: State, a: Action)
    requires RefInv(s) && Enabled(s, a)
    ensures RefInv(Apply(s, a))
  {
  }

  lemma AcceptKeepsOk(c: Chat, m: Msg)
    requires QueueOk(c) && m !in c.log.accepted && CanPush(c.queue)
    ensures QueueOk(Accept(c, m))
  {
    assert c.log.accepted + [m] == c.log.delivered + c.log.freed + (c.queue.items + [m]);
  }

  lemma PopKeepsOk(c: Chat)
    requires QueueOk(c) && CanPop(c.queue)
    ensures QueueOk(Discard(c))
    ensures c.log.freed == [] ==> QueueOk(Deliver(c))
  {
    var q := c.queue.items;
    assert q == [q[0]] + q[1..];
    assert c.log.delivered + c.log.freed + q == c.log.delivered + (c.log.freed + [q[0]]) + q[1..];
    if c.log.freed == [] {
      assert c.log.delivered + [] + q == (c.log.delivered + [q[0]]) + [] + q[1..];
    }
  }

  lemma StepKeepsLogOk(s: State, a: Action, id: nat)
    requires RefInv(s) && Enabled(s, a) && id < |s.chats|
    requires LogOk(s.chats[id], id, s.script) && SendersOk(s.chats[id], id, s.senders)
    ensures LogOk(ChatAfter(s, a, id), id, Apply(s, a).script)
  {
    var c := s.chats[id];
    match a
    case GetMessage(k) => if CanPop(c.queue) && k == id { PopKeepsOk(c); }
    case DrainOne => if s.script.id == id { PopKeepsOk(c); }
    case SenderStep(p, _) => if Reaches(s, a, id) { AcceptKeepsOk(c, p); }
    case _ =>
  }

  lemma StepKeepsSendersOk(s: State, a: Action, id: nat)
    requires RefInv(s) && Enabled(s, a) && id < |s.chats|
    requires SendersOk(s.chats[id], id, s.senders)
    ensures SendersOk(ChatAfter(s, a, id), id, Apply(s, a).senders)
  {
    if Reaches(s, a, id) {
      var c, c' := s.chats[id], ChatAfter(s, a, id);
      assert forall m :: m in c'.log.accepted <==> m in c.log.accepted || m == a.p;
    }
  }

  lemma StepKeepsInv(s: State, a: Action)
    requires Inv(s) && Enabled(s, a)
    ensures Inv(Apply(s, a))
  {
    StepKeepsRefInv(s, a);
    var s' := Apply(s, a);
    forall id | 0 <= id < |s.chats|
      ensures s'.chats[id] == ChatAfter(s, a, id)
      ensures LogOk(s'.chats[id], id, s'.script) && SendersOk(s'.chats[id], id, s'.senders)
    {
      StepKeepsLogOk(s, a, id);
      StepKeepsSendersOk(s, a, id);
    }
  }

  // ---- whole runs ------------------------------------------------------------------------

  ghost predicate Run(states: seq<State>, actions: seq<Action>) {
    && |states| == |actions| + 1
    && Init(states[0])
    && forall i :: 0 <= i < |actions| ==> Enabled(states[i], actions[i]) && states[i + 1] == Apply(states[i], actions[i])
  }

  lemma {:induction false} RunKeepsInv(states: seq<State>, actions: seq<Action>, i: nat)
    requires Run(states, actions) && i < |states|
    ensures Inv(states[i])
  {
    if i > 0 {
      RunKeepsInv(states, actions, i - 1);
      StepKeepsInv(states[i - 1], actions[i - 1]);
    }
  }

  /** A published queue reference names a live inbox, no push ever reached a queue that is gone,
      and a script has at most one live Chat. */
  lemma RefNamesLiveQueue(states: seq<State>, actions: seq<Action>, i: nat)
    requires Run(states, actions) && i < |states|
    ensures
      var s := states[i];
      && (s.ref.Some? ==> s.ref.value < |s.chats| && s.chats[s.ref.value].live)
      && !s.deadPush
      && (forall id, id' :: 0 <= id < |s.chats| && 0 <= id' < |s.chats| && s.chats[id].live && s.chats[id'].live ==>
          id == id')
  {
    RunKeepsInv(states, actions, i);
  }

  /** While a Chat lives and is not being finalized, what its script received followed by what is
      queued is what was accepted, in order; and a message is on the log of an inbox exactly if
      its sender was told it went there, so none is lost, doubled or sent to two inboxes. */
  lemma DeliveredInOrder(states: seq<State>, actions: seq<Action>, i: nat, id: nat)
    requires Run(states, actions) && i < |states| && id < |states[i].chats|
    ensures
      var s, c := states[i], states[i].chats[id];
      && (s.ref == Some(id) && !s.script.Draining? && !s.script.Detaching? ==>
            c.log.accepted == c.log.delivered + c.queue.items && c.log.freed == [])
      && c.log.delivered <= c.log.accepted && Distinct(c.log.accepted)
      && |c.queue.items| <= c.queue.capacity
      && (forall m :: 0 <= m < |s.senders| ==> (m in c.log.accepted <==> s.senders[m] == Accepted(id)))
  {
    RunKeepsInv(states, actions, i);
    assert LogOk(states[i].chats[id], id, states[i].script);
  }

  /** Every inbox grows by appending only. */
  lemma {:induction false} LogGrows(states: seq<State>, actions: seq<Action>, i: nat, j: nat, id: nat)
    requires Run(states, actions) && i <= j < |states| && id < |states[i].chats|
    ensures id < |states[j].chats|
    ensures states[i].chats[id].log.accepted <= states[j].chats[id].log.accepted
    ensures states[i].chats[id].log.delivered <= states[j].chats[id].log.delivered
    ensures !states[i].chats[id].live ==> states[j].chats[id] == states[i].chats[id]
    decreases j
  {
    if i < j {
      LogGrows(states, actions, i, j - 1, id);
      RunKeepsInv(states, actions, j - 1);
      LogStep(states[j - 1], actions[j - 1], id);
    }
  }

  lemma LogStep(s: State, a: Action, id: nat)
    requires Inv(s) && Enabled(s, a) && id < |s.chats|
    ensures id < |Apply(s, a).chats| && Apply(s, a).chats[id] == ChatAfter(s, a, id)
    ensures s.chats[id].log.accepted <= ChatAfter(s, a, id).log.accepted
    ensures s.chats[id].log.delivered <= ChatAfter(s, a, id).log.delivered
    ensures !s.chats[id].live ==> ChatAfter(s, a, id) == s.chats[id]
  {
  }

  // ---- teardown --------------------------------------------------------------------------

  /** When an inbox is gone, each accepted message was delivered, was freed by the finalizer, or is
      left in its queue; the leftovers are exactly the messages accepted after the finalizer saw
      the queue empty, so nothing is left behind if and only if nothing was accepted since. */
  lemma TeardownAccounting(states: seq<State>, actions: seq<Action>, i: nat, id: nat)
    requires Run(states, actions) && i < |states| && id < |states[i].chats| && !states[i].chats[id].live
    ensures
      var c := states[i].chats[id];
      && (forall m :: m in c.log.accepted <==> m in c.log.delivered || m in c.log.freed || m in c.queue.items)
      && c.log.drainMark <= |c.log.accepted| && c.queue.items == c.log.accepted[c.log.drainMark..]
      && c.log.accepted[..c.log.drainMark] == c.log.delivered + c.log.freed
      && (c.queue.items == [] <==> |c.log.accepted| == c.log.drainMark)
  {
    RunKeepsInv(states, actions, i);
    var c := states[i].chats[id];
    assert LogOk(c, id, states[i].script);
    forall m
      ensures m in c.log.accepted <==> m in c.log.delivered || m in c.log.freed || m in c.queue.items
    {
    }
  }

  /** A step that leaves a message beyond the mark: the marked inbox accepted it while the
      finalizer stood between drain and detach. */
  lemma LeftoverStep(s: State, a: Action, id: nat)
    requires Inv(s) && Enabled(s, a) && id < |s.chats|
    requires
      var c := ChatAfter(s, a, id);
      Drained(c, id, Apply(s, a).script) && |c.log.accepted| > c.log.drainMark
    ensures
      var c := s.chats[id];
      Drained(c, id, s.script) && (|c.log.accepted| > c.log.drainMark || (a.SenderStep? && s.script == Detaching(id)))
  {
  }

  /** Messages left behind were accepted in that window. */
  lemma {:induction false} LeftoversAcceptedInWindow(states: seq<State>, actions: seq<Action>, i: nat, id: nat)
    requires Run(states, actions) && i < |states| && id < |states[i].chats|
    requires
      var c := states[i].chats[id];
      Drained(c, id, states[i].script) && |c.log.accepted| > c.log.drainMark
    ensures exists j :: 0 <= j < i && actions[j].SenderStep? && states[j].script == Detaching(id)
                     && states[j].senders[actions[j].p].Pushing? && states[j + 1].senders[actions[j].p] == Accepted(id)
  {
    RunKeepsInv(states, actions, i - 1);
    var s, a := states[i - 1], actions[i - 1];
    assert states[i] == Apply(s, a);
    if id < |s.chats| {
      assert states[i].chats[id] == ChatAfter(s, a, id);
      LeftoverStep(s, a, id);
      if |s.chats[id].log.accepted| > s.chats[id].log.drainMark {
        LeftoversAcceptedInWindow(states, actions, i - 1, id);
      } else {
        assert Reaches(s, a, id);
      }
    }
  }

  lemma Extend(states: seq<State>, actions: seq<Action>, a: Action) returns (states': seq<State>, actions': seq<Action>)
    requires Run(states, actions) && Enabled(states[|actions|], a)
    ensures Run(states', actions')
    ensures states' == states + [Apply(states[|actions|], a)] && actions' == actions + [a]
  {
    states', actions' := states + [Apply(states[|actions|], a)], actions + [a];
  }

  /** The window is real: a message its sender was told is accepted, neither delivered nor freed. */
  lemma MessageLeftBehind() returns (states: seq<State>, actions: seq<Action>)
    ensures Run(states, actions)
    ensures
      var s := states[|actions|];
      s.senders == [Accepted(0)] && |s.chats| == 1 && !s.chats[0].live && s.chats[0].queue.items == [0]
  {
    states, actions := [State(None, [], [Checking], Idle, false)], [];
    states, actions := Extend(states, actions, NewChat(0));
    states, actions := Extend(states, actions, Publish);
    states, actions := Extend(states, actions, SenderStep(0, true));
    states, actions := Extend(states, actions, BeginFinalize(0));
    states, actions := Extend(states, actions, DrainEnd);
    states, actions := Extend(states, actions, SenderStep(0, true));
    states, actions := Extend(states, actions, Detach);
    states, actions := Extend(states, actions, Destroy);
  }
}
