/** The Chat class itself: constructor, getMessage and finalizer of js_chat.c and the pushing part
    of xxx_chat_api, run under interference and proved to follow the ChatInbox system. */
module InboxObject {
  import opened Sums
  import opened Queues
  import opened ChatInbox
  import opened Resources

  datatype Actor = ScriptThread | SenderThread(p: Msg)

  function ActorOf(a: Action): Actor {
    if a.SenderStep? then SenderThread(a.p) else ScriptThread
  }

  ghost predicate Present(s: State, me: Actor) {
    me.SenderThread? ==> me.p < |s.senders|
  }

  /** A stretch of a run in which `me` takes no step. */
  ghost predicate Path(states: seq<State>, actions: seq<Action>, me: Actor) {
    && |states| == |actions| + 1
    && forall i :: 0 <= i < |actions| ==>
         && Enabled(states[i], actions[i])
         && states[i + 1] == Apply(states[i], actions[i])
         && ActorOf(actions[i]) != me
  }

  ghost predicate OthersRan(s: State, s': State, me: Actor) {
    exists states, actions :: Path(states, actions, me) && states[0] == s && states[|actions|] == s'
  }

  function Undecided(sender: Sender): nat { if sender.Checking? || sender.Pushing? then 1 else 0 }

  /** Each push uses up a sender, so a queue being drained cannot be refilled for ever. */
  ghost function StillComing(s: State, id: nat): nat
    requires id < |s.chats|
  {
    Sum(s.senders, Undecided) + |s.chats[id].queue.items|
  }

  /** Senders only append to the queue of an inbox and to its log of accepted messages. */
  ghost predicate OnlyAppended(c: Chat, c': Chat) {
    && c'.live == c.live && c'.log.delivered == c.log.delivered && c'.log.freed == c.log.freed
    && c'.log.drainMark == c.log.drainMark
    && c.queue.items <= c'.queue.items && c.log.accepted <= c'.log.accepted
  }

  ghost predicate Undisturbed(s: State, s': State, me: Actor)
    requires Present(s, me)
  {
    && Inv(s')
    && (match me
        case SenderThread(p) => p < |s'.senders| && s'.senders[p] == s.senders[p]
        case ScriptThread =>
          && s'.script == s.script && s'.ref == s.ref && |s'.chats| == |s.chats|
          && forall id :: 0 <= id < |s.chats| ==>
               OnlyAppended(s.chats[id], s'.chats[id]) && StillComing(s', id) <= StillComing(s, id))
  }

  lemma SenderStepAppends(s: State, a: Action, id: nat)
    requires Inv(s) && Enabled(s, a) && a.SenderStep? && id < |s.chats|
    ensures OnlyAppended(s.chats[id], Apply(s, a).chats[id])
    ensures StillComing(Apply(s, a), id) <= StillComing(s, id)
  {
    SumUpdate(s.senders, a.p, SenderAfter(s, a.p, a.scriptReady), Undecided);
    assert Apply(s, a).chats[id] == ChatAfter(s, a, id);
  }

  lemma OtherStepLeavesMine(s: State, a: Action, me: Actor)
    requires Inv(s) && Present(s, me) && Enabled(s, a) && ActorOf(a) != me
    ensures Undisturbed(s, Apply(s, a), me)
  {
    StepKeepsInv(s, a);
    if me.ScriptThread? {
      forall id | 0 <= id < |s.chats|
        ensures OnlyAppended(s.chats[id], Apply(s, a).chats[id]) && StillComing(Apply(s, a), id) <= StillComing(s, id)
      {
        SenderStepAppends(s, a, id);
      }
    }
  }

  lemma AppendedTwice(a: Chat, b: Chat, c: Chat)
    requires OnlyAppended(a, b) && OnlyAppended(b, c)
    ensures OnlyAppended(a, c)
  {
  }

  lemma {:induction false} OthersLeaveMine(states: seq<State>, actions: seq<Action>, me: Actor)
    requires Path(states, actions, me) && Inv(states[0]) && Present(states[0], me)
    ensures Undisturbed(states[0], states[|actions|], me)
    decreases |actions|
  {
    if actions != [] {
      var n := |actions| - 1;
      OthersLeaveMine(states[..n + 1], actions[..n], me);
      OtherStepLeavesMine(states[n], actions[n], me);
      if me.ScriptThread? {
        forall id | 0 <= id < |states[0].chats|
          ensures OnlyAppended(states[0].chats[id], states[n + 1].chats[id])
        {
          AppendedTwice(states[0].chats[id], states[n].chats[id], states[n + 1].chats[id]);
        }
      }
    }
  }

  /** Draining takes one message from what may still come. */
  lemma DrainLowers(s: State)
    requires Inv(s) && Enabled(s, DrainOne)
    ensures StillComing(Apply(s, DrainOne), s.script.id) < StillComing(s, s.script.id)
  {
    assert Apply(s, DrainOne).chats[s.script.id] == ChatAfter(s, DrainOne, s.script.id);
  }

  /** What can fail in the constructor of a Chat: its record, its pool, its mutex, and reading the
      prototype and creating the object in the engine. */
  datatype Faults = Faults(record: bool, pool: bool, mutex: bool, proto: bool, instance: bool)

  predicate AnyFault(f: Faults) { f.record || f.pool || f.mutex || f.proto || f.instance }

  class ScriptInbox {
    var chatQueueRef: Option<nat>
    var queues: seq<Queue<Msg>>
    ghost var chats: seq<Chat>
    ghost var senders: seq<Sender>
    ghost var script: ScriptPc

    ghost function View(): State
      reads this
    {
      State(chatQueueRef, chats, senders, script, false)
    }

    /** The queues are those of the inboxes. */
    ghost predicate Valid()
      reads this
    {
      && Inv(View())
      && |queues| == |chats|
      && forall id :: 0 <= id < |chats| ==> queues[id] == chats[id].queue
    }

    constructor (ghost n: nat)
      ensures Valid() && Init(View()) && |senders| == n
    {
      chatQueueRef, queues := None, [];
      chats, senders, script := [], seq(n, _ => Checking), Idle;
    }

    /** Any finite number of steps of the other threads. */
    method Interfere(ghost me: Actor)
      requires Valid() && Present(View(), me)
      modifies this
      ensures Valid() && OthersRan(old(View()), View(), me)
      ensures Undisturbed(old(View()), View(), me)
    {
      assert Path([View()], [], me);
    }

    /** Records that the fields now hold what action `a` leaves. */
    ghost method Advance(before: State, a: Action)
      requires Inv(before) && Enabled(before, a)
      requires
        var s' := Apply(before, a);
        && chatQueueRef == s'.ref && |queues| == |s'.chats|
        && forall id :: 0 <= id < |queues| ==> queues[id] == s'.chats[id].queue
      modifies `chats, `senders, `script
      ensures Valid() && View() == Apply(before, a)
    {
      var s' := Apply(before, a);
      StepKeepsInv(before, a);
      chats, senders, script := s'.chats, s'.senders, s'.script;
    }

    /** The constructor of Chat: refused while another Chat of the script is registered. If anything
        it needs fails, everything is given back and nothing is published. */
    method NewChatObject(qsize: nat, faults: Faults, mem: Ledger) returns (chat: Option<nat>)
      requires Valid() && script == Idle && mem.Valid()
      modifies this, mem
      ensures Valid() && script == Idle && mem.Valid()
      ensures chat == None <==> old(chatQueueRef).Some? || AnyFault(faults)
      ensures chat == None ==> View() == old(View()) && mem.live == old(mem.live)
      ensures chat.Some? ==> chatQueueRef == chat && chat.value == |old(chats)| < |chats| && chats[chat.value].live
      ensures chat.Some? ==> old(mem.live) < mem.live
    {
      chat := None;
      if chatQueueRef.Some? { return; }
      var ok := AllocateChat(faults, mem);
      if ok { chat := PublishChat(qsize); }
    }

    /** The record and the pool of a Chat, or neither. */
    method AllocateChat(faults: Faults, mem: Ledger) returns (ok: bool)
      requires mem.Valid()
      modifies mem
      ensures mem.Valid() && ok == !AnyFault(faults)
      ensures if ok then old(mem.live) < mem.live else mem.live == old(mem.live)
    {
      ok := false;
      var record := mem.Acquire(faults.record);
      if record == None { return; }
      var pool := mem.Acquire(faults.pool);
      ok := pool.Some? && !faults.mutex && !faults.proto && !faults.instance;
      if !ok {
        if pool.Some? { mem.Destroy(pool.value); }
        mem.Destroy(record.value);
      }
    }

    /** Publishing the queue of a new Chat under the chat mutex. */
    method PublishChat(qsize: nat) returns (chat: Option<nat>)
      requires Valid() && script == Idle && chatQueueRef == None
      modifies this
      ensures Valid() && script == Idle
      ensures chat.Some? && chatQueueRef == chat && chat.value == |old(chats)| < |chats| && chats[chat.value].live
    {
      ghost var before := View();
      queues := queues + [NewInbox(qsize).queue];
      Advance(before, NewChat(qsize));
      chat := Some(|queues| - 1);
      Interfere(ScriptThread);
      before := View();
      chatQueueRef := chat;
      Advance(before, Publish);
    }

    /** getMessage: the oldest message not yet received, if there is one. */
    method GetMessage(id: nat) returns (msg: Option<Msg>)
      requires Valid() && script == Idle && id < |chats| && chats[id].live
      modifies this
      ensures Valid() && script == Idle && id < |chats| == |old(chats)|
      ensures msg == None <==> old(queues[id].items) == []
      ensures msg.Some? ==> chats[id].log.delivered == old(chats[id].log.delivered) + [msg.value]
      ensures chats[id].log.accepted == old(chats[id].log.accepted)
      ensures forall k :: 0 <= k < |chats| && k != id ==> chats[k] == old(chats)[k]
    {
      ghost var before := View();
      assert LogOk(chats[id], id, script);
      msg := None;
      if CanPop(queues[id]) {
        msg := Some(queues[id].items[0]);
        queues := queues[id := Pop(queues[id])];
      }
      Advance(before, ChatInbox.GetMessage(id));
    }

    /** The finalizer's first loop: pops and frees until a pop fails. */
    method Drain(id: nat)
      requires Valid() && script == Draining(id)
      modifies this
      ensures Valid() && script == Detaching(id) && id < |chats|
      ensures queues[id].items == [] && chats[id].log.drainMark == |chats[id].log.accepted|
      ensures chats[id].log.delivered == old(chats[id].log.delivered)
    {
      while CanPop(queues[id])
        invariant Valid() && script == Draining(id)
        invariant chats[id].log.delivered == old(chats[id].log.delivered)
        decreases StillComing(View(), id)
      {
        ghost var before := View();
        queues := queues[id := Pop(queues[id])];
        Advance(before, DrainOne);
        DrainLowers(before);
        Interfere(ScriptThread);
      }
      ghost var before := View();
      assert LogOk(chats[id], id, script);
      Advance(before, DrainEnd);
    }

    /** The end of the finalizer: detach the queue from the script, destroy it. */
    method DetachAndDestroy(id: nat)
      requires Valid() && script == Detaching(id)
      modifies this
      ensures Valid() && script == Idle && chatQueueRef == None
      ensures id < |chats| && !chats[id].live
      ensures chats[id].log.delivered == old(chats[id].log.delivered)
      ensures chats[id].log.drainMark == old(chats[id].log.drainMark)
    {
      ghost var before := View();
      chatQueueRef := None;
      Advance(before, Detach);
      Interfere(ScriptThread);
      before := View();
      Advance(before, Destroy);
    }

    /** js_chat_finalizer: what is accepted after the drain stays in the queue it destroys. */
    method Finalizer(id: nat)
      requires Valid() && script == Idle && id < |chats| && chats[id].live
      modifies this
      ensures Valid() && script == Idle && chatQueueRef == None
      ensures id < |chats| && !chats[id].live
      ensures chats[id].log.delivered == old(chats[id].log.delivered)
      ensures chats[id].log.drainMark <= |chats[id].log.accepted|
      ensures queues[id].items == chats[id].log.accepted[chats[id].log.drainMark..]
    {
      ghost var before := View();
      Advance(before, BeginFinalize(id));
      Interfere(ScriptThread);
      Drain(id);
      Interfere(ScriptThread);
      DetachAndDestroy(id);
      assert LogOk(chats[id], id, script);
    }

    /** xxx_chat_api with a script found: look without a lock, then push under the chat mutex. A
        message that is not accepted is freed by the sender. */
    method SendMessage(p: Msg, ready: bool) returns (status: bool)
      requires Valid() && p < |senders| && senders[p] == Checking
      modifies this
      ensures Valid() && p < |senders|
      ensures status <==> senders[p].Accepted?
      ensures !status ==> senders[p] == Refused
      ensures status ==> senders[p].at < |chats| && p in chats[senders[p].at].log.accepted
    {
      ghost var before := View();
      status := false;
      var found := chatQueueRef.Some? && ready;
      Advance(before, SenderStep(p, ready));
      if found {
        Interfere(SenderThread(p));
        status := PushUnderMutex(p, ready);
      }
    }

    method PushUnderMutex(p: Msg, ghost ready: bool) returns (status: bool)
      requires Valid() && p < |senders| && senders[p] == Pushing
      modifies this
      ensures Valid() && View() == Apply(old(View()), SenderStep(p, ready))
      ensures status == (old(chatQueueRef).Some? && CanPush(old(queues)[old(chatQueueRef).value]))
      ensures if status then senders[p] == Accepted(old(chatQueueRef).value) else senders[p] == Refused
    {
      ghost var before := View();
      status := false;
      if chatQueueRef.Some? {
        var id := chatQueueRef.value;
        status := CanPush(queues[id]);
        queues := queues[id := Push(queues[id], p)];
      }
      Advance(before, SenderStep(p, ready));
    }
  }
}
