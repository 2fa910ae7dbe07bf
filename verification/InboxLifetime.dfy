/** A script's inbox together with the life of the script: senders are clients that hold a reference
    to it, and freeing its runtime finalizes the Chat objects that are left. */
module InboxLifetime {
  import opened Sums
  import R = Registry
  import I = ChatInbox

  /** The inbox of script `sid`; client c, if it brings a message to it, is sender c. */
  datatype State = State(reg: R.State, inbox: I.State, sid: R.Sid)

  datatype Action = OfRegistry(r: R.Action) | OfInbox(x: I.Action)

  predicate Decided(sender: I.Sender) { sender.Accepted? || sender.Refused? }

  ghost predicate NoneLive(s: I.State) { forall id :: 0 <= id < |s.chats| ==> !s.chats[id].live }

  /** A client gives its reference back only when its message is decided on, and the script goes on
      with its own life only between two operations on its inbox; freeing the runtime ends when no
      Chat is left. */
  ghost predicate Enabled(s: State, a: Action) {
    && s.sid < |s.reg.scripts|
    && match a
       case OfRegistry(r) =>
         && R.Enabled(s.reg, r)
         && (r.ClientStep? && IsSender(s, r.c) ==> r.c < |s.inbox.senders| && Decided(s.inbox.senders[r.c]))
         && (r.ScriptStep? && r.i == s.sid ==>
               s.inbox.script.Idle? && (ScriptPc(s).FreeingRuntime? ==> NoneLive(s.inbox)))
       case OfInbox(x) =>
         && I.Enabled(s.inbox, x)
         && (match x
             case SenderStep(p, ready) => IsSender(s, p) && ready == CheckPasses(s)
             case NewChat(_) => ScriptPc(s).Running?
             case Publish => ScriptPc(s).Running?
             case GetMessage(_) => ScriptPc(s).Running?
             case _ => ScriptPc(s).Running? || ScriptPc(s).FreeingRuntime?)
  }

  function ScriptPc(s: State): R.ScriptPc
    requires s.sid < |s.reg.scripts|
  {
    s.reg.scripts[s.sid].pc
  }

  /** What xxx_chat_api reads of the script before it makes a message. */
  predicate CheckPasses(s: State)
    requires s.sid < |s.reg.scripts|
  {
    s.reg.scripts[s.sid].flags.ready && !s.reg.scripts[s.sid].flags.destroyed
  }

  /** The client stands between finding the script and giving its reference back. */
  predicate IsSender(s: State, c: R.Cid) {
    c < |s.reg.clients| && s.reg.clients[c].command == R.Message(s.sid) && s.reg.clients[c].pc.Holding?
  }

  ghost function Apply(s: State, a: Action): State
    requires Enabled(s, a)
  {
    match a
    case OfRegistry(r) => s.(reg := R.Apply(s.reg, r))
    case OfInbox(x) => s.(inbox := I.Apply(s.inbox, x))
  }

  // ---- the invariant -------------------------------------------------------------------------

  /** From its teardown on a script is marked destroyed. */
  predicate MarkedOnce(sc: R.Script) {
    R.PastZero(sc.pc) || sc.pc.Draining? ==> sc.flags.destroyed
  }

  /** Who is about to push found the script before its drain loop read zero. */
  ghost predicate PushersEarly(s: State) {
    forall p :: 0 <= p < |s.inbox.senders| && s.inbox.senders[p].Pushing? ==>
      IsSender(s, p) && s.reg.clients[p].pc == R.Holding(false)
  }

  ghost predicate Inv(s: State) {
    && R.Inv(s.reg) && I.Inv(s.inbox)
    && s.sid < |s.reg.scripts| && |s.inbox.senders| == |s.reg.clients|
    && MarkedOnce(s.reg.scripts[s.sid])
    && PushersEarly(s)
    && (!s.inbox.script.Idle? ==> ScriptPc(s).Running? || ScriptPc(s).FreeingRuntime?)
  }

  ghost predicate Init(s: State) {
    R.Init(s.reg) && I.Init(s.inbox) && s.sid < |s.reg.scripts| && |s.inbox.senders| == |s.reg.clients|
  }

  lemma InitInv(s: State)
    requires Init(s)
    ensures Inv(s)
  {
    R.InitInv(s.reg);
  }

  lemma ClientMarks(cl: R.Client, sc: R.Script, fails: bool)
    requires MarkedOnce(sc) && R.PairOk(cl, sc)
    ensures MarkedOnce(R.ScriptAfter(cl, sc, fails))
    ensures sc.pc.Running? || sc.pc.FreeingRuntime? ==> R.ScriptAfter(cl, sc, fails).pc == sc.pc
  {
  }

  lemma ScriptMarks(sc: R.Script, g: R.Globals, ends: bool)
    requires MarkedOnce(sc) && R.ScriptEnabled(sc, g)
    ensures MarkedOnce(R.OwnStep(sc, g.shutdown, ends))
  {
  }

  lemma ClientStepKeepsScript(s: State, c: R.Cid, fails: bool)
    requires Inv(s) && Enabled(s, OfRegistry(R.ClientStep(c, fails)))
    ensures
      var (sc, s') := (s.reg.scripts[s.sid], R.StepClient(s.reg, c, fails));
      && |s'.scripts| == |s.reg.scripts| && |s'.clients| == |s.reg.clients| && MarkedOnce(s'.scripts[s.sid])
      && (sc.pc.Running? || sc.pc.FreeingRuntime? ==> s'.scripts[s.sid].pc == sc.pc)
  {
    var cl, n := s.reg.clients[c], |s.reg.scripts|;
    if R.Target(cl, n) == Some(s.sid) {
      assert R.Addressed(cl, n);
      if R.Bound(cl, n).Some? { assert R.PairOk(cl, s.reg.scripts[s.sid]); }
      ClientMarks(cl, s.reg.scripts[s.sid], fails);
    }
  }

  lemma RegistryKeepsInv(s: State, r: R.Action)
    requires Inv(s) && Enabled(s, OfRegistry(r))
    ensures Inv(Apply(s, OfRegistry(r)))
  {
    var s' := Apply(s, OfRegistry(r));
    R.StepKeepsInv(s.reg, r);
    match r
    case ClientStep(c, fails) =>
      ClientStepKeepsScript(s, c, fails);
      forall p | 0 <= p < |s.inbox.senders| && s.inbox.senders[p].Pushing?
        ensures IsSender(s', p) && s'.reg.clients[p].pc == R.Holding(false)
      {
        assert p != c;
      }
    case ScriptStep(i, ends) => if i == s.sid { ScriptMarks(s.reg.scripts[i], s.reg.g, ends); }
    case _ =>
  }

  /** A sender that passes the check found the script before the zero reading. */
  lemma PassingIsEarly(s: State, p: R.Cid)
    requires Inv(s) && IsSender(s, p)
    ensures CheckPasses(s) ==> s.reg.clients[p].pc == R.Holding(false)
    ensures s.reg.clients[p].pc == R.Holding(false) ==> !R.PastZero(ScriptPc(s))
  {
    var n := |s.reg.scripts|;
    assert R.Addressed(s.reg.clients[p], n) && R.Bound(s.reg.clients[p], n) == Some(s.sid);
    assert R.PairOk(s.reg.clients[p], s.reg.scripts[s.sid]);
  }

  lemma SenderStepKeepsPushers(s: State, p: R.Cid, ready: bool)
    requires Inv(s) && Enabled(s, OfInbox(I.SenderStep(p, ready)))
    ensures PushersEarly(Apply(s, OfInbox(I.SenderStep(p, ready))))
  {
    PassingIsEarly(s, p);
  }

  lemma InboxKeepsInv(s: State, x: I.Action)
    requires Inv(s) && Enabled(s, OfInbox(x))
    ensures Inv(Apply(s, OfInbox(x)))
  {
    I.StepKeepsInv(s.inbox, x);
    if x.SenderStep? { SenderStepKeepsPushers(s, x.p, x.scriptReady); }
  }

  lemma StepKeepsInv(s: State, a: Action)
    requires Inv(s) && Enabled(s, a)
    ensures Inv(Apply(s, a))
  {
    match a
    case OfRegistry(r) => RegistryKeepsInv(s, r);
    case OfInbox(x) => InboxKeepsInv(s, x);
  }

  // ---- whole runs ----------------------------------------------------------------------------

  ghost predicate Next(s: State, a: Action, s': State) {
    Enabled(s, a) && s' == Apply(s, a)
  }

  ghost predicate Run(states: seq<State>, actions: seq<Action>) {
    && |states| == |actions| + 1
    && Init(states[0])
    && forall k :: 0 <= k < |actions| ==> Next(states[k], actions[k], states[k + 1])
  }

  lemma NextInv(s: State, a: Action, s': State)
    requires Inv(s) && Next(s, a, s')
    ensures Inv(s')
  {
    StepKeepsInv(s, a);
  }

  lemma {:induction false} RunKeepsInv(states: seq<State>, actions: seq<Action>, k: nat)
    requires Run(states, actions) && k < |states|
    ensures Inv(states[k])
  {
    if k == 0 {
      InitInv(states[0]);
    } else {
      RunKeepsInv(states, actions, k - 1);
      NextInv(states[k - 1], actions[k - 1], states[k]);
    }
  }

  /** A message is accepted between the drain and the detaching of inbox `id`. */
  ghost predicate SlipsIn(s: State, a: Action, id: nat) {
    && a.OfInbox? && a.x.SenderStep? && a.x.p < |s.inbox.senders| && s.inbox.senders[a.x.p].Pushing?
    && s.inbox.script == I.Detaching(id)
  }

  /** Nothing slips in while the runtime is being freed. */
  lemma SlippingIsRunning(s: State, a: Action, id: nat)
    requires Inv(s) && Enabled(s, a) && SlipsIn(s, a, id)
    ensures ScriptPc(s).Running?
  {
    PassingIsEarly(s, a.x.p);
  }

  ghost predicate Overhang(s: State, id: nat) {
    && id < |s.inbox.chats| && I.Drained(s.inbox.chats[id], id, s.inbox.script)
    && |s.inbox.chats[id].log.accepted| > s.inbox.chats[id].log.drainMark
  }

  lemma OverhangStep(s: State, a: Action, id: nat)
    requires Inv(s) && Enabled(s, a) && Overhang(Apply(s, a), id)
    ensures Overhang(s, id) || SlipsIn(s, a, id)
  {
    if a.OfInbox? && id < |s.inbox.chats| {
      I.LogStep(s.inbox, a.x, id);
      I.LeftoverStep(s.inbox, a.x, id);
    }
  }

  lemma OverhangComes(s: State, a: Action, s': State, id: nat)
    requires Inv(s) && Next(s, a, s') && Overhang(s', id)
    ensures Overhang(s, id) || SlipsInRunning(s, a, id)
  {
    OverhangStep(s, a, id);
    if SlipsIn(s, a, id) { SlippingIsRunning(s, a, id); }
  }

  ghost predicate SlipsInRunning(s: State, a: Action, id: nat) {
    SlipsIn(s, a, id) && s.sid < |s.reg.scripts| && ScriptPc(s).Running?
  }

  /** A message beyond the drain slipped in while the script itself was running: an inbox leaks only
      if its Chat was finalized by the garbage collector of a running script. */
  lemma {:induction false} LeaksOnlyWhileRunning(states: seq<State>, actions: seq<Action>, k: nat, id: nat)
    returns (j: nat)
    requires Run(states, actions) && k < |states| && Overhang(states[k], id)
    ensures j < k && SlipsInRunning(states[j], actions[j], id)
  {
    if k == 0 {
      assert false;
    } else {
      j := k - 1;
      RunKeepsInv(states, actions, j);
      OverhangComes(states[j], actions[j], states[k], id);
      if Overhang(states[j], id) { j := LeaksOnlyWhileRunning(states, actions, j, id); }
    }
  }

  /** So a Chat that is finalized while the runtime is freed leaves no message behind. */
  lemma RuntimeFreesAll(states: seq<State>, actions: seq<Action>, k: nat, id: nat)
    requires Run(states, actions) && k < |states| && id < |states[k].inbox.chats| && !states[k].inbox.chats[id].live
    requires forall j ::
      0 <= j < k && states[j].inbox.script == I.Detaching(id) && states[j].sid < |states[j].reg.scripts| ==>
        ScriptPc(states[j]).FreeingRuntime?
    ensures states[k].inbox.chats[id].queue.items == []
  {
    RunKeepsInv(states, actions, k);
    var s := states[k].inbox;
    assert I.LogOk(s.chats[id], id, s.script);
    if Overhang(states[k], id) {
      var j := LeaksOnlyWhileRunning(states, actions, k, id);
    }
  }
}
