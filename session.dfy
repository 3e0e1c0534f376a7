/**
 * The callback object of the smart-light client's MQTT session.
 *
 * The transport library reports the outcome of every asynchronous operation
 * through `onSuccess` and `onFailure`, a dropped connection through
 * `connectionLost`, and inbound messages through `messageArrived`. The
 * callbacks keep one piece of state, the `endSession` flag that stops the
 * client's wait loop, and issue at most one of three effects: a subscribe
 * call, a publish call, or the termination of the process.
 */
module Session {

  import opened Wrappers
  import Actions

  /** The operations the transport reports on. */
  datatype OperationMode = Connect | Disconnect | Publish | Subscrib

  /** One callback invocation. `MessageArrived` carries the decoded action list. */
  datatype Event =
    | OnSuccess(mode: OperationMode)
    | OnFailure(mode: OperationMode)
    | ConnectionLost
    | MessageArrived(actionList: seq<Actions.SimpleAction>)
    | DeliveryComplete

  /** What a callback asks of the outside world. */
  datatype Effect =
    | Subscribe
    | Send(publication: Actions.Publication)
    | Exit

  /** The value of `endSession` after a callback, and the effects it issued in order. */
  datatype Transition = Transition(endSession: bool, effects: seq<Effect>)

  /** The effects of handling one inbound action list. */
  function ActionEffects(actionList: seq<Actions.SimpleAction>): (effects: seq<Effect>) {
    match Actions.HandleAction(actionList)
    case Some(p) => [Send(p)]
    case None => []
  }

  /** One callback, taken in the state `endSession`. */
  function Step(endSession: bool, event: Event): (t: Transition)
    // the flag is set only by a completed disconnect or a lost connection, and never cleared
    ensures t.endSession == (endSession || event == OnSuccess(Disconnect) || event == ConnectionLost)
    ensures |t.effects| <= 1
    // a subscribe is issued exactly on a successful connect
    ensures Subscribe in t.effects <==> event == OnSuccess(Connect)
    // the process exits exactly on a failed connect
    ensures Exit in t.effects <==> event == OnFailure(Connect)
    // a publish is issued exactly for an inbound message, and it is what handleAction publishes
    ensures forall p :: Send(p) in t.effects <==>
              event.MessageArrived? && Actions.HandleAction(event.actionList) == Some(p)
  {
    match event
    case OnFailure(mode) =>
      (match mode
       case Connect => Transition(endSession, [Exit])
       case _ => Transition(endSession, []))
    case OnSuccess(mode) =>
      (match mode
       case Connect => Transition(endSession, [Subscribe])
       case Disconnect => Transition(true, [])
       case Publish => Transition(endSession, [])
       case Subscrib => Transition(endSession, []))
    case ConnectionLost => Transition(true, [])
    case MessageArrived(actionList) =>
      Transition(endSession, ActionEffects(actionList))
    case DeliveryComplete => Transition(endSession, [])
  }

  /**
   * A sequence of callbacks from the state `endSession`. Nothing runs after
   * the process has exited.
   */
  function Run(endSession: bool, events: seq<Event>): (t: Transition)
    decreases |events|
  {
    if events == [] then Transition(endSession, [])
    else
      var first := Step(endSession, events[0]);
      if Exit in first.effects then first
      else
        var rest := Run(first.endSession, events[1..]);
        Transition(rest.endSession, first.effects + rest.effects)
  }

  /** Once the session has ended it stays ended. */
  lemma {:induction false} EndSessionStaysSet(events: seq<Event>)
    ensures Run(true, events).endSession
    decreases |events|
  {
    if events != [] {
      EndSessionStaysSet(events[1..]);
    }
  }

  /** The process exits exactly when some connect fails, and the exit is the last effect. */
  lemma {:induction false} ExitOnConnectFailure(endSession: bool, events: seq<Event>)
    ensures var t := Run(endSession, events);
            (Exit in t.effects <==> OnFailure(Connect) in events) &&
            (Exit in t.effects ==> t.effects[|t.effects| - 1] == Exit) &&
            (forall i :: 0 <= i < |t.effects| - 1 ==> t.effects[i] != Exit)
    decreases |events|
  {
    if events != [] {
      var first := Step(endSession, events[0]);
      if Exit !in first.effects {
        ExitOnConnectFailure(first.endSession, events[1..]);
        assert events == [events[0]] + events[1..];
        var rest := Run(first.endSession, events[1..]);
        var all := first.effects + rest.effects;
        forall i | 0 <= i < |all| - 1 ensures all[i] != Exit {
          if i < |first.effects| {
            assert all[i] in first.effects;
          } else {
            assert all[i] == rest.effects[i - |first.effects|];
          }
        }
        if Exit in all {
          assert Exit in rest.effects;
        }
      }
    }
  }

  /** Run on a non-empty sequence, split into its first callback and the rest. */
  lemma RunFirst(endSession: bool, events: seq<Event>)
    requires events != []
    ensures var first := Step(endSession, events[0]);
            var rest := Run(first.endSession, events[1..]);
            Run(endSession, events) ==
              if Exit in first.effects then first
              else Transition(rest.endSession, first.effects + rest.effects)
  {
  }

  /**
   * A lost connection ends the session wherever it happens, unless the process
   * has already exited; no disconnect request exists among the effects.
   */
  lemma {:induction false} ConnectionLostEndsSession(endSession: bool, before: seq<Event>, after: seq<Event>)
    requires OnFailure(Connect) !in before
    ensures Run(endSession, before + [ConnectionLost] + after).endSession
    decreases |before|
  {
    var events := before + [ConnectionLost] + after;
    RunFirst(endSession, events);
    if before == [] {
      assert events[0] == ConnectionLost && events[1..] == after;
      EndSessionStaysSet(after);
    } else {
      assert events[0] == before[0] && before[0] in before;
      assert events[1..] == before[1..] + [ConnectionLost] + after;
      var first := Step(endSession, before[0]);
      ConnectionLostEndsSession(first.endSession, before[1..], after);
    }
  }

  /** A failed connect ends the process before any subscribe or publish. */
  lemma ConnectFailureTerminates(endSession: bool, rest: seq<Event>)
    ensures Run(endSession, [OnFailure(Connect)] + rest) == Transition(endSession, [Exit])
  {
  }

  /** Connect, then `setOn`: one subscribe, then `{"state":true}` published at QoS 2. */
  lemma ConnectThenSetOn(action: Actions.SimpleAction)
    requires action.name == Actions.SET_ON
    ensures Run(false, [OnSuccess(Connect), MessageArrived([action])])
            == Transition(false, [Subscribe, Send(Actions.Publication(2, "{\"state\":true}"))])
  {
    var events := [OnSuccess(Connect), MessageArrived([action])];
    assert Actions.HandleAction([action]) == Some(Actions.UpdateState(true));
    assert events[1..] == [MessageArrived([action])];
    assert events[1..][1..] == [];
    assert Step(false, events[0]) == Transition(false, [Subscribe]);
    assert Step(false, events[1]) == Transition(false, [Send(Actions.UpdateState(true))]);
    assert Run(false, events[1..][1..]) == Transition(false, []);
    assert Run(false, events[1..]) == Transition(false, [Send(Actions.UpdateState(true))]);
  }

  /** The same `setOn` message twice publishes the on state twice. */
  lemma SetOnTwice(endSession: bool, action: Actions.SimpleAction)
    requires action.name == Actions.SET_ON
    ensures var on := Send(Actions.Publication(2, "{\"state\":true}"));
            Run(endSession, [MessageArrived([action]), MessageArrived([action])])
            == Transition(endSession, [on, on])
  {
    var events := [MessageArrived([action]), MessageArrived([action])];
    assert Actions.HandleAction([action]) == Some(Actions.UpdateState(true));
    assert events[1..] == [MessageArrived([action])];
    assert events[1..][1..] == [];
    var on := Send(Actions.UpdateState(true));
    assert Step(endSession, events[0]) == Transition(endSession, [on]);
    assert Run(endSession, events[1..][1..]) == Transition(endSession, []);
    assert Run(endSession, events[1..]) == Transition(endSession, [on]);
  }

  /**
   * The anonymous callback object: its `endSession` field, here together
   * with the record of the effects its callbacks have issued so far.
   */
  class SmartLightSession {
    var endSession: bool
    var issued: seq<Effect>

    /** `endSession` starts out false and nothing has been issued. */
    constructor ()
      ensures !endSession && issued == []
    {
      endSession, issued := false, [];
    }

    /** onFailure: a failed connect terminates the process; any other failure is only logged. */
    method OnFailure(mode: OperationMode)
      modifies this
      ensures var t := Step(old(endSession), Event.OnFailure(mode));
              endSession == t.endSession && issued == old(issued) + t.effects
    {
      match mode {
        case Connect =>
          issued := issued + [Exit];
        case _ =>
      }
    }

    /** onSuccess: a connect subscribes, a disconnect ends the session, the rest is only logged. */
    method OnSuccess(mode: OperationMode)
      modifies this
      ensures var t := Step(old(endSession), Event.OnSuccess(mode));
              endSession == t.endSession && issued == old(issued) + t.effects
    {
      match mode {
        case Connect =>
          issued := issued + [Subscribe];
        case Disconnect =>
          endSession := true;
        case Publish =>
        case Subscrib =>
      }
    }

    /** connectionLost: ends the session, with no reconnect attempt. */
    method ConnectionLost()
      modifies this
      ensures var t := Step(old(endSession), Event.ConnectionLost);
              endSession == t.endSession && issued == old(issued) + t.effects
    {
      endSession := true;
    }

    /** messageArrived, with the payload already decoded into an action list. */
    method MessageArrived(actionList: seq<Actions.SimpleAction>)
      modifies this
      ensures var t := Step(old(endSession), Event.MessageArrived(actionList));
              endSession == t.endSession && issued == old(issued) + t.effects
    {
      var publication := Actions.HandleAction(actionList);
      if publication.Some? {
        issued := issued + [Send(publication.value)];
      }
    }

    /** deliveryComplete: only logged. */
    method DeliveryComplete()
      modifies this
      ensures var t := Step(old(endSession), Event.DeliveryComplete);
              endSession == t.endSession && issued == old(issued) + t.effects
    {
    }
  }
}
