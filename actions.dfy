/**
 * The action interpreter and the state publisher of the smart-light client.
 *
 * `handleAction` receives the action list that the JSON decoder produced
 * from an inbound message, looks at its first element only, and turns the
 * names `setOn` and `setOff` into a call of `updateState`, which publishes
 * the light's new state as `{"state":true}` or `{"state":false}` at QoS 2.
 * The publish call is returned as a value instead of being performed.
 */
module Actions {

  import opened Wrappers

  /** The quality of service of every state message: exactly-once delivery. */
  const PUBLISH_QOS: int := 2

  const SET_ON: string := "setOn"
  const SET_OFF: string := "setOff"

  /** The text that comes before the Boolean in every state message. */
  const STATE_PREFIX: string := "{\"state\":"

  /** One decoded action descriptor; `operation` is decoded but never read. */
  datatype SimpleAction = SimpleAction(name: string, operation: string)

  /** One call of the transport's publish operation. */
  datatype Publication = Publication(qos: int, payload: string)

  /** Java's conversion of a boolean to text inside a string concatenation. */
  function BooleanText(b: bool): (text: string) {
    if b then "true" else "false"
  }

  /** updateState: the publish call that reports the light as on or off. */
  function UpdateState(state: bool): (p: Publication)
    ensures p.qos == 2
    ensures p.payload == if state then "{\"state\":true}" else "{\"state\":false}"
  {
    Publication(PUBLISH_QOS, STATE_PREFIX + BooleanText(state) + "}")
  }

  /**
   * How a receiver reads a state message: the Boolean between the prefix
   * `{"state":` and the closing brace, or nothing if the text is not a state
   * message.
   */
  function DecodeState(payload: string): (state: Option<bool>) {
    if |payload| <= |STATE_PREFIX| || payload[..|STATE_PREFIX|] != STATE_PREFIX
       || payload[|payload| - 1] != '}'
    then None
    else
      var body := payload[|STATE_PREFIX|..|payload| - 1];
      if body == "true" then Some(true)
      else if body == "false" then Some(false)
      else None
  }

  /** A published state reads back as the state that was published. */
  lemma DecodeUpdateState(state: bool)
    ensures DecodeState(UpdateState(state).payload) == Some(state)
  {
    var payload := UpdateState(state).payload;
    assert payload[..|STATE_PREFIX|] == STATE_PREFIX;
    assert payload[|STATE_PREFIX|..|payload| - 1] == BooleanText(state);
  }

  /** The only payloads that read back as a state are the ones updateState builds. */
  lemma DecodeStateOnlyUpdateState(payload: string, state: bool)
    requires DecodeState(payload) == Some(state)
    ensures UpdateState(state).payload == payload
  {
    var n := |STATE_PREFIX|;
    var body := payload[n..|payload| - 1];
    assert body == BooleanText(state);
    assert payload == payload[..n] + body + [payload[|payload| - 1]];
  }

  /**
   * handleAction on an already decoded action list: `Some` publish call, or
   * `None` when nothing is published.
   */
  function HandleAction(actionList: seq<SimpleAction>): (r: Option<Publication>)
    // an empty list publishes nothing
    ensures |actionList| == 0 ==> r == None
    // something is published exactly when the first name is setOn or setOff
    ensures r.Some? <==> |actionList| > 0 && actionList[0].name in {SET_ON, SET_OFF}
    // and then it is the state that name stands for
    ensures r.Some? ==> r.value == UpdateState(actionList[0].name == SET_ON)
  {
    if |actionList| > 0 then
      var action := actionList[0];
      match action.name
      case "setOn" => Some(UpdateState(true))
      case "setOff" => Some(UpdateState(false))
      case _ => None
    else None
  }

  /** Only the first action counts: whatever follows it never changes the outcome. */
  lemma {:induction false} FirstActionDecides(action: SimpleAction, rest: seq<SimpleAction>)
    ensures HandleAction([action] + rest) == HandleAction([action])
  {
    assert ([action] + rest)[0] == action;
  }

  /** The first action wins: `setOff` followed by `setOn` publishes the off state. */
  lemma FirstWins(off: SimpleAction, on: SimpleAction)
    requires off.name == SET_OFF && on.name == SET_ON
    ensures HandleAction([off, on]) == Some(Publication(2, "{\"state\":false}"))
  {
  }

  /** An unknown name, such as `blink`, publishes nothing. */
  lemma UnknownActionIgnored(action: SimpleAction, rest: seq<SimpleAction>)
    requires action.name != SET_ON && action.name != SET_OFF
    ensures HandleAction([action] + rest) == None
  {
    assert ([action] + rest)[0] == action;
  }
}
