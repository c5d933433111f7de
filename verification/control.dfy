/**
 * The controller's state machine: the F12 hotkey toggles keyboard control,
 * re-arming the listener so that it suppresses local input exactly while
 * control is on, and key events are sent only while control is on and the
 * connection is up. A send either succeeds, loses the connection for good,
 * or fails otherwise and changes nothing; which one happens is the
 * network's choice, so it is an input here.
 */
module Control {
  import opened Wrappers
  import opened Capture

  /** The outcome of one sendall. */
  datatype SendResult = Sent | ConnectionLost | OtherError

  /** keyboard_control_enabled, the listener's suppress flag, whether
      client_socket is set, and the events delivered so far. */
  datatype ControlState = ControlState(enabled: bool, suppress: bool, connected: bool, sent: seq<KeyEvent>)

  /** The state start_server sets up before connecting: control off, the
      listener started without suppression, no socket. */
  const Initial: ControlState := ControlState(false, false, false, [])

  /** Local input is swallowed exactly while it is being forwarded. */
  predicate Consistent(s: ControlState) {
    s.suppress == s.enabled
  }

  /** send_event. */
  function AfterSend(s: ControlState, ev: KeyEvent, outcome: SendResult): (t: ControlState)
    ensures t.enabled == s.enabled && t.suppress == s.suppress
    ensures |t.sent| > |s.sent| <==> s.enabled && s.connected && outcome == Sent
    ensures t.sent == s.sent || t.sent == s.sent + [ev]
    ensures t.connected <==> s.connected && !(s.enabled && outcome == ConnectionLost)
  {
    if s.enabled && s.connected then
      match outcome
      case Sent => s.(sent := s.sent + [ev])
      case ConnectionLost => s.(connected := false)
      case OtherError => s
    else
      s
  }

  /** toggle_keyboard_control, with start_keyboard_listener re-arming the
      listener. */
  function Toggled(s: ControlState): (t: ControlState)
    ensures t.enabled == !s.enabled
    ensures Consistent(t)
    ensures t.connected == s.connected && t.sent == s.sent
  {
    var enabled := !s.enabled;
    s.(enabled := enabled, suppress := enabled)
  }

  /** on_key_event: classify, then send what the classification gives. */
  function AfterKey(s: ControlState, key: Key, isPress: bool, outcome: SendResult): (t: ControlState)
    ensures t.enabled == s.enabled && t.suppress == s.suppress
    ensures Classify(key, isPress).None? ==> t == s
    ensures Classify(key, isPress).Some? ==> t == AfterSend(s, Classify(key, isPress).value, outcome)
  {
    match Classify(key, isPress)
    case None => s
    case Some(ev) => AfterSend(s, ev, outcome)
  }

  /** on_press: F12 toggles and is not forwarded. */
  function AfterPress(s: ControlState, key: Key, outcome: SendResult): (t: ControlState)
    ensures key == F12 ==> t == Toggled(s)
    ensures key != F12 ==> t == AfterKey(s, key, true, outcome)
    ensures key != F12 ==> t.enabled == s.enabled && t.suppress == s.suppress
  {
    if key == F12 then Toggled(s) else AfterKey(s, key, true, outcome)
  }

  /** on_release: an F12 release is dropped. */
  function AfterRelease(s: ControlState, key: Key, outcome: SendResult): (t: ControlState)
    ensures key == F12 ==> t == s
    ensures key != F12 ==> t == AfterKey(s, key, false, outcome)
    ensures t.enabled == s.enabled && t.suppress == s.suppress
  {
    if key == F12 then s else AfterKey(s, key, false, outcome)
  }

  /** One listener callback, with the outcome of the send it may cause. */
  datatype Input = Press(key: Key, outcome: SendResult) | Release(key: Key, outcome: SendResult)

  function Step(s: ControlState, input: Input): (t: ControlState)
    ensures input.key == F12 && input.Press? ==> t == Toggled(s)
    ensures input.key == F12 && input.Release? ==> t == s
    ensures input.key != F12 ==> t == AfterKey(s, input.key, input.Press?, input.outcome)
  {
    match input
    case Press(key, outcome) => AfterPress(s, key, outcome)
    case Release(key, outcome) => AfterRelease(s, key, outcome)
  }

  /** The callbacks in the order the listener delivers them. */
  function Run(s: ControlState, inputs: seq<Input>): (t: ControlState)
    ensures s.sent <= t.sent
    ensures t.connected ==> s.connected
    decreases |inputs|
  {
    if inputs == [] then s else Run(Step(s, inputs[0]), inputs[1..])
  }

  /** The number of F12 presses among the inputs. */
  function Toggles(inputs: seq<Input>): (n: nat)
    ensures n <= |inputs|
  {
    if inputs == [] then 0
    else (if inputs[0].Press? && inputs[0].key == F12 then 1 else 0) + Toggles(inputs[1..])
  }

  /** Two toggles restore the state they started from. */
  lemma ToggleTwice(s: ControlState)
    requires Consistent(s)
    ensures Toggled(Toggled(s)) == s
  {
  }

  /** The suppress flag follows the enabled flag through every callback. */
  lemma {:induction false} RunKeepsConsistent(s: ControlState, inputs: seq<Input>)
    requires Consistent(s)
    ensures Consistent(Run(s, inputs))
    decreases |inputs|
  {
    if inputs != [] {
      RunKeepsConsistent(Step(s, inputs[0]), inputs[1..]);
    }
  }

  /** Control is on exactly when it started on and was toggled an even
      number of times, or started off and was toggled an odd number. */
  lemma {:induction false} EnabledIsToggleParity(s: ControlState, inputs: seq<Input>)
    ensures Run(s, inputs).enabled == (s.enabled != (Toggles(inputs) % 2 == 1))
    decreases |inputs|
  {
    if inputs != [] {
      EnabledIsToggleParity(Step(s, inputs[0]), inputs[1..]);
    }
  }

  /** Once the connection is lost nothing more is ever sent, and it never
      comes back. */
  lemma {:induction false} LostConnectionIsFinal(s: ControlState, inputs: seq<Input>)
    requires !s.connected
    ensures !Run(s, inputs).connected
    ensures Run(s, inputs).sent == s.sent
    decreases |inputs|
  {
    if inputs != [] {
      LostConnectionIsFinal(Step(s, inputs[0]), inputs[1..]);
    }
  }

  /** While control is off and F12 is not pressed, nothing at all changes:
      no event is sent and the connection is not touched. */
  lemma {:induction false} NothingLeaksWhileDisabled(s: ControlState, inputs: seq<Input>)
    requires !s.enabled && Toggles(inputs) == 0
    ensures Run(s, inputs) == s
    decreases |inputs|
  {
    if inputs != [] {
      NothingLeaksWhileDisabled(Step(s, inputs[0]), inputs[1..]);
    }
  }

  /** What may appear on the wire: never the hotkey, and nothing the
      classifier filters out. */
  predicate OnWire(ev: KeyEvent) {
    ev.id != Name("f12") && Forwardable(ev.id)
  }

  /** Callbacks only ever add events to the sent sequence, and each event
      they add may appear on the wire. */
  lemma {:induction false} RunSendsOnlyOnWire(s: ControlState, inputs: seq<Input>)
    ensures s.sent <= Run(s, inputs).sent
    ensures forall i :: |s.sent| <= i < |Run(s, inputs).sent| ==> OnWire(Run(s, inputs).sent[i])
    decreases |inputs|
  {
    if inputs != [] {
      var t := Step(s, inputs[0]);
      StepSendsOnlyOnWire(s, inputs[0]);
      RunSendsOnlyOnWire(t, inputs[1..]);
    }
  }

  lemma StepSendsOnlyOnWire(s: ControlState, input: Input)
    ensures var t := Step(s, input);
      t.sent == s.sent || (t.sent == s.sent + [t.sent[|s.sent|]] && OnWire(t.sent[|s.sent|]))
  {
    var t := Step(s, input);
    if input.key != F12 {
      var ev := Classify(input.key, input.Press?);
      if ev.Some? {
        ClassifiedIsForwardable(input.key, input.Press?);
        assert ev.value.id != Name("f12");
      }
    }
  }

  /** Forwarding: while control is on and the connection is up, a key other
      than F12 that classifies to an event has that event sent, and control
      stays on over an open connection. */
  lemma KeyIsForwardedWhileEnabled(s: ControlState, input: Input)
    requires s.enabled && s.connected && input.outcome == Sent && input.key != F12
    requires Classify(input.key, input.Press?).Some?
    ensures Step(s, input).sent == s.sent + [Classify(input.key, input.Press?).value]
    ensures Step(s, input).enabled && Step(s, input).connected
  {
  }

  /** The events a run of callbacks hands to send_event, in order: every
      classified key except F12. */
  function Forwarded(inputs: seq<Input>): (events: seq<KeyEvent>)
    ensures |events| <= |inputs|
    ensures forall i :: 0 <= i < |events| ==> OnWire(events[i])
  {
    if inputs == [] then []
    else
      var ev := if inputs[0].key == F12 then None else Classify(inputs[0].key, inputs[0].Press?);
      if ev.Some? then
        ClassifiedIsForwardable(inputs[0].key, inputs[0].Press?);
        [ev.value] + Forwarded(inputs[1..])
      else
        Forwarded(inputs[1..])
  }

  /** Every send in the inputs succeeds. */
  predicate AllSent(inputs: seq<Input>) {
    forall i :: 0 <= i < |inputs| ==> inputs[i].outcome == Sent
  }

  /** While control is on, the connection holds and F12 is not pressed, every
      key the classifier accepts is sent, in the order of the callbacks, and
      nothing else is. */
  lemma {:induction false} RunForwardsEveryKey(s: ControlState, inputs: seq<Input>)
    requires s.enabled && s.connected && Toggles(inputs) == 0 && AllSent(inputs)
    ensures Run(s, inputs).sent == s.sent + Forwarded(inputs)
    ensures Run(s, inputs).enabled && Run(s, inputs).connected
    decreases |inputs|
  {
    if inputs == [] {
      assert s.sent + [] == s.sent;
    } else {
      var t := Step(s, inputs[0]);
      var rest := inputs[1..];
      assert AllSent(rest) by {
        forall i | 0 <= i < |rest|
          ensures rest[i].outcome == Sent
        {
          assert rest[i] == inputs[i + 1];
        }
      }
      assert inputs[0].outcome == Sent;
      RunForwardsEveryKey(t, rest);
      var ev := if inputs[0].key == F12 then None else Classify(inputs[0].key, inputs[0].Press?);
      if ev.Some? {
        KeyIsForwardedWhileEnabled(s, inputs[0]);
        assert Forwarded(inputs) == [ev.value] + Forwarded(rest);
        AppendAssoc(s.sent, [ev.value], Forwarded(rest));
      } else {
        assert t == s;
      }
    }
  }

  lemma AppendAssoc<T>(x: seq<T>, y: seq<T>, z: seq<T>)
    ensures (x + y) + z == x + (y + z)
  {
  }

  /** The controller's module-level state, as an object. */
  class Controller {
    var enabled: bool
    var suppress: bool
    var connected: bool
    var sent: seq<KeyEvent>

    function State(): ControlState
      reads this
    {
      ControlState(enabled, suppress, connected, sent)
    }

    /** The globals' initial values and start_server's first listener,
        started without suppression. */
    constructor()
      ensures State() == Initial
    {
      enabled := false;
      connected := false;
      sent := [];
      suppress := false;
    }

    /** start_server's successful connect: client_socket is set. */
    method Connect()
      modifies this
      ensures State() == old(State()).(connected := true)
    {
      connected := true;
    }

    /** start_keyboard_listener: the old listener is replaced by one with
        the given suppression. */
    method StartListener(suppress: bool)
      modifies this`suppress
      ensures this.suppress == suppress
    {
      this.suppress := suppress;
    }

    method Toggle()
      modifies this
      ensures State() == Toggled(old(State()))
    {
      enabled := !enabled;
      StartListener(enabled);
    }

    method SendEvent(ev: KeyEvent, outcome: SendResult)
      modifies this
      ensures State() == AfterSend(old(State()), ev, outcome)
    {
      if enabled && connected {
        match outcome
        case Sent =>
          sent := sent + [ev];
        case ConnectionLost =>
          connected := false;
        case OtherError =>
      }
    }

    method OnKeyEvent(key: Key, isPress: bool, outcome: SendResult)
      modifies this
      ensures State() == AfterKey(old(State()), key, isPress, outcome)
    {
      var ev := Classify(key, isPress);
      if ev.Some? {
        SendEvent(ev.value, outcome);
      }
    }

    method OnPress(key: Key, outcome: SendResult)
      modifies this
      ensures State() == AfterPress(old(State()), key, outcome)
    {
      if key == F12 {
        Toggle();
        return;
      }
      OnKeyEvent(key, true, outcome);
    }

    method OnRelease(key: Key, outcome: SendResult)
      modifies this
      ensures State() == AfterRelease(old(State()), key, outcome)
    {
      if key == F12 {
        return;
      }
      OnKeyEvent(key, false, outcome);
    }
  }
}
