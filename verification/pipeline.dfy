/**
 * The two ends together: an event the controller classifies and sends is
 * decoded by the target, looked up in the key table and written to the
 * virtual keyboard. json.dumps and json.loads are not part of this model;
 * the lemmas here assume of them only that a dumped event is one '{'...'}'
 * text holding no other '}' and that loading it gives back the event's
 * dictionary.
 */
module Pipeline {
  import opened Wrappers
  import opened PyValue
  import opened Translator
  import opened Framing
  import opened Client
  import opened Capture

  /** The device operations the target performs for one event. */
  function Typed(ev: KeyEvent): (ops: seq<DeviceOp>)
    ensures |ops| == 0 || |ops| == 2
  {
    Translate(ToWire(ev))
  }

  /** What one event does on the target: a write of the key the value names,
      1 for a press and 0 for a release, then a sync; nothing when the value
      names no key. */
  lemma EventReachesDevice(ev: KeyEvent)
    ensures KeyFor(WireValue(ev.id)).None? ==> Typed(ev) == []
    ensures KeyFor(WireValue(ev.id)).Some? ==>
      Typed(ev) == [Write(KeyFor(WireValue(ev.id)).value, if ev.press then 1 else 0), Sync]
  {
    assert Get(ToWire(ev), "value") == WireValue(ev.id);
  }

  /** A symbolic key the table knows is typed as its own code; AltGr is
      typed as the right Alt key. */
  lemma SymbolicKeyIsTyped(name: string, isPress: bool)
    requires PynputToEvdev(TargetName(name)).Some?
    ensures Typed(Classify(Special(name), isPress).value)
         == [Write(PynputToEvdev(TargetName(name)).value, if isPress then 1 else 0), Sync]
  {
    EveryKeyResolves(TargetName(name));
    EventReachesDevice(Classify(Special(name), isPress).value);
  }

  lemma AltGrIsRightAlt(isPress: bool)
    ensures Typed(Classify(Special("alt_gr"), isPress).value) == [Write(KeyRightAlt, if isPress then 1 else 0), Sync]
  {
    SymbolicKeyIsTyped("alt_gr", isPress);
  }

  /** A lower-case key name the table does not know is sent, and typed as
      nothing. */
  lemma UnknownNameIsNotTyped(name: string, isPress: bool)
    requires forall c :: c in name ==> !('A' <= c <= 'Z')
    requires PynputToEvdev(name).None?
    ensures Classify(Special(name), isPress).Some?
    ensures Typed(Classify(Special(name), isPress).value) == []
  {
    assert name != "alt_gr";
    assert forall i :: 0 <= i < |name| ==> name[i] in name;
    LowerOfLower(name);
    EventReachesDevice(Classify(Special(name), isPress).value);
  }

  lemma NonexistentNameIsNotTyped(isPress: bool)
    ensures Classify(Special("doesnotexist"), isPress).Some?
    ensures Typed(Classify(Special("doesnotexist"), isPress).value) == []
  {
    var name := "doesnotexist";
    assert forall c :: c in name ==> 'a' <= c <= 'z';
    UnknownNameIsNotTyped(name, isPress);
  }

  /** The keypad's 5 (vk 101) types the same key as the main keyboard's 5. */
  lemma KeypadFiveTypesFive(character: Option<string>, isPress: bool)
    ensures Typed(Classify(KeyCode(Vk(101), character), isPress).value) == [Write(Key5, if isPress then 1 else 0), Sync]
  {
    var ev := KeyEvent(isPress, Char("5"));
    assert Classify(KeyCode(Vk(101), character), isPress) == Some(ev) by {
      assert NumpadChar(101) == Some("5");
    }
    assert KeyFor(Str("5")) == Some(Key5) by {
      EveryKeyResolves("5");
    }
    EventReachesDevice(ev);
  }

  /** A virtual key code 0..9 that reaches the target is typed as the digit
      key of the same number, because the lookup only sees str(value). */
  lemma SmallVirtualCodeIsTypedAsDigit(d: nat, isPress: bool)
    requires d < 10
    ensures Typed(KeyEvent(isPress, VirtualCode(Some(d)))) == Typed(KeyEvent(isPress, Char([DigitChar(d)])))
    ensures Typed(KeyEvent(isPress, VirtualCode(Some(d)))) != []
  {
    IntegerDigitsResolveAsCharacters(d);
    EventReachesDevice(KeyEvent(isPress, VirtualCode(Some(d))));
    EventReachesDevice(KeyEvent(isPress, Char([DigitChar(d)])));
  }

  /** An upper-case letter is typed as the key of its lower-case letter. */
  lemma CaseIsIgnored(text: string, isPress: bool)
    ensures Typed(KeyEvent(isPress, Char(text))) == Typed(KeyEvent(isPress, Char(Lower(text))))
  {
    LookupIgnoresCase(text);
    EventReachesDevice(KeyEvent(isPress, Char(text)));
    EventReachesDevice(KeyEvent(isPress, Char(Lower(text))));
  }

  /** The device operations for a run of events, in order. */
  function TypedAll(events: seq<KeyEvent>): (ops: seq<DeviceOp>)
    ensures Alternating(ops)
  {
    if events == [] then []
    else
      var init := TypedAll(events[..|events| - 1]);
      var last := Typed(events[|events| - 1]);
      assert Alternating(last) by {
        assert last == [] || last[2..] == [];
      }
      AlternatingAppend(init, last);
      init + last
  }

  /** The texts the controller writes to the socket for a run of events:
      each dumped event, back to back. */
  function Bodies(dump: KeyEvent -> string, events: seq<KeyEvent>): (bodies: seq<string>)
    ensures |bodies| == |events|
    ensures forall i :: 0 <= i < |events| ==> bodies[i] == dump(events[i])
  {
    seq(|events|, i requires 0 <= i < |events| => dump(events[i]))
  }

  /** What json.dumps and json.loads are assumed to do for the events sent. */
  predicate JsonRoundTrips(dump: KeyEvent -> string, decode: string -> Option<Object>, events: seq<KeyEvent>) {
    forall i :: 0 <= i < |events| ==> '}' !in dump(events[i]) && decode(Wrap(dump(events[i]))) == Some(ToWire(events[i]))
  }

  /** Delivery: the target, reading the controller's stream in one piece,
      types exactly the events sent, in order, and keeps nothing back. */
  lemma Delivery(dump: KeyEvent -> string, decode: string -> Option<Object>, events: seq<KeyEvent>)
    requires JsonRoundTrips(dump, decode, events)
    ensures Drain(Serialize(Bodies(dump, events))).rest == ""
    ensures Inject(decode, Drain(Serialize(Bodies(dump, events))).frames) == TypedAll(events)
  {
    var bodies := Bodies(dump, events);
    RoundTrip(bodies);
    InjectWrapped(dump, decode, events, Drain(Serialize(bodies)).frames);
  }

  lemma {:induction false} InjectWrapped(dump: KeyEvent -> string, decode: string -> Option<Object>,
                                         events: seq<KeyEvent>, frames: seq<string>)
    requires JsonRoundTrips(dump, decode, events)
    requires |frames| == |events|
    requires forall i :: 0 <= i < |events| ==> frames[i] == Wrap(dump(events[i]))
    ensures Inject(decode, frames) == TypedAll(events)
    decreases |events|
  {
    if events != [] {
      var n := |events| - 1;
      InjectWrapped(dump, decode, events[..n], frames[..n]);
      assert decode(frames[n]) == Some(ToWire(events[n]));
    }
  }

  /** However the stream is split into reads, a fresh session types exactly
      the events sent, in order, and ends with an empty buffer. */
  lemma DeliveryInAnyChunks(dump: KeyEvent -> string, decode: string -> Option<Object>,
                            events: seq<KeyEvent>, chunks: seq<string>)
    requires JsonRoundTrips(dump, decode, events)
    requires Concat(chunks) == Serialize(Bodies(dump, events))
    ensures FeedChunks("", chunks).rest == ""
    ensures Inject(decode, FeedChunks("", chunks).frames) == TypedAll(events)
  {
    ChunkIndependence("", chunks);
    assert "" + Concat(chunks) == Concat(chunks);
    Delivery(dump, decode, events);
  }
}
