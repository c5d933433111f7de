# Keyboard forwarder: a Dafny model

This project models the core of a two-program software KVM that forwards a
keyboard from one machine to another. There are two ends:

- **Controller** (`kvm_server.py`). A keyboard listener reports every key.
  The controller classifies each key into a small event dictionary and sends
  it as JSON over a TCP connection. The F12 hotkey switches forwarding on and
  off. While forwarding is on, local input is suppressed.
- **Target** (`kvm_client.py`). It reads the stream and reassembles `{...}`
  frames from an accumulating text buffer. It decodes each frame, looks the
  event's value up in a table of Linux evdev key codes, and writes a key
  state followed by a sync to a virtual keyboard.

## Modules

- `wrappers.dfy`: `Option`.
- `pyvalue.dfy` (`PyValue`): the values a decoded frame holds, `dict.get`, and
  Python's `str()` and ASCII `str.lower()` on them.
- `translator.dfy` (`Translator`): the key table `PYNPUT_TO_EVDEV` over
  abstract evdev codes, and the capability set declared for the virtual
  keyboard. It also has `KeyFor` (the lookup of `str(value).lower()`) and
  `Translate` (the device writes of `handle_event`).
- `framing.dfy` (`Framing`): the reassembler as pure functions.
  - `TryExtractFrame` is one pass of the inner loop.
  - `Drain` is the inner loop.
  - `FeedChunks` is the outer loop over received chunks.
  - Lemmas prove the round trip, chunk independence and the dropping of
    stale fragments.
- `client.dfy` (`Client`): the target's receive loop as a `Session` object.
  It holds the text buffer and the virtual keyboard's log of writes, and its
  methods are `HandleEvent`, `CutFrame`, `Feed` and `Receive`. Each method is
  proved against the functions of `Framing` and `Translator`.
- `capture.dfy` (`Capture`): `on_key_event`'s classification (`Classify`)
  and the dictionary it sends (`ToWire`).
- `control.dfy` (`Control`): the controller's globals. They appear both as
  pure transitions over `ControlState` and as a `Controller` object whose
  methods follow those transitions. Lemmas cover traces of listener
  callbacks.
- `pipeline.dfy` (`Pipeline`): the two ends together. An event that is
  classified, dumped, streamed in any chunking and decoded is typed as
  exactly the key it names, in order.

## Model

| member | source | states |
|---|---|---|
| PyValue.Get | kvm_client.py:89 | a missing field reads as None, a present one as its value |
| PyValue.Decimal | kvm_client.py:90 | `str()` of a natural number is a non-empty run of digits, one digit exactly when the number is below 10 |
| PyValue.PyStr | kvm_client.py:90 | `str()` of a string is the string itself; of 0..9 it is that one digit; of any other integer it is two or more characters starting with '-' or a digit |
| PyValue.LowerChar | kvm_client.py:90 | the result is never an upper-case letter, and any other character is unchanged |
| PyValue.Lower | kvm_client.py:90 | `str.lower()` keeps the length and lowers each character in place |
| PyValue.LowerOfLower | kvm_client.py:90 | a text with no upper-case letter is its own lower-case form |
| PyValue.LowerIdempotent | kvm_client.py:90 | lowering twice is lowering once |
| Translator.PynputToEvdev | kvm_client.py:17-85 | the table: a one-character key is looked up among the characters, any longer one among the symbolic names |
| Translator.SpecialKeys | kvm_client.py:18-63 | the symbolic key names and their codes |
| Translator.FunctionKeys | kvm_client.py:36-40 | f1..f20 and their codes |
| Translator.LaterSpecialKeys | kvm_client.py:41-63 | the symbolic names listed after the function keys and their codes |
| Translator.CharacterKeys | kvm_client.py:65-84 | the main-keyboard and keypad characters and their codes |
| Translator.Capabilities | kvm_client.py:108-110 | every value of the table is a declared capability, and every declared capability is the value of some table key |
| Translator.LongKeysAreNames | kvm_client.py:17-85 | every table key longer than one character starts with a lower-case letter |
| Translator.SpecialKeysAreLowerCase | kvm_client.py:18-63 | the symbolic names of the table hold no upper-case letter |
| Translator.LaterSpecialKeysAreLowerCase | kvm_client.py:41-63 | the names listed after the function keys hold no upper-case letter |
| Translator.FunctionKeysAreLowerCase | kvm_client.py:36-40 | the names f1..f20 hold no upper-case letter |
| Translator.CharacterKeysAreNotUpperCase | kvm_client.py:65-84 | no one-character key is an upper-case letter |
| Translator.TableKeysAreLowerCase | kvm_client.py:17-85 | every key of the table is its own lower-case form |
| Translator.KeyFor | kvm_client.py:108-110 | a code found for a value is always among the declared capabilities (the table's values) |
| Translator.EveryKeyResolves | kvm_client.py:89-90 | every table entry is reached by sending its key as a string value |
| Translator.LookupIgnoresCase | kvm_client.py:90 | a string value resolves exactly as its lower-case form does |
| Translator.IntegerDigitsResolveAsCharacters | kvm_client.py:89-90 | an integer value 0..9 resolves to a key, the same key as the digit character; key_type is never consulted |
| Translator.OtherIntegersResolveToNothing | kvm_client.py:89-94 | any other integer value has no table entry |
| Translator.NullResolvesToNothing | kvm_client.py:89-94 | a missing or null value (`str` gives "None") has no table entry |
| Translator.BooleansResolveToNothing | kvm_client.py:89-94 | a boolean value ("True"/"False") has no table entry |
| Translator.TrueResolvesToNothing | kvm_client.py:89-94 | "True" has no table entry |
| Translator.FalseResolvesToNothing | kvm_client.py:89-94 | "False" has no table entry |
| Translator.StateFor | kvm_client.py:96 | the state is 0 or 1, and 1 exactly when type is "press" (release, other texts or a missing type give 0) |
| Translator.Translate | kvm_client.py:87-101 | no operation at all iff the value has no entry; otherwise exactly one write of the looked-up code, which is a declared capability, with state 1 iff type is "press", then one sync |
| Translator.TranslateSeesOnlyValueAndType | kvm_client.py:89-96 | two events whose values agree after `str().lower()` and whose types agree on being "press" cause the same writes |
| Framing.FindFrom | kvm_client.py:131-132 | the scan returns the first index at or after i holding the character, or -1 when there is none |
| Framing.Find | kvm_client.py:131-132 | `str.find`: the first index of the character, or -1 when it does not occur |
| Framing.FindIsFirst | kvm_client.py:131-132 | the first occurrence of the character is the index Find returns |
| Framing.HasBraces | kvm_client.py:130 | the inner loop's condition: the buffer holds a '{' and a '}' |
| Framing.TryExtractFrame | kvm_client.py:130-138 | a step happens exactly when the buffer holds both braces, and every step strictly shortens the buffer (termination) |
| Framing.StaleDropsPrefix | kvm_client.py:133-135 | in the stale case only text before the first '{' is dropped, and that text holds a '}'; what is kept starts with '{' |
| Framing.FrameIsCut | kvm_client.py:131-138 | in the frame case the buffer is brace-free text, then the frame, then the rest; the frame has the frame shape |
| Framing.CutAt | kvm_client.py:137-138 | the cut at the first '{' and the first '}' splits the buffer into prefix, frame and rest, and the frame has the frame shape |
| Framing.CutIsFrame | kvm_client.py:137 | a frame cut out starts with '{', ends with '}' and holds no other '}' |
| Framing.Drain | kvm_client.py:130-145 | on exit from the inner loop the buffer does not hold both braces |
| Framing.DrainedFrameShape | kvm_client.py:130-138 | every frame the inner loop cuts starts with '{', ends with '}' and holds no other '}' |
| Framing.DrainLeavesSuffix | kvm_client.py:130-138 | the inner loop only ever removes a prefix of the buffer |
| Framing.StepLeavesSuffix | kvm_client.py:133-138 | one pass removes only a prefix of the buffer |
| Framing.DrainRest | kvm_client.py:130-138 | what the loop leaves is what it leaves after its first pass |
| Framing.SuffixOfSuffix | kvm_client.py:133-138 | dropping a prefix twice drops a prefix |
| Framing.Concat | kvm_client.py:128 | no chunks join to the empty text |
| Framing.FeedChunks | kvm_client.py:123-145 | with no chunks nothing is cut; after at least one chunk the buffer does not hold both braces |
| Framing.StepAt | kvm_client.py:131-138 | with the first '{' at start and the first '}' at end, the pass is a stale drop to start when start > end, and otherwise the frame from start to end |
| Framing.StepOfExtension | kvm_client.py:128-138 | text arriving after a buffer that already holds both braces does not change the pass, only what is kept |
| Framing.ExtendedStepAt | kvm_client.py:128-138 | the same, for given positions of the first braces |
| Framing.Extend | kvm_client.py:128-145 | draining on after more text arrives keeps the frames already cut as a prefix |
| Framing.DrainAppend | kvm_client.py:128-145 | draining a + c gives the frames of draining a, then those of draining what a left followed by c |
| Framing.DrainFrame | kvm_client.py:137-145 | the same, in the case where the first pass cuts a frame |
| Framing.DrainOfFrame | kvm_client.py:137-145 | after a frame is cut, the loop goes on with the rest and the frame comes first |
| Framing.DrainOfStale | kvm_client.py:133-135 | after a stale drop, the loop goes on with what is kept, and nothing else is cut |
| Framing.SameStepSameDrain | kvm_client.py:130-145 | two buffers with the same first pass drain alike |
| Framing.ChunkIndependence | kvm_client.py:122-145 | feeding chunks one read at a time cuts the same frames and leaves the same buffer as draining them all joined |
| Framing.SplitIndependence | kvm_client.py:122-145 | two splittings of the same stream cut the same frames and leave the same buffer |
| Framing.Wrap | kvm_server.py:22-23 | a body with no '}' sent between braces has the frame shape |
| Framing.Serialize | kvm_server.py:22-23 | the bodies sent one after another, each between braces, with no separator |
| Framing.FrameAtHead | kvm_client.py:130-138 | a wrapped body at the head of the buffer is exactly the next frame, and the rest is what follows it |
| Framing.RoundTrip | kvm_client.py:122-138 | bodies with no '}', wrapped and sent back to back, are cut into exactly those frames, in order, and nothing is left |
| Framing.GarbageIsDropped | kvm_client.py:130-138 | garbage with no '{' before a frame start (a stale fragment, or text before the first frame) is dropped: the frames cut are those of the text from the '{' on |
| Framing.StaleGarbage | kvm_client.py:133-135 | garbage holding a '}' is dropped by a stale step |
| Framing.CleanGarbage | kvm_client.py:137-138 | brace-free garbage is cut off with the first frame |
| Framing.ShiftedFrameStep | kvm_client.py:131-138 | brace-free garbage does not change the frame cut, only the position it is cut from |
| Client.InjectOne | kvm_client.py:140-145 | a frame that does not decode writes nothing; one that does writes at most one key write and its sync |
| Client.Inject | kvm_client.py:130-145 | the device log for a run of frames is key writes each followed by a sync, two operations per frame at most |
| Client.AlternatingAppend | kvm_client.py:98-99 | two logs of write-then-sync pairs joined are one |
| Client.InjectSnoc | kvm_client.py:140-145 | one more frame appends what that frame causes |
| Client.InjectAppend | kvm_client.py:130-145 | handling frames in two runs writes the same as handling them in one |
| Client.UndecodableFrameIsSkipped | kvm_client.py:140-145 | a frame that fails to decode leaves the device untouched wherever it occurs, and scanning continues |
| Client.UntilClosed | kvm_client.py:123-127 | the reads consumed are the ones before the first empty read; none of them is empty |
| Client.ReadsUntilClosed | kvm_client.py:124-127 | the loop's test on each read agrees with UntilClosed |
| Client.FeedChunksSnoc | kvm_client.py:123-145 | one more read extends the outer loop by one drain |
| Client.DrainPastFrame | kvm_client.py:137-145 | the inner loop's invariant holds across a frame cut |
| Client.DrainedTo | kvm_client.py:130 | at the inner loop's exit, the frames cut are all the frames the drain cuts |
| Client.LogSnoc | kvm_client.py:140-145 | the device log grows by what the one new frame causes |
| Client.Session.constructor | kvm_client.py:122 | a new connection starts with an empty buffer and an empty device log |
| Client.Session.HandleEvent | kvm_client.py:87-101 | the device log grows by exactly the writes `Translate` gives for the event; no other field changes |
| Client.Session.CutFrame | kvm_client.py:131-145 | one pass: a stale fragment is dropped, or the first frame is cut out and its writes (none if it does not decode) are appended |
| Client.Session.Feed | kvm_client.py:128-145 | after a read, the buffer is what `Drain` leaves of the old buffer plus the chunk, it holds no pair of braces, the frames cut are those `Drain` cuts, and the device log grows by exactly their writes |
| Client.Session.Receive | kvm_client.py:122-145 | reading until the connection closes leaves the buffer, frames and log that `FeedChunks` gives for the reads consumed |
| Capture.NumpadChar | kvm_server.py:33-37 | a code maps to a character exactly when it is 96..105 (the digit code - 96) or 110 (".") |
| Capture.TargetName | kvm_server.py:45-48 | alt_gr becomes alt_r, every other name is unchanged, and alt_gr itself is never sent |
| Capture.Classify | kvm_server.py:39-72 | the event type is press iff is_press. In order of priority: a symbolic key gives its (renamed) name; vk 12 gives nothing; a keypad vk gives its character whatever key.char is; a truthy char gives that char; a present vk gives its code (or null); otherwise nothing |
| Capture.Printable | kvm_server.py:59 | Python truthiness of `key.char`: present and not empty |
| Capture.WireValue | kvm_server.py:49-65 | the value field is the name for name events, the character for char events, `Int(code)` for a vk event with a code, and null exactly for a vk event whose vk is None |
| Capture.KeyType | kvm_server.py:49-65 | the key_type field: "name", "char" or "vk" |
| Capture.ToWire | kvm_server.py:41-65 | type is "press" iff the event is a press and "release" otherwise; key_type is "name", "char" or "vk" exactly for name, char and vk events; value is the event's `WireValue`; and the dictionary has exactly these three fields |
| Capture.NumpadDigitIsItsCharacter | kvm_server.py:56-61 | keypad digit d (vk 96 + d) gives the same event as the main keyboard's digit d |
| Capture.PressAndReleaseAgree | kvm_server.py:39-72 | press and release of one key are both sent or both dropped, with the same identifier |
| Capture.ClassifiedIsForwardable | kvm_server.py:44-67 | no event names alt_gr or carries vk 12 or a keypad code as a virtual key code |
| Control.AfterSend | kvm_server.py:17-30 | enabled and suppress never change. An event is added iff control is enabled, a socket is present and the send succeeds. A lost connection clears the socket only when a send was attempted. Another error changes nothing |
| Control.Toggled | kvm_server.py:97-103 | control flips, the listener is re-armed with suppress equal to the new flag, and the socket and sent events are untouched |
| Control.AfterKey | kvm_server.py:69-72 | a key that classifies to nothing changes nothing; otherwise its event is sent |
| Control.AfterPress | kvm_server.py:74-78 | an F12 press is exactly one toggle; any other press goes to classification and is sent as `AfterKey` says, leaving the flags alone |
| Control.AfterRelease | kvm_server.py:80-83 | an F12 release changes nothing; any other release goes to classification and is sent as `AfterKey` says; no release touches the flags |
| Control.Step | kvm_server.py:74-83 | one listener callback: an F12 press toggles, an F12 release does nothing, any other key goes to classification with the callback's press flag |
| Control.Run | kvm_server.py:74-83 | the callbacks in order: sent events only grow, and a socket that is gone never comes back |
| Control.Toggles | kvm_server.py:74-76 | there are no more F12 presses than inputs |
| Control.ToggleTwice | kvm_server.py:97-103 | two toggles restore the starting state |
| Control.RunKeepsConsistent | kvm_server.py:74-103 | suppress equals enabled after every sequence of callbacks that starts with them equal |
| Control.EnabledIsToggleParity | kvm_server.py:74-103 | control is on exactly when the starting flag differs from the parity of F12 presses |
| Control.LostConnectionIsFinal | kvm_server.py:17-30 | without a socket nothing is ever sent again and the socket never comes back |
| Control.NothingLeaksWhileDisabled | kvm_server.py:17-83 | while control is off and F12 is not pressed, no callback changes anything |
| Control.StepSendsOnlyOnWire | kvm_server.py:17-83 | one callback adds at most one event, and that event is not F12 and is forwardable |
| Control.RunSendsOnlyOnWire | kvm_server.py:17-83 | sent events only grow, and every one added is neither F12 nor filtered out by the classifier |
| Control.KeyIsForwardedWhileEnabled | kvm_server.py:17-30 | while control is on and the socket is up, a successful send of a classified non-F12 key appends exactly its event, and control stays on over an open connection |
| Control.Forwarded | kvm_server.py:69-83 | the events the callbacks hand to send_event, in order: at most one per callback, each of them allowed on the wire |
| Control.AllSent | kvm_server.py:23 | every send in the trace succeeds |
| Control.RunForwardsEveryKey | kvm_server.py:17-83 | while control is on, the socket holds and F12 is not pressed, the events sent are exactly the classified keys, in callback order |
| Control.Controller.constructor | kvm_server.py:10-13 | control off, listener started without suppression, no socket, nothing sent |
| Control.Controller.Connect | kvm_server.py:116-118 | a successful connect sets the socket and changes nothing else |
| Control.Controller.StartListener | kvm_server.py:87-95 | the listener is re-armed with the requested suppression |
| Control.Controller.Toggle | kvm_server.py:97-103 | the state becomes `Toggled` of the old state |
| Control.Controller.SendEvent | kvm_server.py:17-30 | the state becomes `AfterSend` of the old state, event and outcome |
| Control.Controller.OnKeyEvent | kvm_server.py:39-72 | the state becomes `AfterKey` of the old state |
| Control.Controller.OnPress | kvm_server.py:74-78 | the state becomes `AfterPress` of the old state |
| Control.Controller.OnRelease | kvm_server.py:80-83 | the state becomes `AfterRelease` of the old state |
| Pipeline.EventReachesDevice | kvm_client.py:87-101 | a sent event causes one write of the key its value names (1 for press, 0 for release) and a sync, or nothing when there is no key |
| Pipeline.Typed | kvm_client.py:87-101 | what the target writes for one sent event: nothing, or one write and its sync |
| Pipeline.SymbolicKeyIsTyped | kvm_server.py:44-49 | a symbolic key the table knows is typed as its own code |
| Pipeline.AltGrIsRightAlt | kvm_server.py:47-48 | AltGr is typed as the right Alt key |
| Pipeline.UnknownNameIsNotTyped | kvm_client.py:90-94 | a lower-case key name the table does not know is sent, and typed as nothing |
| Pipeline.NonexistentNameIsNotTyped | kvm_client.py:90-94 | the name "doesnotexist" is sent and typed as nothing |
| Pipeline.KeypadFiveTypesFive | kvm_server.py:56-58 | the keypad's 5 (vk 101) types the main keyboard's 5 key |
| Pipeline.SmallVirtualCodeIsTypedAsDigit | kvm_server.py:64-65 | a vk event with code 0..9 is typed as the digit key of that number |
| Pipeline.CaseIsIgnored | kvm_client.py:90 | a character is typed as its lower-case form |
| Pipeline.TypedAll | kvm_client.py:98-99 | the writes for a run of events are key writes each followed by a sync |
| Pipeline.JsonRoundTrips | kvm_server.py:22-23 | the assumption about json.dumps and json.loads: each dumped event has no '}' and decodes back to its dictionary |
| Pipeline.Delivery | kvm_client.py:122-145 | the events sent, streamed in one piece, are typed exactly and in order, and nothing is left in the buffer |
| Pipeline.InjectWrapped | kvm_client.py:137-142 | frames that decode to the events sent cause exactly those events' writes |
| Pipeline.DeliveryInAnyChunks | kvm_client.py:122-145 | however the stream is split into reads, a fresh connection types exactly the events sent, in order, and ends with an empty buffer |

## Left out

- Sockets are not modelled: creation, bind, listen, accept, connect, keep-alive and the sleep-polling main loop. A connection is the `connected` flag, and the received data is a sequence of chunks.
- The UTF-8 `.decode()` of each read is left out. Chunks are already-decoded text, so a multi-byte character split across reads is not modelled.
- The 4096-byte read size is left out, because chunks have any length.
- `json.loads` and `json.dumps` are not part of this model.
  - Decoding is a partial function from frame text to a dictionary, given to a session.
  - `Pipeline.Delivery` and `Pipeline.DeliveryInAnyChunks` assume (`Pipeline.JsonRoundTrips`) that a dumped event is `{` + body + `}` with no other '}'.
  - A character event whose value is '}' breaks that assumption: its frame is cut short and fails to decode. '}' has no table entry, so it would type nothing in any case.
- `UInput` device creation is left out, and so are the numeric values of the evdev key codes. The codes are abstract constants, and the device is a log of writes and syncs.
- Errors raised by the device's `write`/`syn` are left out: the `try`/`except` around them only prints.
- Threads, `control_lock` and `time.sleep` are left out. A toggle and its listener re-arm are one atomic step.
- Stopping the old listener is left out. `Control.Controller.StartListener` models only the new listener's suppression.
- A send that fails with a lost connection may already have written part of its payload. That partial send is left out.
- The socket `close` calls are left out.
- Printing, `check_permissions`, the command-line arguments, the mouse listener and the `finally` clean-up are left out.
- Python's `str.lower` is modelled for ASCII letters only. Non-ASCII letters are kept unchanged.
- `str()` of floats, lists and nested objects is left out. Such values are carried as their text (`PyValue.Other`).
- Pipeline.UnknownNameIsNotTyped: stated only for names with no upper-case letter. An upper-case name is looked up by its lower-case form (`Translator.LookupIgnoresCase`).
