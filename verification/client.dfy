/**
 * The target's receive loop: every chunk read from the connection is appended
 * to a text buffer, complete frames are cut from the buffer, each frame is
 * decoded and its key event written to the virtual keyboard. Decoding is
 * json.loads, which is not part of this model: a session is given it as a
 * partial function from frame text to a decoded object.
 */
module Client {
  import opened Wrappers
  import opened PyValue
  import opened Translator
  import opened Framing

  /** The device operations caused by one frame: a frame that does not decode
      is skipped, a decoded one is handled as a key event. */
  function InjectOne(decode: string -> Option<Object>, frame: string): (ops: seq<DeviceOp>)
    ensures decode(frame).None? ==> ops == []
    ensures Alternating(ops) && |ops| <= 2
  {
    match decode(frame)
    case None => []
    case Some(event) => Translate(event)
  }

  /** The device operations caused by a sequence of frames, in order. */
  function Inject(decode: string -> Option<Object>, frames: seq<string>): (ops: seq<DeviceOp>)
    ensures Alternating(ops)
    ensures |ops| <= 2 * |frames|
  {
    if frames == [] then []
    else
      var init := Inject(decode, frames[..|frames| - 1]);
      var last := InjectOne(decode, frames[|frames| - 1]);
      AlternatingAppend(init, last);
      init + last
  }

  /** The device log is a succession of key writes, each followed by its sync. */
  predicate Alternating(ops: seq<DeviceOp>) {
    ops == [] || (|ops| >= 2 && ops[0].Write? && ops[1] == Sync && Alternating(ops[2..]))
  }

  lemma {:induction false} AlternatingAppend(a: seq<DeviceOp>, b: seq<DeviceOp>)
    requires Alternating(a) && Alternating(b)
    ensures Alternating(a + b)
    decreases |a|
  {
    if a != [] {
      AlternatingAppend(a[2..], b);
      assert (a + b)[2..] == a[2..] + b;
    } else {
      assert a + b == b;
    }
  }

  /** Handling one more frame appends what that frame causes. */
  lemma InjectSnoc(decode: string -> Option<Object>, frames: seq<string>, frame: string)
    ensures Inject(decode, frames + [frame]) == Inject(decode, frames) + InjectOne(decode, frame)
  {
    assert (frames + [frame])[..|frames|] == frames;
  }

  /** Handling frames in two runs writes what handling them in one run does. */
  lemma {:induction false} InjectAppend(decode: string -> Option<Object>, a: seq<string>, b: seq<string>)
    ensures Inject(decode, a + b) == Inject(decode, a) + Inject(decode, b)
    decreases |b|
  {
    if b == [] {
      assert a + b == a;
      assert Inject(decode, a) + [] == Inject(decode, a);
    } else {
      var init, last := b[..|b| - 1], b[|b| - 1];
      assert a + b == (a + init) + [last] by {
        assert b == init + [last];
        AppendAssoc(a, init, [last]);
      }
      InjectSnoc(decode, a + init, last);
      InjectSnoc(decode, init, last);
      InjectAppend(decode, a, init);
      AppendAssoc(Inject(decode, a), Inject(decode, init), InjectOne(decode, last));
    }
  }

  /** A frame that does not decode leaves the device untouched, wherever it
      occurs in the stream. */
  lemma UndecodableFrameIsSkipped(decode: string -> Option<Object>, a: seq<string>, frame: string, b: seq<string>)
    requires decode(frame).None?
    ensures Inject(decode, a + [frame] + b) == Inject(decode, a + b)
  {
    InjectAppend(decode, a + [frame], b);
    InjectSnoc(decode, a, frame);
    assert Inject(decode, a) + [] == Inject(decode, a);
    InjectAppend(decode, a, b);
  }

  /** The chunks the loop consumes: those before the first empty read, which
      means the controller closed the connection. */
  function UntilClosed(chunks: seq<string>): (taken: seq<string>)
    ensures taken <= chunks
    ensures forall i :: 0 <= i < |taken| ==> taken[i] != ""
    ensures |taken| < |chunks| ==> chunks[|taken|] == ""
  {
    if chunks == [] || chunks[0] == "" then [] else [chunks[0]] + UntilClosed(chunks[1..])
  }

  /** The inner loop's invariant across a frame: the frame joins the
      frames cut so far. */
  lemma DrainPastFrame(whole: string, cut: seq<string>, buffer: string)
    requires TryExtractFrame(buffer).Frame?
    requires Drain(whole) == Drained(cut + Drain(buffer).frames, Drain(buffer).rest)
    ensures var Frame(frame, rest) := TryExtractFrame(buffer);
      Drain(whole) == Drained((cut + [frame]) + Drain(rest).frames, Drain(rest).rest)
  {
    var Frame(frame, rest) := TryExtractFrame(buffer);
    DrainOfFrame(buffer);
    AppendAssoc(cut, [frame], Drain(rest).frames);
  }

  /** The inner loop's exit: what has been cut is everything Drain cuts. */
  lemma DrainedTo(whole: string, cut: seq<string>, buffer: string)
    requires !HasBraces(buffer)
    requires Drain(whole) == Drained(cut + Drain(buffer).frames, Drain(buffer).rest)
    ensures Drain(whole) == Drained(cut, buffer)
  {
    assert Drain(buffer) == Drained([], buffer);
    assert cut + [] == cut;
  }

  lemma LogSnoc(log: seq<DeviceOp>, decode: string -> Option<Object>, frames: seq<string>, frame: string)
    ensures log + Inject(decode, frames + [frame]) == (log + Inject(decode, frames)) + InjectOne(decode, frame)
  {
    InjectSnoc(decode, frames, frame);
    AppendAssoc(log, Inject(decode, frames), InjectOne(decode, frame));
  }

  /** One accepted connection: the receive buffer and the virtual keyboard's
      log of operations. */
  class Session {
    const decode: string -> Option<Object>
    var buffer: string
    var device: seq<DeviceOp>
    /** Every frame cut from the buffer so far, whether it decoded or not. */
    ghost var frames: seq<string>

    /** The device log is exactly what the frames cut so far cause. */
    ghost predicate Valid()
      reads this
    {
      device == Inject(decode, frames)
    }

    constructor(decode: string -> Option<Object>)
      ensures this.decode == decode
      ensures buffer == "" && device == [] && frames == []
      ensures Valid()
    {
      this.decode := decode;
      buffer := "";
      device := [];
      frames := [];
    }

    /** handle_event: a write of the looked-up code with the press state,
        then a sync; nothing when the value has no key. */
    method HandleEvent(event: Object)
      modifies this`device
      ensures device == old(device) + Translate(event)
    {
      var key := KeyFor(Get(event, "value"));
      if key.None? {
        return;
      }
      var state := StateFor(Get(event, "type"));
      device := device + [Write(key.value, state)];
      device := device + [Sync];
    }

    /** One pass of the inner loop on a buffer holding both braces: a stale
        fragment is dropped up to the first '{', or the first frame is cut
        out, decoded and, when it decodes, handled. */
    method CutFrame()
      requires HasBraces(buffer)
      modifies this
      ensures match TryExtractFrame(old(buffer))
        case Stale(rest) => buffer == rest && frames == old(frames) && device == old(device)
        case Frame(frame, rest) =>
          && buffer == rest && frames == old(frames) + [frame]
          && device == old(device) + InjectOne(decode, frame)
        case Incomplete => false
    {
      var startIndex := Find(buffer, '{');
      var endIndex := Find(buffer, '}');
      StepAt(buffer, startIndex, endIndex);
      if startIndex > endIndex {
        buffer := buffer[startIndex..];
        return;
      }
      var text := buffer[startIndex..endIndex + 1];
      buffer := buffer[endIndex + 1..];
      frames := frames + [text];
      var event := decode(text);
      if event.Some? {
        HandleEvent(event.value);
      } else {
        assert device + [] == device;
      }
    }

    /** One read of the outer loop: the chunk is appended and the inner loop
        cuts frames until the buffer no longer holds both braces. */
    method Feed(chunk: string)
      modifies this
      ensures buffer == Drain(old(buffer) + chunk).rest
      ensures !HasBraces(buffer)
      ensures frames == old(frames) + Drain(old(buffer) + chunk).frames
      ensures device == old(device) + Inject(decode, Drain(old(buffer) + chunk).frames)
      ensures old(Valid()) ==> Valid()
    {
      buffer := buffer + chunk;
      ghost var whole := buffer;
      ghost var cut: seq<string> := [];
      while '{' in buffer && '}' in buffer
        invariant Drain(whole) == Drained(cut + Drain(buffer).frames, Drain(buffer).rest)
        invariant frames == old(frames) + cut
        invariant device == old(device) + Inject(decode, cut)
        decreases |buffer|
      {
        ghost var before := buffer;
        CutFrame();
        match TryExtractFrame(before)
        case Stale(rest) =>
          DrainOfStale(before);
        case Frame(frame, rest) =>
          DrainPastFrame(whole, cut, before);
          LogSnoc(old(device), decode, cut, frame);
          AppendAssoc(old(frames), cut, [frame]);
          cut := cut + [frame];
      }
      DrainedTo(whole, cut, buffer);
      InjectAppend(decode, old(frames), cut);
    }

    /** The outer loop: read until the controller closes the connection. */
    method Receive(chunks: seq<string>)
      modifies this
      ensures var fed := FeedChunks(old(buffer), UntilClosed(chunks));
        && buffer == fed.rest
        && frames == old(frames) + fed.frames
        && device == old(device) + Inject(decode, fed.frames)
      ensures old(Valid()) ==> Valid()
    {
      ghost var taken := UntilClosed(chunks);
      ghost var fed := Drained([], buffer);
      var i := 0;
      assert frames == old(frames) + [];
      assert device == old(device) + [];
      while i < |chunks| && chunks[i] != ""
        invariant 0 <= i <= |taken|
        invariant fed == FeedChunks(old(buffer), taken[..i])
        invariant buffer == fed.rest
        invariant frames == old(frames) + fed.frames
        invariant device == old(device) + Inject(decode, fed.frames)
        decreases |chunks| - i
      {
        ReadsUntilClosed(chunks, i);
        Feed(chunks[i]);
        var more := Drain(fed.rest + chunks[i]).frames;
        FeedChunksSnoc(old(buffer), taken, i);
        AppendAssoc(old(frames), fed.frames, more);
        InjectAppend(decode, fed.frames, more);
        AppendAssoc(old(device), Inject(decode, fed.frames), Inject(decode, more));
        fed := Extend(fed, chunks[i]);
        i := i + 1;
      }
      ReadsUntilClosed(chunks, i);
      assert taken[..i] == taken;
      InjectAppend(decode, old(frames), fed.frames);
    }
  }

  /** The loop's condition on read i agrees with UntilClosed. */
  lemma ReadsUntilClosed(chunks: seq<string>, i: int)
    requires 0 <= i <= |UntilClosed(chunks)|
    ensures i < |UntilClosed(chunks)| <==> i < |chunks| && chunks[i] != ""
    ensures i < |UntilClosed(chunks)| ==> UntilClosed(chunks)[i] == chunks[i]
  {
  }

  lemma FeedChunksSnoc(buffer: string, chunks: seq<string>, i: int)
    requires 0 <= i < |chunks|
    ensures FeedChunks(buffer, chunks[..i + 1]) == Extend(FeedChunks(buffer, chunks[..i]), chunks[i])
  {
    assert chunks[..i + 1][..i] == chunks[..i];
  }
}
