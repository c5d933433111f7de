/**
 * The target's stream reassembler, as pure functions: the receive buffer is
 * scanned for the first '{' and the first '}'; a '}' that comes first marks a
 * stale fragment, dropped up to the '{'; otherwise the span between them is
 * one frame. The loop runs until the buffer no longer holds both braces.
 */
module Framing {

  /** Python's str.find for one character: the first index of c, or -1. */
  function Find(s: string, c: char): (r: int)
    ensures -1 <= r < |s|
    ensures r == -1 ==> NotIn(s, c, |s|)
    ensures r >= 0 ==> s[r] == c && NotIn(s, c, r)
  {
    FindFrom(s, c, 0)
  }

  /** The scan behind Find, from index i on. */
  function FindFrom(s: string, c: char, i: nat): (r: int)
    requires i <= |s|
    ensures r == -1 || i <= r < |s|
    ensures r == -1 ==> forall j :: i <= j < |s| ==> s[j] != c
    ensures r >= 0 ==> s[r] == c && forall j :: i <= j < r ==> s[j] != c
    decreases |s| - i
  {
    if i == |s| then -1
    else if s[i] == c then i
    else FindFrom(s, c, i + 1)
  }

  /** No occurrence of c among the first n characters of s. */
  predicate NotIn(s: string, c: char, n: int)
    requires n <= |s|
  {
    forall i :: 0 <= i < n ==> s[i] != c
  }

  /** Find gives the one index where c first occurs. */
  lemma FindIsFirst(s: string, c: char, k: int)
    requires 0 <= k < |s| && s[k] == c && NotIn(s, c, k)
    ensures Find(s, c) == k
  {
  }

  /** The condition of the inner loop: the buffer holds both braces. */
  predicate HasBraces(buffer: string) {
    '{' in buffer && '}' in buffer
  }

  /** The shape of every frame the loop cuts out: a '{', then no '}', then '}'. */
  predicate IsFrame(f: string) {
    |f| >= 2 && f[0] == '{' && f[|f| - 1] == '}' && NotIn(f, '}', |f| - 1)
  }

  /** `s` is what is left of `buffer` once a prefix has been dropped. */
  predicate IsSuffix(s: string, buffer: string) {
    |s| <= |buffer| && s == buffer[|buffer| - |s|..]
  }

  /** One pass of the inner loop: no complete span, a stale fragment dropped
      (the buffer is cut back to its first '{'), or a frame cut out together
      with what precedes it. */
  datatype Step = Incomplete | Stale(rest: string) | Frame(frame: string, rest: string)

  function TryExtractFrame(buffer: string): (r: Step)
    ensures r.Incomplete? <==> !HasBraces(buffer)
    ensures !r.Incomplete? ==> |r.rest| < |buffer|
  {
    if HasBraces(buffer) then
      var start := Find(buffer, '{');
      var end := Find(buffer, '}');
      if start > end then Stale(buffer[start..])
      else Frame(buffer[start..end + 1], buffer[end + 1..])
    else
      Incomplete
  }

  /** In the stale case only text before the first '{' is dropped, and it
      holds the '}' that made the fragment stale. */
  lemma StaleDropsPrefix(buffer: string)
    requires TryExtractFrame(buffer).Stale?
    ensures var rest := TryExtractFrame(buffer).rest;
      var n := |buffer| - |rest|;
      && rest[0] == '{' && NotIn(buffer, '{', n) && exists i :: 0 <= i < n && buffer[i] == '}'
  {
    var end := Find(buffer, '}');
    assert buffer[end] == '}';
  }

  /** In the frame case the buffer is some brace-free text, the frame, and the
      rest; the frame starts with '{', ends with '}' and holds no other '}'. */
  lemma FrameIsCut(buffer: string)
    requires TryExtractFrame(buffer).Frame?
    ensures var Frame(frame, rest) := TryExtractFrame(buffer);
      var n := |buffer| - |frame| - |rest|;
      && 0 <= n && buffer == buffer[..n] + frame + rest
      && NotIn(buffer, '{', n) && NotIn(buffer, '}', n) && IsFrame(frame)
  {
    var start, end := Find(buffer, '{'), Find(buffer, '}');
    StepAt(buffer, start, end);
    CutAt(buffer, start, end);
  }

  lemma CutAt(buffer: string, start: int, end: int)
    requires 0 <= start < |buffer| && buffer[start] == '{' && NotIn(buffer, '{', start)
    requires start <= end < |buffer| && buffer[end] == '}' && NotIn(buffer, '}', end)
    ensures buffer == buffer[..start] + buffer[start..end + 1] + buffer[end + 1..]
    ensures NotIn(buffer, '}', start) && IsFrame(buffer[start..end + 1])
  {
    var frame := buffer[start..end + 1];
    assert IsFrame(frame) by {
      assert forall i :: 0 <= i < |frame| ==> frame[i] == buffer[start + i];
    }
    assert buffer == buffer[..start] + frame + buffer[end + 1..];
  }

  /** The frames the inner loop cuts from a buffer, in order, and what it
      leaves behind. */
  datatype Drained = Drained(frames: seq<string>, rest: string)

  function Drain(buffer: string): (d: Drained)
    ensures !HasBraces(d.rest)
    decreases |buffer|
  {
    match TryExtractFrame(buffer)
    case Incomplete => Drained([], buffer)
    case Stale(rest) => Drain(rest)
    case Frame(frame, rest) =>
      var d := Drain(rest);
      Drained([frame] + d.frames, d.rest)
  }

  /** Every frame drained from a buffer has the frame shape. */
  lemma {:induction false} DrainedFrameShape(buffer: string, i: int)
    requires 0 <= i < |Drain(buffer).frames|
    ensures IsFrame(Drain(buffer).frames[i])
    decreases |buffer|
  {
    if HasBraces(buffer) {
      var step := TryExtractFrame(buffer);
      if step.Stale? {
        DrainOfStale(buffer);
        DrainedFrameShape(step.rest, i);
      } else if i == 0 {
        DrainOfFrame(buffer);
        CutIsFrame(buffer);
      } else {
        DrainOfFrame(buffer);
        DrainedFrameShape(step.rest, i - 1);
      }
    } else {
      assert false;
    }
  }

  lemma CutIsFrame(buffer: string)
    requires TryExtractFrame(buffer).Frame?
    ensures IsFrame(TryExtractFrame(buffer).frame)
  {
    FrameIsCut(buffer);
  }

  /** What the inner loop leaves in the buffer is the unconsumed end of it. */
  lemma {:induction false} DrainLeavesSuffix(buffer: string)
    ensures IsSuffix(Drain(buffer).rest, buffer)
    decreases |buffer|
  {
    if HasBraces(buffer) {
      var rest := TryExtractFrame(buffer).rest;
      StepLeavesSuffix(buffer);
      DrainLeavesSuffix(rest);
      DrainRest(buffer);
      SuffixOfSuffix(Drain(rest).rest, rest, buffer);
    }
  }

  lemma StepLeavesSuffix(buffer: string)
    requires HasBraces(buffer)
    ensures IsSuffix(TryExtractFrame(buffer).rest, buffer)
  {
  }

  lemma DrainRest(buffer: string)
    requires HasBraces(buffer)
    ensures Drain(buffer).rest == Drain(TryExtractFrame(buffer).rest).rest
  {
  }

  lemma SuffixOfSuffix(a: string, b: string, c: string)
    requires IsSuffix(a, b) && IsSuffix(b, c)
    ensures IsSuffix(a, c)
  {
    assert c[|c| - |a|..] == c[|c| - |b|..][|b| - |a|..];
  }

  /** The chunks joined in order. */
  function Concat(chunks: seq<string>): (s: string)
    ensures chunks == [] ==> s == ""
  {
    if chunks == [] then "" else Concat(chunks[..|chunks| - 1]) + chunks[|chunks| - 1]
  }

  /** The outer loop: each chunk is appended to the buffer and the buffer is
      drained before the next chunk arrives. */
  function FeedChunks(buffer: string, chunks: seq<string>): (d: Drained)
    ensures chunks == [] ==> d == Drained([], buffer)
    ensures chunks != [] ==> !HasBraces(d.rest)
  {
    if chunks == [] then Drained([], buffer)
    else
      var before := FeedChunks(buffer, chunks[..|chunks| - 1]);
      var after := Drain(before.rest + chunks[|chunks| - 1]);
      Drained(before.frames + after.frames, after.rest)
  }

  /** The step taken on a buffer whose first '{' is at `start` and whose
      first '}' is at `end`. */
  lemma StepAt(buffer: string, start: int, end: int)
    requires 0 <= start < |buffer| && buffer[start] == '{' && NotIn(buffer, '{', start)
    requires 0 <= end < |buffer| && buffer[end] == '}' && NotIn(buffer, '}', end)
    ensures TryExtractFrame(buffer)
         == if start > end then Stale(buffer[start..]) else Frame(buffer[start..end + 1], buffer[end + 1..])
  {
    FindIsFirst(buffer, '{', start);
    FindIsFirst(buffer, '}', end);
  }

  /** Scanning a buffer that a longer one extends: while the buffer holds both
      braces, the longer one gives the same step. */
  lemma StepOfExtension(a: string, c: string)
    requires HasBraces(a)
    ensures TryExtractFrame(a + c) == match TryExtractFrame(a)
      case Incomplete => Incomplete
      case Stale(rest) => Stale(rest + c)
      case Frame(frame, rest) => Frame(frame, rest + c)
  {
    var start, end := Find(a, '{'), Find(a, '}');
    ExtendedStepAt(a, c, start, end);
  }

  lemma ExtendedStepAt(a: string, c: string, start: int, end: int)
    requires 0 <= start < |a| && a[start] == '{' && NotIn(a, '{', start)
    requires 0 <= end < |a| && a[end] == '}' && NotIn(a, '}', end)
    ensures TryExtractFrame(a + c)
         == if start > end then Stale(a[start..] + c) else Frame(a[start..end + 1], a[end + 1..] + c)
  {
    assert NotIn(a + c, '{', start) && NotIn(a + c, '}', end) by {
      assert forall i :: 0 <= i < |a| ==> (a + c)[i] == a[i];
    }
    StepAt(a + c, start, end);
    if start > end {
      assert (a + c)[start..] == a[start..] + c;
    } else {
      assert (a + c)[start..end + 1] == a[start..end + 1];
      assert (a + c)[end + 1..] == a[end + 1..] + c;
    }
  }

  /** What draining continues with once `c` arrives after a drain `d`. */
  function Extend(d: Drained, c: string): (e: Drained)
    ensures d.frames <= e.frames
  {
    var more := Drain(d.rest + c);
    Drained(d.frames + more.frames, more.rest)
  }

  /** Draining `a + c` is draining `a` and then draining what it left,
      followed by `c`. */
  lemma {:induction false} DrainAppend(a: string, c: string)
    ensures Drain(a + c) == Extend(Drain(a), c)
    decreases |a|
  {
    var step := TryExtractFrame(a);
    if step.Incomplete? {
      assert Drain(a) == Drained([], a);
      assert Extend(Drain(a), c).frames == Drain(a + c).frames;
    } else {
      StepOfExtension(a, c);
      assert |step.rest| < |a|;
      DrainAppend(step.rest, c);
      if step.Frame? {
        DrainFrame(a, c, step.frame, step.rest);
      } else {
        assert Drain(a) == Drain(step.rest);
        assert Drain(a + c) == Drain(step.rest + c);
      }
    }
  }

  lemma DrainFrame(a: string, c: string, frame: string, rest: string)
    requires TryExtractFrame(a) == Frame(frame, rest)
    requires TryExtractFrame(a + c) == Frame(frame, rest + c)
    requires Drain(rest + c) == Extend(Drain(rest), c)
    ensures Drain(a + c) == Extend(Drain(a), c)
  {
    var d := Drain(rest);
    var e := Drain(d.rest + c);
    DrainOfFrame(a);
    DrainOfFrame(a + c);
    AppendAssoc([frame], d.frames, e.frames);
  }

  /** One unfolding of Drain on a buffer that starts a frame. */
  lemma DrainOfFrame(buffer: string)
    requires TryExtractFrame(buffer).Frame?
    ensures var Frame(frame, rest) := TryExtractFrame(buffer);
      Drain(buffer) == Drained([frame] + Drain(rest).frames, Drain(rest).rest)
  {
  }

  lemma AppendAssoc<T>(x: seq<T>, y: seq<T>, z: seq<T>)
    ensures x + (y + z) == (x + y) + z
  {
  }

  /** Chunk independence: feeding chunks one by one yields the frames and the
      leftover of draining them joined, however the stream was split. */
  lemma {:induction false} ChunkIndependence(buffer: string, chunks: seq<string>)
    requires !HasBraces(buffer)
    ensures FeedChunks(buffer, chunks) == Drain(buffer + Concat(chunks))
    decreases |chunks|
  {
    if chunks == [] {
      assert buffer + Concat(chunks) == buffer;
      assert Drain(buffer) == Drained([], buffer);
    } else {
      var init, last := chunks[..|chunks| - 1], chunks[|chunks| - 1];
      ChunkIndependence(buffer, init);
      DrainAppend(buffer + Concat(init), last);
      assert FeedChunks(buffer, chunks) == Extend(FeedChunks(buffer, init), last);
      assert Concat(chunks) == Concat(init) + last;
      AppendAssoc(buffer, Concat(init), last);
    }
  }

  lemma SplitIndependence(buffer: string, chunks: seq<string>, others: seq<string>)
    requires !HasBraces(buffer) && Concat(chunks) == Concat(others)
    ensures FeedChunks(buffer, chunks) == FeedChunks(buffer, others)
  {
    ChunkIndependence(buffer, chunks);
    ChunkIndependence(buffer, others);
  }

  /** What the controller sends for one event body `s`: "{" + s + "}". */
  function Wrap(s: string): (f: string)
    ensures '}' !in s ==> IsFrame(f)
  {
    assert ("{" + s + "}")[..|s| + 1] == "{" + s;
    "{" + s + "}"
  }

  /** The bodies sent one after another, with no separator. */
  function Serialize(bodies: seq<string>): string {
    if bodies == [] then "" else Wrap(bodies[0]) + Serialize(bodies[1..])
  }

  /** A wrapped body at the head of the buffer is the next frame. */
  lemma FrameAtHead(s: string, tail: string)
    requires '}' !in s
    ensures TryExtractFrame(Wrap(s) + tail) == Frame(Wrap(s), tail)
  {
    var buffer := Wrap(s) + tail;
    assert buffer[0] == '{';
    assert buffer[..|s| + 1] == "{" + s;
    assert buffer[|s| + 1] == '}';
    assert buffer[..|s| + 2] == Wrap(s);
    assert buffer[|s| + 2..] == tail;
  }

  /** Round trip: bodies with no '}' are reassembled into exactly their frames,
      in order, and nothing is left over. */
  lemma {:induction false} RoundTrip(bodies: seq<string>)
    requires forall i :: 0 <= i < |bodies| ==> '}' !in bodies[i]
    ensures Drain(Serialize(bodies)).rest == ""
    ensures |Drain(Serialize(bodies)).frames| == |bodies|
    ensures forall i :: 0 <= i < |bodies| ==> Drain(Serialize(bodies)).frames[i] == Wrap(bodies[i])
  {
    if bodies == [] {
      assert Drain("") == Drained([], "");
    } else {
      var tail := Serialize(bodies[1..]);
      FrameAtHead(bodies[0], tail);
      RoundTrip(bodies[1..]);
    }
  }

  /** Garbage before a frame start that holds no '{' (a stale fragment, or text
      before the first frame) is dropped: the frames are those of the stream
      that starts at the '{'. */
  lemma GarbageIsDropped(garbage: string, tail: string)
    requires '{' !in garbage
    ensures Drain(garbage + "{" + tail).frames == Drain("{" + tail).frames
    ensures '}' in garbage + tail ==> Drain(garbage + "{" + tail).rest == Drain("{" + tail).rest
  {
    var head := "{" + tail;
    AppendAssoc(garbage, "{", tail);
    if '}' in garbage {
      StaleGarbage(garbage, head);
    } else if '}' in tail {
      assert '}' in head;
      CleanGarbage(garbage, head);
    } else {
      assert !HasBraces(garbage + head) && !HasBraces(head);
      assert Drain(garbage + head).frames == [] == Drain(head).frames;
    }
  }

  /** Garbage holding a '}' makes the first step a stale drop down to `head`. */
  lemma StaleGarbage(garbage: string, head: string)
    requires '{' !in garbage && '}' in garbage && |head| > 0 && head[0] == '{'
    ensures Drain(garbage + head) == Drain(head)
  {
    var buffer, n := garbage + head, |garbage|;
    PrefixFree(garbage, head, '{', 0);
    var end := Find(garbage, '}');
    assert buffer[end] == '}' && NotIn(buffer, '}', end) by {
      assert forall i :: 0 <= i < n ==> buffer[i] == garbage[i];
    }
    StepAt(buffer, n, end);
    assert buffer[n..] == head;
    DrainOfStale(buffer);
  }

  /** Brace-free garbage is cut off together with the first frame of `head`. */
  lemma CleanGarbage(garbage: string, head: string)
    requires '{' !in garbage && '}' !in garbage && |head| > 0 && head[0] == '{' && '}' in head
    ensures Drain(garbage + head) == Drain(head)
  {
    var end := Find(head, '}');
    StepAt(head, 0, end);
    ShiftedFrameStep(garbage, head, end);
    SameStepSameDrain(garbage + head, head);
  }

  lemma ShiftedFrameStep(garbage: string, head: string, end: int)
    requires '{' !in garbage && '}' !in garbage && |head| > 0 && head[0] == '{'
    requires 0 <= end < |head| && head[end] == '}' && NotIn(head, '}', end)
    ensures TryExtractFrame(garbage + head) == Frame(head[..end + 1], head[end + 1..])
  {
    var buffer, n := garbage + head, |garbage|;
    PrefixFree(garbage, head, '{', 0);
    PrefixFree(garbage, head, '}', end);
    StepAt(buffer, n, n + end);
    SliceOfAppend(garbage, head, 0, end + 1);
    SliceOfAppend(garbage, head, end + 1, |head|);
  }

  lemma SliceOfAppend(x: string, y: string, i: int, j: int)
    requires 0 <= i <= j <= |y|
    ensures (x + y)[|x| + i..|x| + j] == y[i..j]
  {
  }

  lemma DrainOfStale(buffer: string)
    requires TryExtractFrame(buffer).Stale?
    ensures Drain(buffer) == Drain(TryExtractFrame(buffer).rest)
  {
  }

  lemma SameStepSameDrain(a: string, b: string)
    requires HasBraces(a) && TryExtractFrame(a) == TryExtractFrame(b)
    ensures Drain(a) == Drain(b)
  {
  }

  /** A prefix free of c followed by k leading characters free of c. */
  lemma PrefixFree(x: string, y: string, c: char, k: int)
    requires c !in x && 0 <= k <= |y| && NotIn(y, c, k)
    ensures NotIn(x + y, c, |x| + k) && (k < |y| ==> (x + y)[|x| + k] == y[k])
  {
    forall i | 0 <= i < |x| + k
      ensures (x + y)[i] != c
    {
      if i < |x| {
        assert (x + y)[i] == x[i];
      } else {
        assert (x + y)[i] == y[i - |x|];
      }
    }
  }
}
