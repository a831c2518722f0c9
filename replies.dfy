/**
 * Unwrapping the service's decoded replies into text fragments: every output's
 * text for a complete reply, the first output's text of every chunk for a stream.
 */
module Replies {
  import opened Wrappers

  /** One element of a decoded `outputs` array; `text` is `None` when the element has no `text` key. */
  datatype Output = Output(text: Option<string>)

  /** A decoded reply body or stream chunk; `outputs` is `None` when that key is absent or null. */
  datatype Body = Body(outputs: Option<seq<Output>>)

  /** One event of a response stream; `chunk` is `None` for an event that carries none. */
  datatype Event = Event(chunk: Option<Body>)

  /** How unwrapping fails: no `outputs`, an empty `outputs` where the first is needed, or an output without `text`. */
  datatype Failure = OutputsMissing | OutputsEmpty | TextMissing

  /** What a stream produced: the fragments yielded, then the failure that ended it, if any. */
  datatype Streamed = Streamed(fragments: seq<string>, failure: Option<Failure>)

  /** The texts of all outputs, in order; fails if any output lacks one. */
  function Texts(outs: seq<Output>): (r: Result<seq<string>, Failure>)
    ensures r.Success? <==> forall i :: 0 <= i < |outs| ==> outs[i].text.Some?
    ensures r.Success? ==> |r.value| == |outs| && forall i :: 0 <= i < |outs| ==> r.value[i] == outs[i].text.value
    ensures r.Failure? ==> r.error == TextMissing
  {
    if outs == [] then Success([])
    else
      match outs[0].text
      case None => Failure(TextMissing)
      case Some(t) =>
        match Texts(outs[1..])
        case Failure(e) => Failure(e)
        case Success(ts) => Success([t] + ts)
  }

  /** The fragments of a complete reply: the `text` of every element of `outputs`, one per output, in order. */
  function Completions(body: Body): (r: Result<seq<string>, Failure>)
    ensures r == Failure(OutputsMissing) <==> body.outputs.None?
    ensures r.Failure? && body.outputs.Some? ==> r.error == TextMissing
    ensures r.Success? <==> body.outputs.Some? && forall i :: 0 <= i < |body.outputs.value| ==> body.outputs.value[i].text.Some?
    ensures r.Success? ==>
      |r.value| == |body.outputs.value|
      && forall i :: 0 <= i < |r.value| ==> r.value[i] == body.outputs.value[i].text.value
  {
    match body.outputs
    case None => Failure(OutputsMissing)
    case Some(outs) => Texts(outs)
  }

  /** The fragment of one stream chunk: the text of its first output. */
  function FirstText(chunk: Body): (r: Result<string, Failure>)
    ensures r.Success? <==> chunk.outputs.Some? && |chunk.outputs.value| > 0 && chunk.outputs.value[0].text.Some?
    ensures r.Success? ==> r.value == chunk.outputs.value[0].text.value
    ensures r.Failure? ==>
      r.error == (if chunk.outputs.None? then OutputsMissing
                  else if chunk.outputs.value == [] then OutputsEmpty else TextMissing)
  {
    match chunk.outputs
    case None => Failure(OutputsMissing)
    case Some(outs) =>
      if outs == [] then Failure(OutputsEmpty)
      else match outs[0].text
        case None => Failure(TextMissing)
        case Some(t) => Success(t)
  }

  /**
   * The fragments a stream yields: events without a chunk are skipped, each
   * chunk yields its first text, and a chunk without one ends the stream with a failure.
   */
  function StreamTexts(events: seq<Event>): (r: Streamed)
    ensures |r.fragments| <= |Chunks(events)|
    ensures r.failure.None? ==> |r.fragments| == |Chunks(events)|
  {
    if events == [] then Streamed([], None)
    else
      match events[0].chunk
      case None => StreamTexts(events[1..])
      case Some(c) =>
        match FirstText(c)
        case Failure(e) => Streamed([], Some(e))
        case Success(t) =>
          var rest := StreamTexts(events[1..]);
          Streamed([t] + rest.fragments, rest.failure)
  }

  /** The chunks of a stream, in event order. */
  function Chunks(events: seq<Event>): seq<Body> {
    if events == [] then []
    else (if events[0].chunk.Some? then [events[0].chunk.value] else []) + Chunks(events[1..])
  }

  /** A stream read in two parts: the second part is read only if the first ended without failure. */
  lemma {:induction false} StreamConcat(a: seq<Event>, b: seq<Event>)
    ensures StreamTexts(a + b) ==
      if StreamTexts(a).failure.Some? then StreamTexts(a)
      else Streamed(StreamTexts(a).fragments + StreamTexts(b).fragments, StreamTexts(b).failure)
  {
    if a == [] {
      assert a + b == b;
    } else {
      assert (a + b)[0] == a[0];
      assert (a + b)[1..] == a[1..] + b;
      StreamConcat(a[1..], b);
      if a[0].chunk.Some? && FirstText(a[0].chunk.value).Success? {
        var t := FirstText(a[0].chunk.value).value;
        assert [t] + StreamTexts(a[1..]).fragments + StreamTexts(b).fragments
            == [t] + (StreamTexts(a[1..]).fragments + StreamTexts(b).fragments);
      }
    }
  }

  /**
   * When every chunk has a first text, the stream does not fail and yields
   * exactly one fragment per chunk, in event order: that chunk's first text.
   */
  lemma {:induction false} StreamWellFormed(events: seq<Event>)
    requires forall i :: 0 <= i < |events| && events[i].chunk.Some? ==> FirstText(events[i].chunk.value).Success?
    ensures var s := StreamTexts(events);
      s.failure.None? && |s.fragments| == |Chunks(events)|
      && forall k :: 0 <= k < |s.fragments| ==> FirstText(Chunks(events)[k]) == Success(s.fragments[k])
  {
    if events != [] {
      assert forall i :: 0 <= i < |events[1..]| ==> events[1..][i] == events[i + 1];
      StreamWellFormed(events[1..]);
    }
  }

  /** An event without a chunk changes nothing, wherever it occurs. */
  lemma ChunklessEventIgnored(a: seq<Event>, b: seq<Event>)
    ensures StreamTexts(a + [Event(None)] + b) == StreamTexts(a + b)
  {
    StreamConcat(a + [Event(None)], b);
    StreamConcat(a, [Event(None)]);
    StreamConcat(a, b);
    assert StreamTexts([Event(None)]) == StreamTexts([]);
  }

  /** A chunk without a first text ends the stream: nothing after it is read, what came before stays yielded. */
  lemma StreamStopsAtBadChunk(a: seq<Event>, c: Body, b: seq<Event>)
    requires StreamTexts(a).failure.None? && FirstText(c).Failure?
    ensures StreamTexts(a + [Event(Some(c))] + b) == Streamed(StreamTexts(a).fragments, Some(FirstText(c).error))
  {
    StreamConcat(a + [Event(Some(c))], b);
    StreamConcat(a, [Event(Some(c))]);
  }

  /** An empty stream yields nothing. */
  lemma EmptyStream()
    ensures StreamTexts([]) == Streamed([], None)
  {
  }

  /** A reply with outputs "x" and "y" yields "x" then "y". */
  lemma TwoOutputsExample()
    ensures Completions(Body(Some([Output(Some("x")), Output(Some("y"))]))) == Success(["x", "y"])
  {
    var outs := [Output(Some("x")), Output(Some("y"))];
    var r := Completions(Body(Some(outs)));
    assert outs[0].text.Some? && outs[1].text.Some?;
    assert r.Success?;
    assert r.value == [r.value[0], r.value[1]];
  }

  /** Collects the text of every output, failing at the first output without one. */
  method CollectCompletions(body: Body) returns (r: Result<seq<string>, Failure>)
    ensures r == Completions(body)
  {
    if body.outputs.None? {
      return Failure(OutputsMissing);
    }
    var outs := body.outputs.value;
    var texts: seq<string> := [];
    var i := 0;
    while i < |outs|
      invariant 0 <= i <= |outs|
      invariant |texts| == i
      invariant forall k :: 0 <= k < i ==> outs[k].text.Some? && texts[k] == outs[k].text.value
    {
      if outs[i].text.None? {
        return Failure(TextMissing);
      }
      texts := texts + [outs[i].text.value];
      i := i + 1;
    }
    assert Completions(body).Success?;
    assert texts == Completions(body).value;
    return Success(texts);
  }

  /** Reads the stream event by event, yielding each chunk's first text, stopping at a chunk without one. */
  method StreamFragments(events: seq<Event>) returns (fragments: seq<string>, failure: Option<Failure>)
    ensures Streamed(fragments, failure) == StreamTexts(events)
  {
    fragments, failure := [], None;
    var i := 0;
    while i < |events|
      invariant 0 <= i <= |events|
      invariant StreamTexts(events[..i]) == Streamed(fragments, None)
    {
      StreamConcat(events[..i], [events[i]]);
      assert events[..i + 1] == events[..i] + [events[i]];
      var chunk := events[i].chunk;
      if chunk.Some? {
        var t := FirstText(chunk.value);
        if t.Failure? {
          failure := Some(t.error);
          StreamConcat(events[..i + 1], events[i + 1..]);
          assert events[..i + 1] + events[i + 1..] == events;
          return;
        }
        fragments := fragments + [t.value];
      }
      i := i + 1;
    }
    assert events[..i] == events;
  }
}
