/** The client side of the orchestrator's event stream (frontend/a2a_utils.py): response
    chunks are collected in a buffer, cut into frames at each blank line (a simplified form
    of the event-stream format of section 9.2 of the HTML Living Standard), and each
    `data: ` frame carrying a JSON-RPC result of kind "status-update" or "artifact-update"
    becomes an event. */
module FrontendStream {
  import opened Wrappers
  import opened JsonValues
  import opened Text
  import opened A2ATypes

  const Delimiter := "\r\n\r\n"

  /** The library's `TaskStatusUpdateEvent(**result)` and `TaskArtifactUpdateEvent(**result)`:
      the event, or None when validation raises. */
  datatype EventBuilders = EventBuilders(status: Dict -> Option<Event>, artifact: Dict -> Option<Event>)

  /** The builders give the event their kind names: a status update for "status-update", an
      artifact update for "artifact-update". */
  ghost predicate WellFormed(b: EventBuilders) {
    && (forall d :: b.status(d).Some? ==> b.status(d).value.StatusUpdate?)
    && (forall d :: b.artifact(d).Some? ==> b.artifact(d).value.ArtifactUpdate?)
  }

  /** The "result" object of a frame that, once stripped, is `data: ` followed by a non-blank
      JSON object holding one. A payload that is not an object makes `"result" not in` or the
      indexing raise, which the loop catches. */
  function FrameResult(frame: string, parse: string -> Option<Json>): (r: Option<Dict>)
    ensures r.Some? ==> StartsWith(Strip(frame), "data: ") && !AllSpace(Strip(frame)[6..])
    ensures r.Some? ==> var p := parse(Strip(frame)[6..]);
                        p.Some? && p.value.JObj? && "result" in p.value.fields && p.value.fields["result"] == JObj(r.value)
  {
    var e := Strip(frame);
    if e == "" || !StartsWith(e, "data: ") then None
    else
      var payload := e[6..];
      if Strip(payload) == "" then None
      else match parse(payload)
        case Some(JObj(data)) =>
          if "result" in data && data["result"].JObj? then Some(data["result"].fields) else None
        case _ => None
  }

  /** The "kind" of a result is the given string. */
  predicate KindIs(result: Dict, kind: string) {
    "kind" in result && result["kind"] == JStr(kind)
  }

  /** The event one frame yields, if any. */
  function FrameEvent(frame: string, parse: string -> Option<Json>, b: EventBuilders): (r: Option<Event>)
    ensures r.Some? ==> FrameResult(frame, parse).Some?
  {
    match FrameResult(frame, parse)
    case None => None
    case Some(result) =>
      if KindIs(result, "status-update") then b.status(result)
      else if KindIs(result, "artifact-update") then b.artifact(result)
      else None
  }

  /** The dispatch of one frame: a "status-update" result goes to the status builder and an
      "artifact-update" result to the artifact builder; any other frame (no `data: ` prefix,
      a blank payload, unparsable JSON, no "result", a missing or unknown kind) yields
      nothing. With well-formed builders, the event's kind is the result's kind. */
  lemma FrameEventKinds(frame: string, parse: string -> Option<Json>, b: EventBuilders)
    ensures var r := FrameEvent(frame, parse, b);
            var res := FrameResult(frame, parse);
            && (res.None? ==> r.None?)
            && (res.Some? && KindIs(res.value, "status-update") ==> r == b.status(res.value))
            && (res.Some? && KindIs(res.value, "artifact-update") ==> r == b.artifact(res.value))
            && (res.Some? && !KindIs(res.value, "status-update") && !KindIs(res.value, "artifact-update") ==> r.None?)
            && (WellFormed(b) && r.Some? ==>
                  (r.value.StatusUpdate? <==> KindIs(res.value, "status-update"))
                  && (r.value.ArtifactUpdate? <==> KindIs(res.value, "artifact-update")))
  {
  }

  /** The events of a sequence of frames, in frame order. */
  function Dispatch(frames: seq<string>, parse: string -> Option<Json>, b: EventBuilders): seq<Event> {
    if |frames| == 0 then []
    else
      var init := Dispatch(frames[..|frames| - 1], parse, b);
      match FrameEvent(frames[|frames| - 1], parse, b)
      case Some(e) => init + [e]
      case None => init
  }

  lemma DispatchStep(frames: seq<string>, frame: string, parse: string -> Option<Json>, b: EventBuilders)
    ensures Dispatch(frames + [frame], parse, b)
            == Dispatch(frames, parse, b) + (match FrameEvent(frame, parse, b) case Some(e) => [e] case None => [])
  {
    assert (frames + [frame])[..|frames|] == frames;
  }

  /** Frames are dispatched one by one: two runs of frames give the two event runs joined. */
  lemma {:induction false} DispatchAppend(f: seq<string>, g: seq<string>, parse: string -> Option<Json>, b: EventBuilders)
    ensures Dispatch(f + g, parse, b) == Dispatch(f, parse, b) + Dispatch(g, parse, b)
    decreases |g|
  {
    if |g| == 0 {
      assert f + g == f;
    } else {
      var g' := g[..|g| - 1];
      assert f + g == (f + g') + [g[|g| - 1]];
      assert g == g' + [g[|g| - 1]];
      DispatchAppend(f, g', parse, b);
      DispatchStep(f + g', g[|g| - 1], parse, b);
      DispatchStep(g', g[|g| - 1], parse, b);
    }
  }

  /** The text received so far: the chunks, in order. */
  function Concat(chunks: seq<string>): string {
    if |chunks| == 0 then "" else Concat(chunks[..|chunks| - 1]) + chunks[|chunks| - 1]
  }

  /** The complete frames of a text: every piece that a delimiter closes. */
  function Frames(s: string): seq<string> {
    var pieces := SplitAll(s, Delimiter);
    pieces[..|pieces| - 1]
  }

  /** The text after the last delimiter, still waiting for its end. */
  function Remainder(s: string): string {
    var pieces := SplitAll(s, Delimiter);
    pieces[|pieces| - 1]
  }

  /** Frames and remainder put back together with the delimiter are the text received; the
      remainder holds no delimiter. */
  lemma FramesReassemble(s: string)
    ensures Join(Frames(s) + [Remainder(s)], Delimiter) == s
    ensures !Contains(Remainder(s), Delimiter)
  {
    var pieces := SplitAll(s, Delimiter);
    assert Frames(s) + [Remainder(s)] == pieces;
    JoinSplit(s, Delimiter);
  }

  /** More text never changes the frames already complete: the frames of `s + t` are those of
      `s` followed by the frames of what was pending plus `t`. So events, once yielded, are
      never taken back. */
  lemma FramesExtend(s: string, t: string)
    ensures Frames(s + t) == Frames(s) + Frames(Remainder(s) + t)
    ensures Remainder(s + t) == Remainder(Remainder(s) + t)
  {
    SplitAppend(s, t, Delimiter);
  }

  /** Taking the first frame off a buffer that holds the delimiter keeps the pieces of the
      received text the same. */
  lemma TakeFrame(buffer: string, done: seq<string>, rest: string)
    requires SplitAll(buffer, Delimiter) == done + SplitAll(rest, Delimiter)
    requires Contains(rest, Delimiter)
    ensures var k := IndexOf(rest, Delimiter).value;
            k + 4 <= |rest|
            && SplitAll(buffer, Delimiter) == (done + [rest[..k]]) + SplitAll(rest[k + 4..], Delimiter)
  {
    var k := IndexOf(rest, Delimiter).value;
    SplitStep(rest, Delimiter, k);
    Associative(done, [rest[..k]], SplitAll(rest[k + 4..], Delimiter));
  }

  /** Once no delimiter is left, the frames taken off are all the frames of the buffer. */
  lemma Drained(buffer: string, done: seq<string>, rest: string)
    requires SplitAll(buffer, Delimiter) == done + SplitAll(rest, Delimiter)
    requires !Contains(rest, Delimiter)
    ensures Frames(buffer) == done && Remainder(buffer) == rest
  {
    var pieces := SplitAll(buffer, Delimiter);
    assert SplitAll(rest, Delimiter) == [rest];
    assert pieces[..|pieces| - 1] == done;
  }

  /** The inner `while '\r\n\r\n' in buffer` loop: it dispatches every complete frame of
      `buffer` and keeps the rest. */
  method DrainFrames(buffer: string, parse: string -> Option<Json>, b: EventBuilders)
    returns (events: seq<Event>, rest: string)
    ensures events == Dispatch(Frames(buffer), parse, b)
    ensures rest == Remainder(buffer)
  {
    rest := buffer;
    events := [];
    ghost var done: seq<string> := [];
    while Contains(rest, Delimiter)
      invariant SplitAll(buffer, Delimiter) == done + SplitAll(rest, Delimiter)
      invariant events == Dispatch(done, parse, b)
      decreases |rest|
    {
      TakeFrame(buffer, done, rest);
      var k := IndexOf(rest, Delimiter).value;
      var frame := rest[..k];
      rest := rest[k + 4..];
      DispatchStep(done, frame, parse, b);
      var e := FrameEvent(frame, parse, b);
      if e.Some? {
        events := events + [e.value];
      }
      done := done + [frame];
    }
    Drained(buffer, done, rest);
  }

  /** `stream_agent_response(user_input)`: given the HTTP status, the error body and the
      decoded chunks, the events it yields and the text left in the buffer at the end. */
  method StreamAgentResponse(status: int, errorText: string, chunks: seq<string>,
                             parse: string -> Option<Json>, b: EventBuilders)
    returns (r: Result<seq<Event>, Exc>, rest: string)
    ensures status != 200 ==> r == Failure(Exc("Exception", "Orchestrator error: " + errorText))
    ensures status == 200 ==> r == Success(Dispatch(Frames(Concat(chunks)), parse, b))
                              && rest == Remainder(Concat(chunks))
  {
    if status != 200 {
      return Failure(Exc("Exception", "Orchestrator error: " + errorText)), "";
    }
    var buffer := "";
    var yielded: seq<Event> := [];
    var i := 0;
    while i < |chunks|
      invariant 0 <= i <= |chunks|
      invariant buffer == Remainder(Concat(chunks[..i]))
      invariant yielded == Dispatch(Frames(Concat(chunks[..i])), parse, b)
    {
      ghost var received := Concat(chunks[..i]);
      assert chunks[..i + 1][..i] == chunks[..i];
      assert Concat(chunks[..i + 1]) == received + chunks[i];
      FramesExtend(received, chunks[i]);
      var events;
      events, buffer := DrainFrames(buffer + chunks[i], parse, b);
      DispatchAppend(Frames(received), Frames(Remainder(received) + chunks[i]), parse, b);
      yielded := yielded + events;
      i := i + 1;
    }
    assert chunks[..i] == chunks;
    return Success(yielded), buffer;
  }
}
