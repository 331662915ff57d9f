/**
 * Server-sent-event framing. `SSEStream` turns a stream of items into text
 * frames of the event-stream format of the WHATWG HTML Living Standard
 * (section 9.2.5, "Parsing an event stream", and 9.2.6, "Interpreting an
 * event stream"): an optional `event:` line, one `data:` line and a blank
 * line. The decoding functions below are that standard's interpretation of
 * a block of lines ended by LF, used to show what a client receives.
 */
module Sse {
  import opened Common

  /** An item of the source stream: a string, a dict, or a model object. */
  datatype Item = Text(s: string) | Dict(d: seq<(string, string)>) | Model(id: nat)

  /** The two serialisers the framing relies on: `json.dumps(..., ensure_ascii=False)` and `BaseModel.to_json`. */
  datatype Serialisers = Serialisers(dumps: seq<(string, string)> -> string, toJson: nat -> string)

  /** The stream's settings; `end` defaults to `[DONE]`. */
  datatype SSEStream = SSEStream(event: Option<string>, end: Option<string>, retry: Option<int>)

  const DefaultEnd: string := "[DONE]"

  function NewStream(event: Option<string>, end: Option<string>, retry: Option<int>): SSEStream
  {
    SSEStream(event, end, retry)
  }

  /** Truthiness of an optional string: present and not empty. */
  predicate Given(s: Option<string>)
  {
    s.Some? && s.value != []
  }

  /** `event or self.event`, when it is truthy. */
  function EventName(event: Option<string>, configured: Option<string>): (r: Option<string>)
    ensures r.Some? ==> r.value != []
    ensures Given(event) ==> r == event
    ensures !Given(event) && Given(configured) ==> r == configured
    ensures r.None? <==> !Given(event) && !Given(configured)
  {
    if Given(event) then event else if Given(configured) then configured else None
  }

  /** The text of the `data:` line. */
  function Content(item: Item, ser: Serialisers): string
  {
    match item
    case Model(m) => ser.toJson(m)
    case Dict(d) => ser.dumps(d)
    case Text(s) => s
  }

  /** `"\n".join(lines)`. */
  function JoinLF(lines: seq<string>): string
    requires lines != []
  {
    if |lines| == 1 then lines[0] else lines[0] + "\n" + JoinLF(lines[1..])
  }

  /** `s.split("\n")`: never empty. */
  function SplitLF(s: string): (r: seq<string>)
    ensures r != []
  {
    if s == [] then [""]
    else if s[0] == '\n' then [""] + SplitLF(s[1..])
    else var rest := SplitLF(s[1..]); [[s[0]] + rest[0]] + rest[1..]
  }

  predicate NoLF(s: string)
  {
    forall i :: 0 <= i < |s| ==> s[i] != '\n'
  }

  /**
   * No character that ends a line in an event stream: the standard ends a
   * line at CRLF, at a lone LF and at a lone CR.
   */
  predicate NoLineBreak(s: string)
  {
    forall i :: 0 <= i < |s| ==> s[i] != '\n' && s[i] != '\r'
  }

  lemma {:induction false} SplitLFOfLine(a: string, b: string)
    requires NoLF(a)
    ensures SplitLF(a + "\n" + b) == [a] + SplitLF(b)
    ensures SplitLF(a) == [a]
  {
    if a != [] {
      assert (a + "\n" + b)[0] == a[0] && (a + "\n" + b)[1..] == a[1..] + "\n" + b;
      SplitLFOfLine(a[1..], b);
      assert [a[0]] + a[1..] == a;
    } else {
      assert a + "\n" + b == "\n" + b;
    }
  }

  /** Splitting undoes joining when no line holds a line feed. */
  lemma {:induction false} SplitJoinLF(lines: seq<string>)
    requires lines != []
    requires forall k :: 0 <= k < |lines| ==> NoLF(lines[k])
    ensures SplitLF(JoinLF(lines)) == lines
  {
    if |lines| == 1 {
      SplitLFOfLine(lines[0], "");
    } else {
      SplitJoinLF(lines[1..]);
      SplitLFOfLine(lines[0], JoinLF(lines[1..]));
    }
  }

  /** The lines `format` joins. */
  function FrameLines(content: string, name: Option<string>): seq<string>
  {
    (if name.Some? then ["event: " + name.value] else []) + ["data: " + content, ""]
  }

  /** `format(data, event=...)`. */
  function Format(s: SSEStream, item: Item, event: Option<string>, ser: Serialisers): string
  {
    JoinLF(FrameLines(Content(item, ser), EventName(event, s.event))) + "\n"
  }

  /** The `retry:` frame. */
  function RetryFrame(n: int): string
  {
    "retry: " + IntToString(n) + "\n\n"
  }

  lemma JoinTwo(a: string, b: string)
    ensures JoinLF([a, b]) == a + "\n" + b
  {
    assert [a, b][1..] == [b];
  }

  lemma JoinThree(a: string, b: string, c: string)
    ensures JoinLF([a, b, c]) == a + "\n" + b + "\n" + c
  {
    assert [a, b, c][1..] == [b, c];
    JoinTwo(b, c);
  }

  /** The text of a frame, written out. */
  lemma FrameText(content: string, name: Option<string>)
    ensures JoinLF(FrameLines(content, name)) + "\n"
         == (if name.Some? then "event: " + name.value + "\n" else "") + "data: " + content + "\n\n"
  {
    if name.Some? {
      assert FrameLines(content, name) == ["event: " + name.value, "data: " + content, ""];
      JoinThree("event: " + name.value, "data: " + content, "");
    } else {
      assert FrameLines(content, name) == ["data: " + content, ""];
      JoinTwo("data: " + content, "");
    }
  }

  /** Every frame ends with a blank line, and has the event line exactly when an event name applies. */
  lemma FrameShape(s: SSEStream, item: Item, event: Option<string>, ser: Serialisers)
    ensures var f := Format(s, item, event, ser);
      |f| >= 2 && f[|f| - 2..] == "\n\n"
    ensures var name := EventName(event, s.event);
      Format(s, item, event, ser) == (if name.Some? then "event: " + name.value + "\n" else "") + "data: " + Content(item, ser) + "\n\n"
  {
    FrameText(Content(item, ser), EventName(event, s.event));
  }

  /** The name given to `format` wins over the configured one: the end frame is always an `end` event. */
  lemma ArgumentEventWins(s: SSEStream, item: Item, ser: Serialisers)
    ensures Format(s, item, Some("end"), ser) == "event: end\ndata: " + Content(item, ser) + "\n\n"
  {
    FrameShape(s, item, Some("end"), ser);
  }

  // ---------------------------------------------------------------------
  // Interpreting a frame, as a client does

  /** Index of the first colon of a line. */
  function ColonAt(line: string): (c: nat)
    ensures c <= |line|
    ensures forall i :: 0 <= i < c ==> line[i] != ':'
    ensures c < |line| ==> line[c] == ':'
  {
    if line == [] || line[0] == ':' then 0 else 1 + ColonAt(line[1..])
  }

  /** A line's field name and value: the value follows the first colon, less one leading space. */
  function Field(line: string): (string, string)
  {
    var c := ColonAt(line);
    if c == |line| then (line, "")
    else
      var v := line[c + 1..];
      (line[..c], if v != [] && v[0] == ' ' then v[1..] else v)
  }

  /**
   * Process lines up to the first blank one, collecting the event type and
   * the data buffer; at the blank line the event is dispatched (an empty
   * data buffer dispatches nothing). The type defaults to `message`.
   */
  function Interpret(lines: seq<string>, eventType: string, data: string): Option<(string, string)>
  {
    if lines == [] then None
    else if lines[0] == [] then
      if data == [] then None else Some((if eventType == [] then "message" else eventType, data[..|data| - 1]))
    else
      var (f, v) := Field(lines[0]);
      if f == "event" then Interpret(lines[1..], v, data)
      else if f == "data" then Interpret(lines[1..], eventType, data + v + "\n")
      else Interpret(lines[1..], eventType, data)
  }

  /** The event a client receives for one frame: its type and its data. */
  function Decode(frame: string): Option<(string, string)>
  {
    Interpret(SplitLF(frame), "", "")
  }

  lemma FieldOfPrefixed(name: string, value: string)
    requires forall i :: 0 <= i < |name| ==> name[i] != ':'
    ensures Field(name + ": " + value) == (name, value)
  {
    var line := name + ": " + value;
    assert forall i :: 0 <= i < |name| ==> line[i] == name[i];
    assert line[|name|] == ':';
    assert ColonAt(line) == |name| by {
      ColonAtPrefix(line, name);
    }
    assert line[|name| + 1..] == " " + value;
    assert line[..|name|] == name;
  }

  lemma {:induction false} ColonAtPrefix(line: string, name: string)
    requires |name| < |line| && line[|name|] == ':'
    requires forall i :: 0 <= i < |name| ==> line[i] != ':'
    ensures ColonAt(line) == |name|
    decreases |name|
  {
    if name != [] {
      ColonAtPrefix(line[1..], name[1..]);
    }
  }

  lemma NoLFPrefixed(prefix: string, text: string)
    requires NoLF(prefix) && NoLF(text)
    ensures NoLF(prefix + text)
  {
    assert forall i :: |prefix| <= i < |prefix + text| ==> (prefix + text)[i] == text[i - |prefix|];
  }

  /** The lines a client splits a frame into are the lines `format` joined, then an empty one. */
  lemma FrameSplits(content: string, name: Option<string>)
    requires NoLF(content)
    requires name.Some? ==> NoLF(name.value)
    ensures SplitLF(JoinLF(FrameLines(content, name)) + "\n") == FrameLines(content, name) + [""]
  {
    var l := FrameLines(content, name);
    NoLFPrefixed("data: ", content);
    if name.Some? {
      NoLFPrefixed("event: ", name.value);
    }
    assert forall k :: 0 <= k < |l + [""]| ==> NoLF((l + [""])[k]);
    SplitJoinLF(l + [""]);
    JoinAppendBlank(l);
  }

  /** A blank line dispatches what the data buffer holds, less its final line feed. */
  lemma InterpretBlank(eventType: string, content: string)
    ensures Interpret(["", ""], eventType, content + "\n") == Some((if eventType == [] then "message" else eventType, content))
  {
    var buf := content + "\n";
    assert ["", ""][0] == [];
    assert buf != [] && buf[..|buf| - 1] == content;
  }

  /** A data line, then the blank line: a `message` event (or the given type) with that data. */
  lemma InterpretDataLine(eventType: string, content: string)
    ensures Interpret(["data: " + content, "", ""], eventType, "") == Some((if eventType == [] then "message" else eventType, content))
  {
    var line := "data: " + content;
    var lines := [line, "", ""];
    FieldOfPrefixed("data", content);
    assert line == "data" + ": " + content;
    assert line[0] == 'd';
    assert Field(line).0 != "event";
    assert lines[0] == line && lines[1..] == ["", ""];
    assert "" + content + "\n" == content + "\n";
    assert Interpret(lines, eventType, "") == Interpret(["", ""], eventType, content + "\n");
    InterpretBlank(eventType, content);
  }

  lemma InterpretEventLine(name: string, content: string)
    ensures Interpret(["event: " + name, "data: " + content, "", ""], "", "") == Interpret(["data: " + content, "", ""], name, "")
  {
    var line := "event: " + name;
    var lines := [line, "data: " + content, "", ""];
    FieldOfPrefixed("event", name);
    assert line == "event" + ": " + name;
    assert line[0] == 'e';
    assert lines[0] == line && lines[1..] == ["data: " + content, "", ""];
  }

  /**
   * What a client receives: a frame whose texts hold no CR and no LF decodes
   * to one event, of the applicable type (`message` when none), whose data is
   * the item's content. Such a frame's only line ends are the LFs `format`
   * writes, so splitting at LF is splitting at every line end the standard
   * knows.
   */
  lemma DecodeFormat(s: SSEStream, item: Item, event: Option<string>, ser: Serialisers)
    requires NoLineBreak(Content(item, ser))
    requires var name := EventName(event, s.event); name.Some? ==> NoLineBreak(name.value)
    ensures Decode(Format(s, item, event, ser))
         == Some((if EventName(event, s.event).Some? then EventName(event, s.event).value else "message", Content(item, ser)))
  {
    var name := EventName(event, s.event);
    var c := Content(item, ser);
    FrameSplits(c, name);
    if name.Some? {
      assert FrameLines(c, name) + [""] == ["event: " + name.value, "data: " + c, "", ""];
      InterpretEventLine(name.value, c);
      InterpretDataLine(name.value, c);
    } else {
      assert FrameLines(c, name) + [""] == ["data: " + c, "", ""];
      InterpretDataLine("", c);
    }
  }

  predicate NoCR(s: string)
  {
    forall i :: 0 <= i < |s| ==> s[i] != '\r'
  }

  lemma NoCRAppend(a: string, b: string)
    requires NoCR(a) && NoCR(b)
    ensures NoCR(a + b)
  {
    assert forall i :: |a| <= i < |a + b| ==> (a + b)[i] == b[i - |a|];
  }

  /**
   * A frame of texts without line breaks holds no CR, so its line ends are
   * exactly its LFs, whichever of the standard's line ends a client accepts.
   */
  lemma FrameHasNoCR(s: SSEStream, item: Item, event: Option<string>, ser: Serialisers)
    requires NoLineBreak(Content(item, ser))
    requires var name := EventName(event, s.event); name.Some? ==> NoLineBreak(name.value)
    ensures NoCR(Format(s, item, event, ser))
  {
    var name := EventName(event, s.event);
    var c := Content(item, ser);
    FrameShape(s, item, event, ser);
    var head := if name.Some? then "event: " + name.value + "\n" else "";
    if name.Some? {
      NoCRAppend("event: ", name.value);
      NoCRAppend("event: " + name.value, "\n");
    }
    NoCRAppend(head, "data: ");
    NoCRAppend(head + "data: ", c);
    NoCRAppend(head + "data: " + c, "\n\n");
  }

  lemma {:induction false} JoinAppendBlank(lines: seq<string>)
    requires lines != []
    ensures JoinLF(lines + [""]) == JoinLF(lines) + "\n"
    decreases |lines|
  {
    if |lines| > 1 {
      assert (lines + [""])[1..] == lines[1..] + [""];
      JoinAppendBlank(lines[1..]);
    } else {
      JoinTwo(lines[0], "");
      assert lines + [""] == [lines[0], ""];
    }
  }

  /** The retry frame is not an event: it carries no data. */
  lemma RetryFrameIsNoEvent(n: int)
    ensures Decode(RetryFrame(n)).None?
  {
    var digits := IntToString(n);
    assert NoLF(digits) by {
      if n < 0 {
        assert digits == "-" + NatToString(-n);
        assert forall i :: 1 <= i < |digits| ==> digits[i] == NatToString(-n)[i - 1];
      }
    }
    var line := "retry: " + digits;
    NoLFPrefixed("retry: ", digits);
    assert RetryFrame(n) == line + "\n" + ("" + "\n" + "");
    SplitLFOfLine(line, "" + "\n" + "");
    SplitLFOfLine("", "");
    assert SplitLF(RetryFrame(n)) == [line, "", ""];
    FieldOfPrefixed("retry", digits);
    assert line == "retry" + ": " + digits;
    assert line[0] == 'r';
    assert Field(line).0 != "event" && Field(line).0 != "data";
    assert [line, "", ""][0] == line && [line, "", ""][1..] == ["", ""];
    assert Interpret([line, "", ""], "", "") == Interpret(["", ""], "", "");
  }

  // ---------------------------------------------------------------------
  // __aiter__

  /**
   * What `__aiter__` yields for a source that yields `items` and then either
   * ends or, when `raises`, raises: the retry frame, one frame per item, and
   * the end frame only when the source ended normally (an exception from the
   * source leaves the loop and propagates past the end frame).
   */
  function Frames(s: SSEStream, items: seq<Item>, raises: bool, ser: Serialisers): seq<string>
  {
    (if s.retry.Some? && s.retry.value != 0 then [RetryFrame(s.retry.value)] else [])
    + ItemFrames(s, items, ser)
    + (if Given(s.end) && !raises then [Format(s, Text(s.end.value), Some("end"), ser)] else [])
  }

  function ItemFrames(s: SSEStream, items: seq<Item>, ser: Serialisers): (fs: seq<string>)
    ensures |fs| == |items|
  {
    if items == [] then [] else [Format(s, items[0], None, ser)] + ItemFrames(s, items[1..], ser)
  }

  /** Item frame `i` is item `i` formatted without an event argument. */
  lemma {:induction false} ItemFramesAt(s: SSEStream, items: seq<Item>, ser: Serialisers, i: nat)
    requires i < |items|
    ensures ItemFrames(s, items, ser)[i] == Format(s, items[i], None, ser)
  {
    if i > 0 {
      ItemFramesAt(s, items[1..], ser, i - 1);
    }
  }

  /** The `async for` loop of `__aiter__`: one frame per item, in order. */
  method FormatItems(s: SSEStream, items: seq<Item>, ser: Serialisers) returns (out: seq<string>)
    ensures out == ItemFrames(s, items, ser)
  {
    out := [];
    for i := 0 to |items|
      invariant out == ItemFrames(s, items[..i], ser)
    {
      assert items[..i + 1] == items[..i] + [items[i]];
      ItemFramesAppend(s, items[..i], items[i], ser);
      out := out + [Format(s, items[i], None, ser)];
    }
    assert items[..|items|] == items;
  }

  /**
   * `__aiter__`, driven to the end of a source that yields `items` and then
   * ends, or raises when `raises`; `raised` reports that the source's
   * exception reached the consumer.
   */
  method Emit(s: SSEStream, items: seq<Item>, raises: bool, ser: Serialisers) returns (out: seq<string>, raised: bool)
    ensures raised == raises
    ensures out == Frames(s, items, raises, ser)
  {
    var retry := if s.retry.Some? && s.retry.value != 0 then [RetryFrame(s.retry.value)] else [];
    var frames := FormatItems(s, items, ser);
    var end := if Given(s.end) && !raises then [Format(s, Text(s.end.value), Some("end"), ser)] else [];
    out, raised := retry + frames + end, raises;
  }

  lemma {:induction false} ItemFramesAppend(s: SSEStream, items: seq<Item>, x: Item, ser: Serialisers)
    ensures ItemFrames(s, items + [x], ser) == ItemFrames(s, items, ser) + [Format(s, x, None, ser)]
  {
    if items == [] {
      assert items + [x] == [x];
    } else {
      assert (items + [x])[0] == items[0];
      assert (items + [x])[1..] == items[1..] + [x];
      ItemFramesAppend(s, items[1..], x, ser);
    }
  }

  /**
   * Frame `k + r` is the frame of item `k`, where `r` counts the retry frame;
   * the last frame ends the stream when `end` is truthy and the source did not
   * raise, and a raising source gets no end frame.
   */
  lemma FramesInOrder(s: SSEStream, items: seq<Item>, raises: bool, ser: Serialisers)
    ensures var r := if s.retry.Some? && s.retry.value != 0 then 1 else 0;
      var e := if Given(s.end) && !raises then 1 else 0;
      |Frames(s, items, raises, ser)| == r + |items| + e
      && (forall k :: 0 <= k < |items| ==> Frames(s, items, raises, ser)[r + k] == Format(s, items[k], None, ser))
      && (r == 1 ==> Frames(s, items, raises, ser)[0] == RetryFrame(s.retry.value))
      && (e == 1 ==> Frames(s, items, raises, ser)[r + |items|] == Format(s, Text(s.end.value), Some("end"), ser))
  {
    var r := if s.retry.Some? && s.retry.value != 0 then 1 else 0;
    var fs := Frames(s, items, raises, ser);
    forall k | 0 <= k < |items|
      ensures fs[r + k] == Format(s, items[k], None, ser)
    {
      ItemFramesAt(s, items, ser, k);
      assert fs[r + k] == ItemFrames(s, items, ser)[k];
    }
  }

  /**
   * With the default end marker and a source that ends normally, the last
   * event a client receives is `end` with data `[DONE]`.
   */
  lemma DefaultEndEvent(s: SSEStream, items: seq<Item>, raises: bool, ser: Serialisers)
    requires s.end == Some(DefaultEnd)
    ensures var fs := Frames(s, items, raises, ser);
      !raises ==> fs != [] && Decode(fs[|fs| - 1]) == Some(("end", DefaultEnd))
  {
    DecodeFormat(s, Text(DefaultEnd), Some("end"), ser);
  }
}
