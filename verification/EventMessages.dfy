/** From lines to messages (`getMessages`), and the round trip of the event-stream grammar
    of section 9.2.5 of the WHATWG HTML Standard through the chunked reader. */
module EventMessages {
  import opened Prelude
  import opened EventLines

  datatype Message = Message(data: string, event: string, id: string, retry: Option<int>)

  const NEW_MESSAGE := Message("", "", "", None)

  /** The text decoder and `parseInt` (`None` is NaN) are functions we know nothing about. */
  datatype Codec = Codec(decode: seq<Byte> -> string, parseInt: string -> Option<int>)

  /** What the client is told, in order. */
  datatype Call = OnId(id: string) | OnRetry(ms: int) | OnMessage(message: Message)

  /** The open message and the calls made so far. */
  datatype Progress = Progress(message: Message, calls: seq<Call>)

  const BEGIN := Progress(NEW_MESSAGE, [])

  // ----- What one line means

  /** `slice(0, n)` and `slice(n)`, which clip at the end. */
  function Prefix(s: seq<Byte>, n: nat): seq<Byte> {
    if n <= |s| then s[..n] else s
  }

  function Suffix(s: seq<Byte>, n: nat): seq<Byte> {
    if n <= |s| then s[n..] else []
  }

  /** The value part of a line whose first colon is at `colon`: one leading space is dropped. */
  function ValueBytes(line: seq<Byte>, colon: nat): seq<Byte> {
    Suffix(line, colon + if colon + 1 < |line| && line[colon + 1] == SPACE then 2 else 1)
  }

  function WithField(codec: Codec, p: Progress, field: string, value: string): Progress {
    var m := p.message;
    if field == "data" then p.(message := m.(data := if m.data != "" then m.data + "\n" + value else value))
    else if field == "event" then p.(message := m.(event := value))
    else if field == "id" then Progress(m.(id := value), p.calls + [OnId(value)])
    else if field == "retry" && codec.parseInt(value).Some? then
      Progress(m.(retry := codec.parseInt(value)), p.calls + [OnRetry(codec.parseInt(value).value)])
    else p
  }

  function WithLine(codec: Codec, p: Progress, line: Line): Progress {
    if line.bytes == [] then Progress(NEW_MESSAGE, p.calls + [OnMessage(p.message)])
    else if line.fieldLength > 0 then
      WithField(codec, p, codec.decode(Prefix(line.bytes, line.fieldLength)),
                codec.decode(ValueBytes(line.bytes, line.fieldLength)))
    else p
  }

  function WithLines(codec: Codec, p: Progress, lines: seq<Line>): Progress {
    if lines == [] then p else WithLine(codec, WithLines(codec, p, lines[..|lines| - 1]), lines[|lines| - 1])
  }

  function Messages(calls: seq<Call>): seq<Message> {
    if calls == [] then []
    else
      var front := Messages(calls[..|calls| - 1]);
      if calls[|calls| - 1].OnMessage? then front + [calls[|calls| - 1].message] else front
  }

  /** `getMessages`: the closure variable `message` and the three callbacks. */
  class MessageReader {
    const codec: Codec
    var message: Message
    var calls: seq<Call>

    constructor (codec: Codec)
      ensures this.codec == codec && State() == BEGIN
    {
      this.codec := codec;
      message := NEW_MESSAGE;
      calls := [];
    }

    function State(): Progress
      reads this
    {
      Progress(message, calls)
    }

    method OnLine(line: Line)
      modifies this`message, this`calls
      ensures State() == WithLine(codec, old(State()), line)
    {
      if |line.bytes| == 0 {
        calls := calls + [OnMessage(message)];
        message := NEW_MESSAGE;
      } else if line.fieldLength > 0 {
        var field := codec.decode(Prefix(line.bytes, line.fieldLength));
        var space := line.fieldLength + 1 < |line.bytes| && line.bytes[line.fieldLength + 1] == SPACE;
        var valueOffset := line.fieldLength + (if space then 2 else 1);
        var value := codec.decode(Suffix(line.bytes, valueOffset));
        if field == "data" {
          message := message.(data := if message.data != "" then message.data + "\n" + value else value);
        } else if field == "event" {
          message := message.(event := value);
        } else if field == "id" {
          message := message.(id := value);
          calls := calls + [OnId(value)];
        } else if field == "retry" {
          var retry := codec.parseInt(value);
          if retry.Some? {
            message := message.(retry := retry);
            calls := calls + [OnRetry(retry.value)];
          }
        }
      }
    }
  }

  /** All `onLine` calls of a stream. */
  method ReadMessages(codec: Codec, lines: seq<Line>) returns (calls: seq<Call>)
    ensures calls == WithLines(codec, BEGIN, lines).calls
  {
    var reader := new MessageReader(codec);
    for n := 0 to |lines|
      invariant reader.codec == codec && reader.State() == WithLines(codec, BEGIN, lines[..n])
    {
      assert lines[..n + 1][..n] == lines[..n];
      reader.OnLine(lines[n]);
    }
    assert lines[..|lines|] == lines;
    calls := reader.calls;
  }

  /** `getLines(getMessages(...))` over a chunked stream. */
  method Receive(codec: Codec, chunks: seq<seq<Byte>>) returns (messages: seq<Message>, calls: seq<Call>)
    ensures calls == WithLines(codec, BEGIN, Lines(Concat(chunks))).calls
    ensures messages == Messages(calls)
  {
    var lines := ReadLines(chunks);
    calls := ReadMessages(codec, lines);
    messages := Messages(calls);
  }

  // ----- The grammar: streams of events, as lines with a choice of line break each

  datatype Eol = LF | CR | CRLF

  function EolBytes(e: Eol): (bytes: seq<Byte>)
    ensures |bytes| > 0 && IsBreak(bytes[0])
  {
    match e case LF => [NEW_LINE] case CR => [CARRIAGE_RETURN] case CRLF => [CARRIAGE_RETURN, NEW_LINE]
  }

  ghost predicate Plain(s: seq<Byte>) {
    forall i :: 0 <= i < |s| ==> !IsBreak(s[i])
  }

  function WriteLines(ls: seq<seq<Byte>>, eols: seq<Eol>): seq<Byte>
    requires |ls| == |eols|
  {
    if ls == [] then [] else ls[0] + EolBytes(eols[0]) + WriteLines(ls[1..], eols[1..])
  }

  /** A lone CR followed by an empty line ended by LF reads as one CR LF. */
  ghost predicate Unambiguous(ls: seq<seq<Byte>>, eols: seq<Eol>)
    requires |ls| == |eols|
  {
    forall i :: 0 <= i < |ls| - 1 && eols[i] == CR ==> !Swallowed(ls, eols, i + 1)
  }

  ghost predicate Swallowed(ls: seq<seq<Byte>>, eols: seq<Eol>, i: nat)
    requires |ls| == |eols| && i < |ls|
  {
    ls[i] == [] && eols[i] == LF
  }

  function AsLine(s: seq<Byte>): Line {
    Line(s, FirstColon(s))
  }

  function AsLines(ls: seq<seq<Byte>>): (lines: seq<Line>)
    ensures |lines| == |ls|
    ensures forall i :: 0 <= i < |ls| ==> lines[i] == AsLine(ls[i])
  {
    if ls == [] then [] else [AsLine(ls[0])] + AsLines(ls[1..])
  }

  /** Reading a plain line with its line break; a LF that follows a lone CR goes with it. */
  lemma {:induction false} FirstRead(line: seq<Byte>, eol: Eol, rest: seq<Byte>)
    requires Plain(line)
    ensures var s := line + EolBytes(eol) + rest;
      && EndOfLine(s) == |line| < |s| && s[..|line|] == line
      && AfterLine(s, |line|) == if eol == CR && rest != [] && rest[0] == NEW_LINE then rest[1..] else rest
  {
    var s, n := line + EolBytes(eol) + rest, |line|;
    assert forall j :: 0 <= j < n ==> s[j] == line[j];
    assert s[n] == EolBytes(eol)[0];
    assert EndOfLine(s) == n;
    assert s[n + |EolBytes(eol)|..] == rest;
    if eol == CR && rest != [] {
      assert s[n + 1] == rest[0] && s[n + 2..] == rest[1..];
    }
  }

  /** A written stream begins with LF exactly when its first line is swallowed after a CR. */
  lemma {:induction false} WrittenHead(ls: seq<seq<Byte>>, eols: seq<Eol>)
    requires |ls| == |eols| > 0 && Plain(ls[0])
    ensures var s := WriteLines(ls, eols);
      && s != [] && (s[0] == NEW_LINE <==> Swallowed(ls, eols, 0))
      && (Swallowed(ls, eols, 0) ==> s[1..] == WriteLines(ls[1..], eols[1..]))
  {
    var s, rest := WriteLines(ls, eols), WriteLines(ls[1..], eols[1..]);
    if ls[0] == [] {
      assert s == EolBytes(eols[0]) + rest;
    } else {
      assert s[0] == ls[0][0] && !IsBreak(ls[0][0]);
    }
  }

  /** Reading the first written line consumes its line break, and one line more exactly
      when that line is swallowed. */
  lemma {:induction false} FirstWritten(ls: seq<seq<Byte>>, eols: seq<Eol>)
    requires |ls| == |eols| > 0 && forall i :: 0 <= i < |ls| ==> Plain(ls[i])
    ensures var s := WriteLines(ls, eols);
      && EndOfLine(s) == |ls[0]| < |s| && s[..|ls[0]|] == ls[0]
      && AfterLine(s, |ls[0]|) ==
         if eols[0] == CR && |ls| > 1 && Swallowed(ls, eols, 1) then WriteLines(ls[2..], eols[2..])
         else WriteLines(ls[1..], eols[1..])
  {
    FirstRead(ls[0], eols[0], WriteLines(ls[1..], eols[1..]));
    if |ls| > 1 {
      WrittenHead(ls[1..], eols[1..]);
      assert ls[1..][1..] == ls[2..] && eols[1..][1..] == eols[2..];
    }
  }

  /** Written lines are read back exactly when the choice of line breaks is unambiguous;
      otherwise at least one empty line is lost. */
  lemma {:induction false} LinesRoundTrip(ls: seq<seq<Byte>>, eols: seq<Eol>)
    requires |ls| == |eols| && forall i :: 0 <= i < |ls| ==> Plain(ls[i])
    ensures Unambiguous(ls, eols) ==> Lines(WriteLines(ls, eols)) == AsLines(ls)
    ensures !Unambiguous(ls, eols) ==> |Lines(WriteLines(ls, eols))| < |ls|
    decreases |ls|
  {
    if ls != [] {
      FirstWritten(ls, eols);
      if eols[0] == CR && |ls| > 1 && Swallowed(ls, eols, 1) {
        LinesRoundTrip(ls[2..], eols[2..]);
        assert !Unambiguous(ls, eols);
      } else {
        LinesRoundTrip(ls[1..], eols[1..]);
        UnambiguousTail(ls, eols);
      }
    }
  }

  lemma UnambiguousTail(ls: seq<seq<Byte>>, eols: seq<Eol>)
    requires |ls| == |eols| > 0
    requires !(eols[0] == CR && |ls| > 1 && Swallowed(ls, eols, 1))
    ensures Unambiguous(ls, eols) <==> Unambiguous(ls[1..], eols[1..])
  {
    if !Unambiguous(ls, eols) {
      var i :| 0 <= i < |ls| - 1 && eols[i] == CR && Swallowed(ls, eols, i + 1);
      assert eols[1..][i - 1] == CR && Swallowed(ls[1..], eols[1..], i - 1 + 1);
    }
    if !Unambiguous(ls[1..], eols[1..]) {
      var i :| 0 <= i < |ls[1..]| - 1 && eols[1..][i] == CR && Swallowed(ls[1..], eols[1..], i + 1);
      assert eols[i + 1] == CR && Swallowed(ls, eols, i + 1 + 1);
    }
  }

  /** A line of an event: a comment, a name without a colon, or a field. */
  datatype Item =
    | Comment(text: seq<Byte>)
    | Bare(name: seq<Byte>)
    | Field(name: seq<Byte>, space: bool, value: seq<Byte>)

  ghost predicate WellFormed(item: Item) {
    match item
    case Comment(text) => Plain(text)
    case Bare(name) => name != [] && Plain(name) && COLON !in name
    case Field(name, _, value) => name != [] && Plain(name) && COLON !in name && Plain(value)
  }

  function ItemBytes(item: Item): seq<Byte> {
    match item
    case Comment(text) => [COLON] + text
    case Bare(name) => name
    case Field(name, space, value) => name + [COLON] + (if space then [SPACE] else []) + value
  }

  /** The value a written field carries: without a written space, a leading one is taken for it. */
  function Carried(item: Item): seq<Byte>
    requires item.Field?
  {
    if !item.space && item.value != [] && item.value[0] == SPACE then item.value[1..] else item.value
  }

  type Event = seq<Item>

  function EventLinesOf(event: Event): seq<seq<Byte>> {
    if event == [] then [] else EventLinesOf(event[..|event| - 1]) + [ItemBytes(event[|event| - 1])]
  }

  /** Each event is its items and then an empty line. */
  function StreamLines(events: seq<Event>): seq<seq<Byte>> {
    if events == [] then []
    else StreamLines(events[..|events| - 1]) + EventLinesOf(events[|events| - 1]) + [[]]
  }

  // ----- What the events mean, field by field

  /** The decoded values of the fields called `name`, in order. */
  function Values(codec: Codec, event: Event, name: string): seq<string> {
    if event == [] then []
    else
      var front, item := Values(codec, event[..|event| - 1], name), event[|event| - 1];
      if item.Field? && codec.decode(item.name) == name then front + [codec.decode(Carried(item))] else front
  }

  function DropLeadingEmpty(values: seq<string>): seq<string> {
    if values == [] || values[0] != "" then values else DropLeadingEmpty(values[1..])
  }

  function Join(values: seq<string>): string {
    if values == [] then ""
    else if |values| == 1 then values[0]
    else Join(values[..|values| - 1]) + "\n" + values[|values| - 1]
  }

  function Last(values: seq<string>): string {
    if values == [] then "" else values[|values| - 1]
  }

  function LastNumber(codec: Codec, values: seq<string>): Option<int> {
    if values == [] then None
    else
      var n := codec.parseInt(values[|values| - 1]);
      if n.Some? then n else LastNumber(codec, values[..|values| - 1])
  }

  function Meaning(codec: Codec, event: Event): Message {
    Message(Join(DropLeadingEmpty(Values(codec, event, "data"))),
            Last(Values(codec, event, "event")),
            Last(Values(codec, event, "id")),
            LastNumber(codec, Values(codec, event, "retry")))
  }

  lemma ItemIsRead(codec: Codec, item: Item, p: Progress)
    requires WellFormed(item)
    ensures Plain(ItemBytes(item)) && ItemBytes(item) != []
    ensures WithLine(codec, p, AsLine(ItemBytes(item))) ==
      if item.Field? then WithField(codec, p, codec.decode(item.name), codec.decode(Carried(item))) else p
  {
    var s := ItemBytes(item);
    match item
    case Comment(text) => ColonAt(s, 0);
    case Bare(name) => FirstColonIsFirst(s);
    case Field(name, space, value) =>
      assert s[|name|] == COLON && s[..|name|] == name;
      ColonAt(s, |name|);
      ValueIsCarried(item);
  }

  /** A colon with none before it is the first. */
  lemma ColonAt(s: seq<Byte>, n: nat)
    requires n < |s| && s[n] == COLON && COLON !in s[..n]
    ensures FirstColon(s) == n
  {
    FirstColonIsFirst(s);
    assert forall c :: n < c <= |s| ==> s[..c][n] == COLON;
    assert forall c :: 0 <= c < n ==> s[..n][c] == s[c];
  }

  lemma ValueIsCarried(item: Item)
    requires item.Field?
    ensures ValueBytes(ItemBytes(item), |item.name|) == Carried(item)
  {
    var s, n := ItemBytes(item), |item.name| + 1;
    var rest := (if item.space then [SPACE] else []) + item.value;
    assert s == item.name + [COLON] + rest;
    assert s[n..] == rest;
    if rest != [] && rest[0] == SPACE {
      assert s[n] == SPACE && s[n + 1..] == rest[1..];
    }
  }

  lemma {:induction false} JoinSnoc(values: seq<string>, v: string)
    ensures DropLeadingEmpty(values + [v]) ==
      if DropLeadingEmpty(values) != [] then DropLeadingEmpty(values) + [v] else if v == "" then [] else [v]
    ensures Join(DropLeadingEmpty(values)) != "" <==> DropLeadingEmpty(values) != []
    ensures DropLeadingEmpty(values) != [] ==> DropLeadingEmpty(values)[0] != ""
    decreases |values|
  {
    if values == [] {
      assert values + [v] == [v];
      assert v == "" ==> DropLeadingEmpty([v]) == DropLeadingEmpty([v][1..]);
    } else if values[0] == "" {
      JoinSnoc(values[1..], v);
      assert (values + [v])[1..] == values[1..] + [v];
    } else {
      JoinNonEmpty(values);
    }
  }

  lemma {:induction false} JoinNonEmpty(values: seq<string>)
    requires values != [] && values[0] != ""
    ensures Join(values) != ""
    decreases |values|
  {
    if |values| > 1 {
      JoinNonEmpty(values[..|values| - 1]);
    }
  }

  lemma DataSnoc(values: seq<string>, v: string)
    ensures var d := Join(DropLeadingEmpty(values));
      Join(DropLeadingEmpty(values + [v])) == if d != "" then d + "\n" + v else v
  {
    JoinSnoc(values, v);
    var kept := DropLeadingEmpty(values);
    if kept != [] {
      assert (kept + [v])[..|kept|] == kept;
    }
  }

  lemma WithLinesSnoc(codec: Codec, p: Progress, lines: seq<Line>, line: Line)
    ensures WithLines(codec, p, lines + [line]) == WithLine(codec, WithLines(codec, p, lines), line)
  {
    assert (lines + [line])[..|lines|] == lines;
  }

  lemma {:induction false} EventIsPlain(event: Event)
    requires forall i :: 0 <= i < |event| ==> WellFormed(event[i])
    ensures forall i :: 0 <= i < |EventLinesOf(event)| ==> Plain(EventLinesOf(event)[i])
    decreases |event|
  {
    if event != [] {
      EventIsPlain(event[..|event| - 1]);
      var item := event[|event| - 1];
      assert WellFormed(item);
      assert Plain(ItemBytes(item));
    }
  }

  lemma EventSnoc(event: Event)
    requires event != []
    ensures var n := |event| - 1;
      AsLines(EventLinesOf(event)) == AsLines(EventLinesOf(event[..n])) + [AsLine(ItemBytes(event[n]))]
  {
    var n := |event| - 1;
    AsLinesConcat(EventLinesOf(event[..n]), [ItemBytes(event[n])]);
    assert AsLines([ItemBytes(event[n])]) == [AsLine(ItemBytes(event[n]))];
  }

  lemma LinesOfSnoc(codec: Codec, event: Event, p: Progress)
    requires event != []
    ensures var n := |event| - 1;
      WithLines(codec, p, AsLines(EventLinesOf(event)))
      == WithLine(codec, WithLines(codec, p, AsLines(EventLinesOf(event[..n]))), AsLine(ItemBytes(event[n])))
  {
    EventSnoc(event);
    WithLinesSnoc(codec, p, AsLines(EventLinesOf(event[..|event| - 1])), AsLine(ItemBytes(event[|event| - 1])));
  }

  lemma {:induction false} NextItemIsRead(codec: Codec, event: Event, q: Progress, r: Progress)
    requires event != [] && WellFormed(event[|event| - 1])
    requires q.message == Meaning(codec, event[..|event| - 1])
    requires r == WithLine(codec, q, AsLine(ItemBytes(event[|event| - 1])))
    ensures r.message == Meaning(codec, event) && Messages(r.calls) == Messages(q.calls)
  {
    var front, item := event[..|event| - 1], event[|event| - 1];
    ItemIsRead(codec, item, q);
    SnocIsRead(codec, front, item, q);
    assert event == front + [item];
  }

  /** Inside an event, the open message is what the fields so far mean. */
  lemma {:induction false} EventIsRead(codec: Codec, event: Event, p: Progress)
    requires forall i :: 0 <= i < |event| ==> WellFormed(event[i])
    requires p.message == NEW_MESSAGE
    ensures var q := WithLines(codec, p, AsLines(EventLinesOf(event)));
      q.message == Meaning(codec, event) && Messages(q.calls) == Messages(p.calls)
    decreases |event|
  {
    if event != [] {
      var front := event[..|event| - 1];
      EventIsRead(codec, front, p);
      var q, r := WithLines(codec, p, AsLines(EventLinesOf(front))), WithLines(codec, p, AsLines(EventLinesOf(event)));
      LinesOfSnoc(codec, event, p);
      NextItemIsRead(codec, event, q, r);
    }
  }

  lemma ValuesSnoc(codec: Codec, front: Event, item: Item, name: string)
    ensures Values(codec, front + [item], name) ==
      if item.Field? && codec.decode(item.name) == name then Values(codec, front, name) + [codec.decode(Carried(item))]
      else Values(codec, front, name)
  {
    assert (front + [item])[..|front|] == front;
  }

  lemma NumberSnoc(codec: Codec, values: seq<string>, v: string)
    ensures LastNumber(codec, values + [v])
         == if codec.parseInt(v).Some? then codec.parseInt(v) else LastNumber(codec, values)
  {
    assert (values + [v])[..|values|] == values;
  }

  lemma SnocIsRead(codec: Codec, front: Event, item: Item, q: Progress)
    requires q.message == Meaning(codec, front)
    ensures var r := if item.Field? then WithField(codec, q, codec.decode(item.name), codec.decode(Carried(item))) else q;
      r.message == Meaning(codec, front + [item]) && Messages(r.calls) == Messages(q.calls)
  {
    ValuesSnoc(codec, front, item, "data");
    ValuesSnoc(codec, front, item, "event");
    ValuesSnoc(codec, front, item, "id");
    ValuesSnoc(codec, front, item, "retry");
    if item.Field? {
      var v := codec.decode(Carried(item));
      DataSnoc(Values(codec, front, "data"), v);
      NumberSnoc(codec, Values(codec, front, "retry"), v);
      MessagesSnoc(q.calls, OnId(v));
      if codec.parseInt(v).Some? {
        MessagesSnoc(q.calls, OnRetry(codec.parseInt(v).value));
      }
    }
  }

  lemma MessagesSnoc(calls: seq<Call>, call: Call)
    ensures Messages(calls + [call]) == Messages(calls) + (if call.OnMessage? then [call.message] else [])
  {
    assert (calls + [call])[..|calls|] == calls;
  }

  lemma {:induction false} WithLinesConcat(codec: Codec, p: Progress, a: seq<Line>, b: seq<Line>)
    ensures WithLines(codec, p, a + b) == WithLines(codec, WithLines(codec, p, a), b)
    decreases |b|
  {
    if b == [] {
      assert a + b == a;
    } else {
      assert (a + b)[..|a + b| - 1] == a + b[..|b| - 1];
      WithLinesConcat(codec, p, a, b[..|b| - 1]);
    }
  }

  ghost predicate AllWellFormed(events: seq<Event>) {
    forall e, i :: 0 <= e < |events| && 0 <= i < |events[e]| ==> WellFormed(events[e][i])
  }

  function Meanings(codec: Codec, events: seq<Event>): (messages: seq<Message>)
    ensures |messages| == |events|
    ensures forall n :: 0 <= n < |events| ==> messages[n] == Meaning(codec, events[n])
  {
    if events == [] then [] else Meanings(codec, events[..|events| - 1]) + [Meaning(codec, events[|events| - 1])]
  }

  lemma {:induction false} StreamIsPlain(events: seq<Event>)
    requires AllWellFormed(events)
    ensures forall i :: 0 <= i < |StreamLines(events)| ==> Plain(StreamLines(events)[i])
    decreases |events|
  {
    if events != [] {
      StreamIsPlain(events[..|events| - 1]);
      EventIsPlain(events[|events| - 1]);
    }
  }

  lemma AsLinesConcat(a: seq<seq<Byte>>, b: seq<seq<Byte>>)
    ensures AsLines(a + b) == AsLines(a) + AsLines(b)
  {
  }

  lemma {:induction false} StreamIsRead(codec: Codec, events: seq<Event>)
    requires AllWellFormed(events)
    ensures var q := WithLines(codec, BEGIN, AsLines(StreamLines(events)));
      q.message == NEW_MESSAGE && Messages(q.calls) == Meanings(codec, events)
    decreases |events|
  {
    if events != [] {
      var front, event := events[..|events| - 1], events[|events| - 1];
      StreamIsRead(codec, front);
      var before, body := AsLines(StreamLines(front)), AsLines(EventLinesOf(event));
      var p := WithLines(codec, BEGIN, before);
      EventIsRead(codec, event, p);
      var q := WithLines(codec, p, body);
      AsLinesConcat(StreamLines(front), EventLinesOf(event));
      AsLinesConcat(StreamLines(front) + EventLinesOf(event), [[]]);
      assert AsLines([[]]) == [AsLine([])];
      WithLinesConcat(codec, BEGIN, before, body);
      WithLinesSnoc(codec, BEGIN, before + body, AsLine([]));
      MessagesSnoc(q.calls, OnMessage(q.message));
    }
  }

  // ----- Every blank line is a message, and only blank lines are swallowed

  function Blanks(lines: seq<Line>): nat {
    if lines == [] then 0 else Blanks(lines[..|lines| - 1]) + if lines[|lines| - 1].bytes == [] then 1 else 0
  }

  lemma {:induction false} BlanksConcat(a: seq<Line>, b: seq<Line>)
    ensures Blanks(a + b) == Blanks(a) + Blanks(b)
    decreases |b|
  {
    if b == [] {
      assert a + b == a;
    } else {
      assert (a + b)[..|a + b| - 1] == a + b[..|b| - 1];
      BlanksConcat(a, b[..|b| - 1]);
    }
  }

  lemma BlanksCons(line: Line, rest: seq<Line>)
    ensures Blanks([line] + rest) == Blanks(rest) + if line.bytes == [] then 1 else 0
  {
    BlanksConcat([line], rest);
    assert [line][..0] == [];
  }

  lemma LineCalls(codec: Codec, p: Progress, line: Line)
    ensures |Messages(WithLine(codec, p, line).calls)| == |Messages(p.calls)| + if line.bytes == [] then 1 else 0
  {
    var q := WithLine(codec, p, line);
    if q.calls != p.calls {
      assert q.calls == p.calls + [q.calls[|p.calls|]];
      MessagesSnoc(p.calls, q.calls[|p.calls|]);
    }
  }

  /** One message per blank line, whatever the other lines are. */
  lemma {:induction false} MessagePerBlank(codec: Codec, lines: seq<Line>)
    ensures |Messages(WithLines(codec, BEGIN, lines).calls)| == Blanks(lines)
    decreases |lines|
  {
    if lines != [] {
      var front := lines[..|lines| - 1];
      MessagePerBlank(codec, front);
      LineCalls(codec, WithLines(codec, BEGIN, front), lines[|lines| - 1]);
    }
  }

  /** A lone CR ends the first line and an empty line ended by LF follows. */
  ghost predicate SwallowsNext(ls: seq<seq<Byte>>, eols: seq<Eol>)
    requires |ls| == |eols| > 0
  {
    eols[0] == CR && |ls| > 1 && Swallowed(ls, eols, 1)
  }

  lemma {:induction false} BlanksRead(ls: seq<seq<Byte>>, eols: seq<Eol>)
    requires |ls| == |eols| > 0 && forall i :: 0 <= i < |ls| ==> Plain(ls[i])
    ensures var rest := if SwallowsNext(ls, eols) then WriteLines(ls[2..], eols[2..]) else WriteLines(ls[1..], eols[1..]);
      Blanks(Lines(WriteLines(ls, eols))) == Blanks(Lines(rest)) + if ls[0] == [] then 1 else 0
  {
    FirstWritten(ls, eols);
    BlanksCons(AsLine(ls[0]), Lines(AfterLine(WriteLines(ls, eols), |ls[0]|)));
  }

  lemma {:induction false} BlanksWritten(ls: seq<seq<Byte>>)
    requires ls != []
    ensures Blanks(AsLines(ls)) == Blanks(AsLines(ls[1..])) + if ls[0] == [] then 1 else 0
  {
    BlanksCons(AsLine(ls[0]), AsLines(ls[1..]));
  }

  /** Ambiguous line breaks lose blank lines. */
  lemma {:induction false} BlanksLost(ls: seq<seq<Byte>>, eols: seq<Eol>)
    requires |ls| == |eols| && forall i :: 0 <= i < |ls| ==> Plain(ls[i])
    ensures var read, written := Blanks(Lines(WriteLines(ls, eols))), Blanks(AsLines(ls));
      read <= written && (!Unambiguous(ls, eols) ==> read < written)
    decreases |ls|
  {
    if ls != [] {
      BlanksRead(ls, eols);
      BlanksWritten(ls);
      if SwallowsNext(ls, eols) {
        BlanksLost(ls[2..], eols[2..]);
        assert ls[1..][1..] == ls[2..];
        BlanksWritten(ls[1..]);
      } else {
        BlanksLost(ls[1..], eols[1..]);
        UnambiguousTail(ls, eols);
      }
    }
  }

  lemma {:induction false} ItemsAreNotBlank(event: Event)
    requires forall i :: 0 <= i < |event| ==> WellFormed(event[i])
    ensures Blanks(AsLines(EventLinesOf(event))) == 0
    decreases |event|
  {
    if event != [] {
      var front, item := event[..|event| - 1], event[|event| - 1];
      ItemsAreNotBlank(front);
      assert WellFormed(item) && ItemBytes(item) != [];
      AsLinesConcat(EventLinesOf(front), [ItemBytes(item)]);
      BlanksConcat(AsLines(EventLinesOf(front)), AsLines([ItemBytes(item)]));
      BlanksCons(AsLine(ItemBytes(item)), []);
      assert AsLines([ItemBytes(item)]) == [AsLine(ItemBytes(item))] + [];
    }
  }

  lemma {:induction false} BlankPerEvent(events: seq<Event>)
    requires AllWellFormed(events)
    ensures Blanks(AsLines(StreamLines(events))) == |events|
    decreases |events|
  {
    if events != [] {
      var front, event := events[..|events| - 1], events[|events| - 1];
      BlankPerEvent(front);
      ItemsAreNotBlank(event);
      AsLinesConcat(StreamLines(front), EventLinesOf(event));
      BlanksConcat(AsLines(StreamLines(front)), AsLines(EventLinesOf(event)));
      AsLinesConcat(StreamLines(front) + EventLinesOf(event), [[]]);
      BlanksConcat(AsLines(StreamLines(front) + EventLinesOf(event)), AsLines([[]]));
      BlanksCons(AsLine([]), []);
      assert AsLines([[]]) == [AsLine([])] + [];
    }
  }

  // ----- Every callback, in order

  /** What a line of an event tells the client at once: an id, or a numeric retry time. */
  function ItemCalls(codec: Codec, item: Item): seq<Call> {
    if !item.Field? then []
    else
      var name, value := codec.decode(item.name), codec.decode(Carried(item));
      if name == "id" then [OnId(value)]
      else if name == "retry" && codec.parseInt(value).Some? then [OnRetry(codec.parseInt(value).value)]
      else []
  }

  function EventCalls(codec: Codec, event: Event): seq<Call> {
    if event == [] then [] else EventCalls(codec, event[..|event| - 1]) + ItemCalls(codec, event[|event| - 1])
  }

  function StreamCalls(codec: Codec, events: seq<Event>): seq<Call> {
    if events == [] then []
    else
      var event := events[|events| - 1];
      StreamCalls(codec, events[..|events| - 1]) + EventCalls(codec, event) + [OnMessage(Meaning(codec, event))]
  }

  lemma ItemMakesCalls(codec: Codec, item: Item, q: Progress)
    requires WellFormed(item)
    ensures WithLine(codec, q, AsLine(ItemBytes(item))).calls == q.calls + ItemCalls(codec, item)
  {
    ItemIsRead(codec, item, q);
  }

  lemma SnocMakesCalls(codec: Codec, front: Event, item: Item, before: seq<Call>, q: Progress)
    requires WellFormed(item) && q.calls == before + EventCalls(codec, front)
    ensures WithLine(codec, q, AsLine(ItemBytes(item))).calls == before + EventCalls(codec, front + [item])
  {
    ItemMakesCalls(codec, item, q);
    assert (front + [item])[..|front|] == front;
    assert before + EventCalls(codec, front) + ItemCalls(codec, item)
        == before + (EventCalls(codec, front) + ItemCalls(codec, item));
  }

  lemma {:induction false} NextItemCalls(codec: Codec, event: Event, q: Progress, r: Progress, before: seq<Call>)
    requires event != [] && WellFormed(event[|event| - 1])
    requires q.calls == before + EventCalls(codec, event[..|event| - 1])
    requires r == WithLine(codec, q, AsLine(ItemBytes(event[|event| - 1])))
    ensures r.calls == before + EventCalls(codec, event)
  {
    var front, item := event[..|event| - 1], event[|event| - 1];
    SnocMakesCalls(codec, front, item, before, q);
    assert event == front + [item];
  }

  lemma {:induction false} EventMakesCalls(codec: Codec, event: Event, p: Progress)
    requires forall i :: 0 <= i < |event| ==> WellFormed(event[i])
    ensures WithLines(codec, p, AsLines(EventLinesOf(event))).calls == p.calls + EventCalls(codec, event)
    decreases |event|
  {
    if event == [] {
      NoCalls(codec, p);
    } else {
      var front := event[..|event| - 1];
      EventMakesCalls(codec, front, p);
      var q, r := WithLines(codec, p, AsLines(EventLinesOf(front))), WithLines(codec, p, AsLines(EventLinesOf(event)));
      LinesOfSnoc(codec, event, p);
      NextItemCalls(codec, event, q, r, p.calls);
    }
  }

  lemma NoCalls(codec: Codec, p: Progress)
    ensures WithLines(codec, p, AsLines(EventLinesOf([]))).calls == p.calls + EventCalls(codec, [])
  {
    assert p.calls + [] == p.calls;
  }

  /** The calls of a whole stream: each id and each retry time as it is read, and each event's
      message at its end, in the order written. */
  lemma {:induction false} StreamMakesCalls(codec: Codec, events: seq<Event>)
    requires AllWellFormed(events)
    ensures WithLines(codec, BEGIN, AsLines(StreamLines(events))).calls == StreamCalls(codec, events)
    decreases |events|
  {
    if events != [] {
      var front, event := events[..|events| - 1], events[|events| - 1];
      StreamMakesCalls(codec, front);
      StreamIsRead(codec, front);
      var before, body := AsLines(StreamLines(front)), AsLines(EventLinesOf(event));
      var p := WithLines(codec, BEGIN, before);
      EventMakesCalls(codec, event, p);
      EventIsRead(codec, event, p);
      AsLinesConcat(StreamLines(front), EventLinesOf(event));
      AsLinesConcat(StreamLines(front) + EventLinesOf(event), [[]]);
      assert AsLines([[]]) == [AsLine([])];
      WithLinesConcat(codec, BEGIN, before, body);
      WithLinesSnoc(codec, BEGIN, before + body, AsLine([]));
    }
  }

  /** The round trip: events received in any chunking give one message per event, each with the
      event's meaning, if and only if they were written with unambiguous line breaks; then the
      client is also told every id and retry time, in order. Otherwise there are fewer messages
      than events. */
  method RoundTrip(codec: Codec, events: seq<Event>, eols: seq<Eol>, chunks: seq<seq<Byte>>)
    returns (messages: seq<Message>, calls: seq<Call>)
    requires AllWellFormed(events)
    requires |eols| == |StreamLines(events)|
    requires Concat(chunks) == WriteLines(StreamLines(events), eols)
    ensures messages == Meanings(codec, events) <==> Unambiguous(StreamLines(events), eols)
    ensures Unambiguous(StreamLines(events), eols) ==> calls == StreamCalls(codec, events)
    ensures !Unambiguous(StreamLines(events), eols) ==> |messages| < |events|
  {
    StreamIsPlain(events);
    StreamIsRead(codec, events);
    StreamMakesCalls(codec, events);
    LinesRoundTrip(StreamLines(events), eols);
    BlanksLost(StreamLines(events), eols);
    BlankPerEvent(events);
    MessagePerBlank(codec, Lines(Concat(chunks)));
    messages, calls := Receive(codec, chunks);
  }
}
