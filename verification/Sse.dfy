/** The incremental event-stream parser of chat/src/sse.ts and the frames that openSse of
    runner/runtime/wire.ts writes. */
module Sse {
  import opened Sequences
  import opened Options

  const LF: char := '\n'
  const CR: char := '\r'
  const DATA: string := "data:"

  /** The parser's fields: the unfinished line, and the data lines of the unfinished message. */
  datatype Parser = Parser(tail: string, data: seq<string>)

  const START := Parser("", [])

  function Join(parts: seq<string>): string {
    if parts == [] then "" else if |parts| == 1 then parts[0] else Join(parts[..|parts| - 1]) + [LF] + parts[|parts| - 1]
  }

  /** `split("\n")` */
  function Lines(s: string): (lines: seq<string>)
    ensures lines != []
    ensures forall i :: 0 <= i < |lines| ==> LF !in lines[i]
  {
    if s == "" then [""]
    else
      var rest := Lines(s[1..]);
      if s[0] == LF then [""] + rest else [[s[0]] + rest[0]] + rest[1..]
  }

  function Trim(line: string): string {
    if line != "" && line[|line| - 1] == CR then line[..|line| - 1] else line
  }

  /** pushData's value of a data line */
  function Value(line: string): string
    requires DATA <= line
  {
    if |line| > 5 && line[5] == ' ' then line[6..] else line[5..]
  }

  /** The data lines still waiting, and the messages that ended. */
  datatype Taken = Taken(data: seq<string>, out: seq<string>)

  /** One complete line: a blank one ends the message, a data line joins it, any other is ignored. */
  function Take(data: seq<string>, raw: string): Taken {
    var line := Trim(raw);
    if line == "" then Taken([], if data == [] then [] else [Join(data)])
    else if DATA <= line then Taken(data + [Value(line)], [])
    else Taken(data, [])
  }

  function TakeAll(data: seq<string>, lines: seq<string>): Taken
    decreases |lines|
  {
    if lines == [] then Taken(data, [])
    else
      var t := Take(data, lines[0]);
      var more := TakeAll(t.data, lines[1..]);
      Taken(more.data, t.out + more.out)
  }

  datatype Fed = Fed(p: Parser, out: seq<string>)

  /** feed */
  function Feed(p: Parser, chunk: string): Fed {
    var lines := Lines(p.tail + chunk);
    var t := TakeAll(p.data, lines[..|lines| - 1]);
    Fed(Parser(lines[|lines| - 1], t.data), t.out)
  }

  /** flush */
  function Flush(p: Parser): (Parser, Option<string>) {
    var line := Trim(p.tail);
    var data := if DATA <= line then p.data + [Value(line)] else p.data;
    (START, if data == [] then None else Some(Join(data)))
  }

  function FeedAll(p: Parser, chunks: seq<string>): Fed
    decreases |chunks|
  {
    if chunks == [] then Fed(p, [])
    else
      var first := Feed(p, chunks[0]);
      var more := FeedAll(first.p, chunks[1..]);
      Fed(more.p, first.out + more.out)
  }

  function Concat(chunks: seq<string>): string {
    if chunks == [] then "" else chunks[0] + Concat(chunks[1..])
  }

  // ---------------------------------------------------------------- the class

  class SSEParser {
    var tail: string
    var dataBuf: seq<string>

    ghost function View(): Parser
      reads this
    {
      Parser(tail, dataBuf)
    }

    constructor ()
      ensures View() == START
    {
      tail, dataBuf := "", [];
    }

    method PushData(line: string)
      requires DATA <= line
      modifies this`dataBuf
      ensures dataBuf == old(dataBuf) + [Value(line)]
    {
      var v := line[5..];
      if v != "" && v[0] == ' ' {
        v := v[1..];
      }
      dataBuf := dataBuf + [v];
    }

    method FeedChunk(chunk: string) returns (out: seq<string>)
      modifies this
      ensures Fed(View(), out) == old(Feed(View(), chunk))
    {
      out := [];
      var all := Lines(tail + chunk);
      var lines := all[..|all| - 1];
      ghost var whole := TakeAll(dataBuf, lines);
      assert lines[0..] == lines && [] + whole.out == whole.out;
      tail := all[|all| - 1];
      var i := 0;
      while i < |lines|
        invariant i <= |lines| && tail == all[|all| - 1]
        invariant TakeAll(dataBuf, lines[i..]).data == whole.data
        invariant out + TakeAll(dataBuf, lines[i..]).out == whole.out
      {
        assert lines[i..][1..] == lines[i + 1..];
        ghost var t := Take(dataBuf, lines[i]);
        Associate(out, t.out, TakeAll(t.data, lines[i + 1..]).out);
        hide *;
        var more := TakeLine(lines[i]);
        out := out + more;
        i := i + 1;
      }
    }

    /** One turn of the loop: the message that this line ends, if it ends one. */
    method TakeLine(raw: string) returns (out: seq<string>)
      modifies this`dataBuf
      ensures Taken(dataBuf, out) == old(Take(dataBuf, raw))
    {
      out := [];
      var line := raw;
      if line != "" && line[|line| - 1] == CR {
        line := line[..|line| - 1];
      }
      if line == "" {
        if dataBuf != [] {
          out := [Join(dataBuf)];
          dataBuf := [];
        }
      } else if DATA <= line {
        PushData(line);
      }
    }

    method FlushTail() returns (message: Option<string>)
      modifies this
      ensures (View(), message) == old(Flush(View()))
    {
      var line := tail;
      tail := "";
      if line != "" && line[|line| - 1] == CR {
        line := line[..|line| - 1];
      }
      if DATA <= line {
        PushData(line);
      }
      if dataBuf == [] {
        return None;
      }
      message := Some(Join(dataBuf));
      dataBuf := [];
    }
  }

  // ---------------------------------------------------------------- one character at a time

  /** The reference: a line ends at every line feed, wherever the chunks end. */
  function Char(p: Parser, c: char): Fed {
    if c == LF then Fed(Parser("", Take(p.data, p.tail).data), Take(p.data, p.tail).out) else Fed(Parser(p.tail + [c], p.data), [])
  }

  function Chars(p: Parser, text: string): Fed
    decreases |text|
  {
    if text == "" then Fed(p, [])
    else
      var first := Char(p, text[0]);
      var more := Chars(first.p, text[1..]);
      Fed(more.p, first.out + more.out)
  }

  lemma {:induction false} LinesBefore(head: string, rest: string)
    requires LF !in head
    ensures Lines(head + rest) == [head + Lines(rest)[0]] + Lines(rest)[1..]
  {
    if head == "" {
      assert head + rest == rest && head + Lines(rest)[0] == Lines(rest)[0];
      assert Lines(rest) == [Lines(rest)[0]] + Lines(rest)[1..];
    } else {
      assert (head + rest)[1..] == head[1..] + rest && (head + rest)[0] == head[0];
      LinesBefore(head[1..], rest);
      var inner := Lines(head[1..] + rest);
      assert [head[0]] + (head[1..] + Lines(rest)[0]) == head + Lines(rest)[0];
      assert Lines(head + rest) == [[head[0]] + inner[0]] + inner[1..];
    }
  }

  lemma LinesTail(tail: string)
    requires LF !in tail
    ensures Lines(tail) == [tail]
  {
    LinesBefore(tail, "");
    assert tail + "" == tail;
  }

  /** feed computes what the reference does with the chunk's characters. */
  lemma {:induction false} FeedIsChars(p: Parser, chunk: string)
    requires LF !in p.tail
    ensures Feed(p, chunk) == Chars(p, chunk)
    ensures LF !in Feed(p, chunk).p.tail
    decreases |chunk|
  {
    if chunk == "" {
      LinesTail(p.tail);
      assert p.tail + chunk == p.tail;
      assert [p.tail][..0] == [];
    } else {
      var rest := chunk[1..];
      assert chunk == [chunk[0]] + rest;
      FeedIsChars(Char(p, chunk[0]).p, rest);
      if chunk[0] == LF {
        LineEnds(p, rest);
      } else {
        assert p.tail + chunk == p.tail + [chunk[0]] + rest;
        assert [] + Feed(Char(p, chunk[0]).p, rest).out == Feed(Char(p, chunk[0]).p, rest).out;
      }
    }
  }

  lemma LineEnds(p: Parser, rest: string)
    requires LF !in p.tail
    ensures var first := Char(p, LF);
      var more := Feed(first.p, rest);
      Feed(p, [LF] + rest) == Fed(more.p, first.out + more.out)
  {
    var lines := Lines(rest);
    var all := Lines(p.tail + ([LF] + rest));
    assert ([LF] + rest)[1..] == rest;
    LinesBefore(p.tail, [LF] + rest);
    assert p.tail + "" == p.tail && all == [p.tail] + lines;
    assert "" + rest == rest;
    assert all[..|all| - 1] == [p.tail] + lines[..|lines| - 1];
    assert all[..|all| - 1][1..] == lines[..|lines| - 1];
  }

  lemma {:induction false} CharsAppend(p: Parser, a: string, b: string)
    ensures var first := Chars(p, a);
      var more := Chars(first.p, b);
      Chars(p, a + b) == Fed(more.p, first.out + more.out)
    decreases |a|
  {
    if a == "" {
      assert a + b == b;
    } else {
      CharsStep(p, a, b);
      CharsStep(p, a, "");
      assert a + "" == a && a[1..] + "" == a[1..];
      hide Chars, Char;
      var first := Char(p, a[0]);
      CharsAppend(first.p, a[1..], b);
      var rest := Chars(first.p, a[1..]);
      Associate(first.out, rest.out, Chars(rest.p, b).out);
    }
  }

  lemma CharsStep(p: Parser, a: string, b: string)
    requires a != ""
    ensures var first := Char(p, a[0]);
      var more := Chars(first.p, a[1..] + b);
      Chars(p, a + b) == Fed(more.p, first.out + more.out)
  {
    assert (a + b)[1..] == a[1..] + b && (a + b)[0] == a[0];
    hide Char;
  }

  /** However the text is cut into chunks, the messages and the state are those of the whole text. */
  lemma {:induction false} Chunking(p: Parser, chunks: seq<string>)
    requires LF !in p.tail
    ensures FeedAll(p, chunks) == Feed(p, Concat(chunks))
    decreases |chunks|
  {
    FeedIsChars(p, Concat(chunks));
    if chunks != [] {
      FeedIsChars(p, chunks[0]);
      var p1 := Feed(p, chunks[0]).p;
      Chunking(p1, chunks[1..]);
      FeedIsChars(p1, Concat(chunks[1..]));
      CharsAppend(p, chunks[0], Concat(chunks[1..]));
    }
  }

  /** A stream cut short yields a prefix of the whole stream's messages. */
  lemma CutShort(p: Parser, a: string, b: string)
    requires LF !in p.tail
    ensures Feed(p, a).out <= Feed(p, a + b).out
  {
    FeedIsChars(p, a);
    FeedIsChars(p, a + b);
    CharsAppend(p, a, b);
  }

  // ---------------------------------------------------------------- the server's frames

  datatype Item = Frame(payload: string) | Heartbeat

  /** What openSse writes: `send` and the timer's comment line. */
  function Write(item: Item): string {
    match item
    case Frame(payload) => "data: " + payload + [LF, LF]
    case Heartbeat => ":hb" + [LF, LF]
  }

  function Text(items: seq<Item>): string {
    if items == [] then "" else Write(items[0]) + Text(items[1..])
  }

  function Sent(item: Item): seq<string> {
    match item
    case Frame(payload) => [payload]
    case Heartbeat => []
  }

  function Payloads(items: seq<Item>): seq<string> {
    if items == [] then []
    else Sent(items[0]) + Payloads(items[1..])
  }

  /** A payload on one line whose end is its own. */
  predicate Single(payload: string) {
    LF !in payload && (payload == "" || payload[|payload| - 1] != CR)
  }

  lemma {:induction false} PlainChars(p: Parser, s: string)
    requires LF !in s
    ensures Chars(p, s) == Fed(Parser(p.tail + s, p.data), [])
    decreases |s|
  {
    if s == "" {
      assert p.tail + s == p.tail;
    } else {
      PlainChars(Char(p, s[0]).p, s[1..]);
      assert p.tail + [s[0]] + s[1..] == p.tail + s;
    }
  }

  lemma CharsOne(p: Parser, c: char)
    ensures Chars(p, [c]) == Char(p, c)
  {
    var first := Char(p, c);
    assert [c][1..] == "" && first.out + [] == first.out;
  }

  /** A line, and the line feed that ends it. */
  lemma LineChars(data: seq<string>, line: string)
    requires LF !in line
    ensures Chars(Parser("", data), line + [LF]) == Fed(Parser("", Take(data, line).data), Take(data, line).out)
  {
    PlainChars(Parser("", data), line);
    assert "" + line == line;
    CharsAppend(Parser("", data), line, [LF]);
    CharsOne(Parser(line, data), LF);
    assert [] + Take(data, line).out == Take(data, line).out;
  }

  /** A line that ends no message, and a blank one. */
  lemma TwoLines(line: string)
    requires LF !in line && Take([], line).out == []
    ensures Chars(START, line + [LF, LF]) == Fed(START, Take(Take([], line).data, "").out)
  {
    var t := Take([], line);
    LineChars([], line);
    LineChars(t.data, "");
    CharsAppend(START, line + [LF], "" + [LF]);
    assert line + [LF] + ("" + [LF]) == line + [LF, LF];
    assert [] + Take(t.data, "").out == Take(t.data, "").out;
  }

  /** A single-line frame between messages is one message, and a heartbeat is none. */
  lemma ItemReads(item: Item)
    requires item.Frame? ==> Single(item.payload)
    ensures Chars(START, Write(item)) == Fed(START, Sent(item))
  {
    match item
    case Frame(payload) =>
      FrameTaken(payload);
      assert Take([payload], "").out == [Join([payload])] == Sent(item);
      hide Take, Sent;
      TwoLines("data: " + payload);
    case Heartbeat =>
      assert Take([], ":hb") == Taken([], []);
      TwoLines(":hb");
  }

  lemma FrameTaken(payload: string)
    requires Single(payload)
    ensures LF !in "data: " + payload && Take([], "data: " + payload) == Taken([payload], [])
  {
    var line := "data: " + payload;
    assert line[6..] == payload;
    assert Trim(line) == line && Value(line) == payload;
    assert [] + [payload] == [payload];
  }

  // ---------------------------------------------------------------- exactly the single-line payloads

  function Sizes(messages: seq<string>): nat {
    if messages == [] then 0 else |messages[0]| + Sizes(messages[1..])
  }

  lemma {:induction false} SizesAppend(a: seq<string>, b: seq<string>)
    ensures Sizes(a + b) == Sizes(a) + Sizes(b)
  {
    if a == [] {
      assert a + b == b;
    } else {
      assert (a + b)[1..] == a[1..] + b;
      SizesAppend(a[1..], b);
    }
  }

  /** A line adds at most its own length to the messages made and in the making. */
  lemma TakeBound(data: seq<string>, line: string)
    ensures var t := Take(data, line); Sizes(t.out) + |Join(t.data)| <= |Join(data)| + |line|
  {
    var trimmed := Trim(line);
    if trimmed == "" {
      assert data != [] ==> Sizes([Join(data)]) == |Join(data)| + Sizes([Join(data)][1..]);
    } else if DATA <= trimmed {
      var d := data + [Value(trimmed)];
      assert d[..|d| - 1] == data;
    }
  }

  /** So do characters, line feeds not counted. */
  function Weight(text: string): nat {
    if text == "" then 0 else (if text[0] == LF then 0 else 1) + Weight(text[1..])
  }

  lemma {:induction false} CharsBound(p: Parser, text: string)
    ensures var r := Chars(p, text);
      Sizes(r.out) + |Join(r.p.data)| + |r.p.tail| <= |Join(p.data)| + |p.tail| + Weight(text)
    decreases |text|
  {
    if text != "" {
      TakeBound(p.data, p.tail);
      var first := Char(p, text[0]);
      CharsBound(first.p, text[1..]);
      SizesAppend(first.out, Chars(first.p, text[1..]).out);
    }
  }

  lemma {:induction false} WeightIs(text: string)
    ensures Weight(text) <= |text|
    ensures Weight(text) == |text| <==> LF !in text
  {
    if text != "" {
      WeightIs(text[1..]);
    }
  }

  lemma {:induction false} WeightAppend(a: string, b: string)
    ensures Weight(a + b) == Weight(a) + Weight(b)
  {
    if a == "" {
      assert a + b == b;
    } else {
      assert (a + b)[1..] == a[1..] + b;
      WeightAppend(a[1..], b);
    }
  }

  /** A payload that is not single comes out shorter. */
  lemma FrameShrinks(payload: string)
    requires !Single(payload)
    ensures Sizes(Chars(START, Write(Frame(payload))).out) < |payload|
  {
    var i := FirstLine(payload);
    if i == |payload| {
      assert payload[..i] == payload;
      CutShrinks(payload);
    } else {
      assert payload == payload[..i] + [LF] + payload[i + 1..];
      BreakShrinks(payload[..i], payload[i + 1..]);
    }
  }

  /** A carriage return at the end is lost. */
  lemma CutShrinks(payload: string)
    requires LF !in payload && payload != "" && payload[|payload| - 1] == CR
    ensures Sizes(Chars(START, Write(Frame(payload))).out) < |payload|
  {
    var line := "data: " + payload;
    FirstLineTaken(payload);
    var d := Take([], line).data;
    assert Join(d) == d[0];
    TakeBound(d, "");
    hide Take, Chars, Join;
    TwoLines(line);
  }

  /** A line feed inside is lost. */
  lemma BreakShrinks(first: string, more: string)
    requires LF !in first
    ensures Sizes(Chars(START, Write(Frame(first + [LF] + more))).out) < |first| + 1 + |more|
  {
    var line, after := "data: " + first, more + [LF, LF];
    FirstLineTaken(first);
    var d := Take([], line).data;
    assert Join(d) == d[0];
    assert Write(Frame(first + [LF] + more)) == line + [LF] + after;
    hide Take, Chars, Join, Weight;
    LineChars([], line);
    CharsAppend(START, line + [LF], after);
    CharsBound(Parser("", d), after);
    assert [] + Chars(Parser("", d), after).out == Chars(Parser("", d), after).out;
    TailWeight(more);
  }

  lemma TailWeight(more: string)
    ensures Weight(more + [LF, LF]) <= |more|
  {
    WeightAppend(more, [LF, LF]);
    WeightIs(more);
    assert Weight([LF, LF]) == Weight([LF, LF][1..]) && Weight([LF, LF][1..]) == Weight([LF, LF][1..][1..]);
  }

  function FirstLine(s: string): (i: nat)
    ensures i <= |s| && LF !in s[..i] && (i < |s| ==> s[i] == LF)
    ensures i == |s| <==> LF !in s
  {
    if s == "" || s[0] == LF then 0
    else
      var i := FirstLine(s[1..]);
      assert s[..i + 1] == [s[0]] + s[1..][..i];
      i + 1
  }

  lemma FirstLineTaken(first: string)
    ensures var t := Take([], "data: " + first);
      && t.out == [] && |t.data| == 1 && |t.data[0]| <= |first|
      && (first != "" && first[|first| - 1] == CR ==> |t.data[0]| < |first|)
  {
    var line := "data: " + first;
    assert line[..|line| - 1] == if first == "" then "data:" else "data: " + first[..|first| - 1];
    assert DATA <= Trim(line);
  }

  /** Every frame ends a message: the parser stands as it began. */
  lemma FrameEnds(payload: string)
    ensures Chars(START, Write(Frame(payload))).p == START
  {
    var head := "data: " + payload;
    CharsAppend(START, head, [LF, LF]);
    var p := Chars(START, head).p;
    assert [LF, LF] == [LF] + [LF];
    CharsAppend(p, [LF], [LF]);
    CharsOne(p, LF);
    CharsOne(Char(p, LF).p, LF);
  }

  /** The messages of a stream of frames and heartbeats, cut into chunks anywhere, are the payloads that
      were sent, and nothing is left over, exactly when every payload is a single line. */
  lemma FramesRead(items: seq<Item>, chunks: seq<string>)
    requires Concat(chunks) == Text(items)
    ensures var r := FeedAll(START, chunks);
      && r.p == START && Flush(r.p).1 == None
      && (r.out == Payloads(items) <==> forall i :: 0 <= i < |items| && items[i].Frame? ==> Single(items[i].payload))
  {
    Chunking(START, chunks);
    FeedIsChars(START, Text(items));
    ItemsRead(items);
  }

  predicate AllSingle(items: seq<Item>) {
    forall i :: 0 <= i < |items| && items[i].Frame? ==> Single(items[i].payload)
  }

  lemma {:induction false} ItemsRead(items: seq<Item>)
    ensures var r := Chars(START, Text(items));
      && r.p == START && (AllSingle(items) ==> r.out == Payloads(items))
      && Sizes(r.out) <= Sizes(Payloads(items))
      && (!AllSingle(items) ==> Sizes(r.out) < Sizes(Payloads(items)))
  {
    if items != [] {
      var item, rest := items[0], items[1..];
      ItemsRead(rest);
      ItemOut(item);
      AllSingleMore(items);
      CharsAppend(START, Write(item), Text(rest));
      SizesAppend(Sent(item), Payloads(rest));
      SizesAppend(Chars(START, Write(item)).out, Chars(START, Text(rest)).out);
      hide Chars, AllSingle, Sent, Write, Sizes;
    }
  }

  lemma AllSingleMore(items: seq<Item>)
    requires items != []
    ensures AllSingle(items) <==> AllSingle([items[0]]) && AllSingle(items[1..])
  {
    hide Single;
    assert items == [items[0]] + items[1..];
  }

  /** One item by itself. */
  lemma ItemOut(item: Item)
    ensures var r := Chars(START, Write(item));
      && r.p == START && (AllSingle([item]) ==> r.out == Sent(item))
      && Sizes(r.out) <= Sizes(Sent(item))
      && (!AllSingle([item]) ==> Sizes(r.out) < Sizes(Sent(item)))
  {
    assert AllSingle([item]) <==> (item.Frame? ==> Single(item.payload)) by {
      assert [item][0] == item;
    }
    if item.Frame? && !Single(item.payload) {
      FrameShrinks(item.payload);
      FrameEnds(item.payload);
      assert [item.payload][1..] == [] && Sizes([item.payload]) == |item.payload|;
    } else {
      ItemReads(item);
    }
  }
}
