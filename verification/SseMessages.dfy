/** Messages of several lines, and what the end of a stream still yields. */
module SseMessages {
  import opened Sequences
  import opened Options
  import opened Sse

  // ---------------------------------------------------------------- the end of the stream

  function Maybe(m: Option<string>): seq<string> {
    match m
    case Some(v) => [v]
    case None => []
  }

  /** At the end of a stream comes what two line feeds would have ended, and the parser starts afresh. */
  lemma FlushIs(p: Parser)
    requires LF !in p.tail
    ensures Feed(p, [LF, LF]).out == Maybe(Flush(p).1) && Feed(p, [LF, LF]).p == Flush(p).0 == START
  {
    var t := Take(p.data, p.tail);
    TailTaken(p);
    hide Flush, Take, Feed, Join;
    FeedIsChars(p, [LF, LF]);
    assert [LF, LF] == [LF] + [LF];
    CharsAppend(p, [LF], [LF]);
    CharsOne(p, LF);
    CharsOne(Char(p, LF).p, LF);
    hide Chars;
  }

  lemma TailTaken(p: Parser)
    ensures var t := Take(p.data, p.tail); var end := Take(t.data, "");
      end.data == [] && t.out + end.out == Maybe(Flush(p).1) && Flush(p).0 == START
  {
  }

  /** However a text is cut, feeding it and then flushing yields the messages of the text followed by two
      line feeds. */
  lemma FlushedWhole(chunks: seq<string>)
    ensures var r := FeedAll(START, chunks);
      r.out + Maybe(Flush(r.p).1) == Feed(START, Concat(chunks) + [LF, LF]).out
  {
    var text := Concat(chunks);
    Chunking(START, chunks);
    FeedIsChars(START, text);
    var p := Feed(START, text).p;
    FlushIs(p);
    FeedIsChars(p, [LF, LF]);
    FeedIsChars(START, text + [LF, LF]);
    CharsAppend(START, text, [LF, LF]);
  }

  // ---------------------------------------------------------------- messages of several lines

  /** A line of a message as a server may write it: data, with or without the space; or a comment or field
      that is no data. Either may end in a carriage return besides the line feed. */
  datatype Field = Datum(v: string, space: bool, cr: bool) | Noise(text: string, cr: bool)

  function Ending(cr: bool): string {
    if cr then [CR] else ""
  }

  function Line(f: Field): string {
    match f
    case Datum(v, space, cr) => "data:" + (if space then " " else "") + v + Ending(cr)
    case Noise(text, cr) => text + Ending(cr)
  }

  /** The last character is its own. */
  predicate Plain(s: string) {
    LF !in s && (s == "" || s[|s| - 1] != CR)
  }

  /** What stands on the line can be told from the line. */
  predicate Fit(f: Field) {
    match f
    case Datum(v, space, cr) => LF !in v && (cr || Plain(v)) && (space || v == "" || v[0] != ' ')
    case Noise(text, cr) => text != "" && LF !in text && !("data:" <= text) && (cr || Plain(text))
  }

  function Wire(fields: seq<Field>): string {
    if fields == [] then "" else Line(fields[0]) + [LF] + Wire(fields[1..])
  }

  function Values(fields: seq<Field>): seq<string> {
    if fields == [] then [] else (if fields[0].Datum? then [fields[0].v] else []) + Values(fields[1..])
  }

  lemma FieldTaken(data: seq<string>, f: Field)
    requires Fit(f)
    ensures LF !in Line(f)
    ensures Take(data, Line(f)) == Taken(if f.Datum? then data + [f.v] else data, [])
  {
    var line := Line(f);
    match f
    case Datum(v, space, cr) =>
      var bare := "data:" + (if space then " " else "") + v;
      Trimmed(bare, cr);
      assert Trim(line) == bare && bare[..5] == DATA;
      assert Value(bare) == v by {
        if space { assert bare[6..] == v; } else { assert bare[5..] == v; }
      }
    case Noise(text, cr) =>
      Trimmed(text, cr);
  }

  lemma Trimmed(s: string, cr: bool)
    requires s != "" && (cr || s[|s| - 1] != CR)
    ensures Trim(s + Ending(cr)) == s
  {
    if cr {
      assert (s + [CR])[..|s|] == s;
    } else {
      assert s + "" == s;
    }
  }

  lemma {:induction false} FieldsTaken(data: seq<string>, fields: seq<Field>)
    requires forall i :: 0 <= i < |fields| ==> Fit(fields[i])
    ensures Chars(Parser("", data), Wire(fields)) == Fed(Parser("", data + Values(fields)), [])
    decreases |fields|
  {
    if fields == [] {
      assert data + [] == data;
    } else {
      var f, rest := fields[0], fields[1..];
      var next := if f.Datum? then data + [f.v] else data;
      assert next + Values(rest) == data + Values(fields);
      assert Wire(fields) == Line(f) + [LF] + Wire(rest);
      hide Chars, Fit, Line, Take, Wire, Values;
      FieldsTaken(next, rest);
      FieldTaken(data, f);
      LineChars(data, Line(f));
      CharsAppend(Parser("", data), Line(f) + [LF], Wire(rest));
    }
  }

  lemma {:induction false} JoinMore(parts: seq<string>, last: string)
    requires parts != []
    ensures Join(parts + [last]) == Join(parts) + [LF] + last
  {
    assert (parts + [last])[..|parts|] == parts;
  }

  lemma {:induction false} LinesEnd(s: string, last: string)
    requires LF !in last
    ensures Lines(s + [LF] + last) == Lines(s) + [last]
    decreases |s|
  {
    if s == "" {
      assert (s + [LF] + last)[1..] == last && (s + [LF] + last)[0] == LF;
      LinesTail(last);
      assert [""] + [last] == Lines(s) + [last];
    } else {
      var t := s[1..];
      assert (s + [LF] + last)[1..] == t + [LF] + last && (s + [LF] + last)[0] == s[0];
      LinesEnd(t, last);
      var rest, all := Lines(t), Lines(t) + [last];
      assert all[0] == rest[0] && all[1..] == rest[1..] + [last];
      if s[0] == LF {
        assert [""] + all == ([""] + rest) + [last];
      } else {
        assert [[s[0]] + all[0]] + all[1..] == ([[s[0]] + rest[0]] + rest[1..]) + [last];
      }
    }
  }

  /** Joined lines split into those lines again. */
  lemma {:induction false} JoinSplits(parts: seq<string>)
    requires parts != [] && forall i :: 0 <= i < |parts| ==> LF !in parts[i]
    ensures Lines(Join(parts)) == parts
    decreases |parts|
  {
    if |parts| == 1 {
      LinesTail(parts[0]);
    } else {
      var init, last := parts[..|parts| - 1], parts[|parts| - 1];
      JoinSplits(init);
      LinesEnd(Join(init), last);
      assert parts == init + [last];
    }
  }

  lemma {:induction false} ValuesPlain(fields: seq<Field>)
    requires forall i :: 0 <= i < |fields| ==> Fit(fields[i])
    ensures forall i :: 0 <= i < |Values(fields)| ==> LF !in Values(fields)[i]
  {
    if fields != [] {
      ValuesPlain(fields[1..]);
    }
  }

  /** Whatever fields a message is written in, it is read, at the blank line that ends it, as the one text
      whose lines are their values in order; and as none when no field is data. */
  lemma MessageRead(fields: seq<Field>, cr: bool)
    requires forall i :: 0 <= i < |fields| ==> Fit(fields[i])
    ensures var r := Feed(START, Wire(fields) + Ending(cr) + [LF]);
      && r.p == START
      && (Values(fields) == [] ==> r.out == [])
      && (Values(fields) != [] ==> |r.out| == 1 && Lines(r.out[0]) == Values(fields))
  {
    var vs := Values(fields);
    FieldsTaken([], fields);
    assert [] + vs == vs;
    BlankTaken(vs, cr);
    OneMoreLine(Wire(fields), vs, Ending(cr));
    ValuesPlain(fields);
    if vs != [] {
      JoinSplits(vs);
    }
    hide *;
  }

  lemma OneMoreLine(text: string, data: seq<string>, line: string)
    requires Chars(START, text) == Fed(Parser("", data), []) && LF !in line
    ensures Feed(START, text + line + [LF]) == Fed(Parser("", Take(data, line).data), Take(data, line).out)
  {
    hide Chars, Take, Feed;
    LineChars(data, line);
    CharsAppend(START, text, line + [LF]);
    assert text + line + [LF] == text + (line + [LF]);
    FeedIsChars(START, text + (line + [LF]));
    assert [] + Take(data, line).out == Take(data, line).out;
  }

  lemma BlankTaken(data: seq<string>, cr: bool)
    ensures LF !in Ending(cr) && Take(data, Ending(cr)) == Taken([], if data == [] then [] else [Join(data)])
  {
  }

  lemma {:induction false} SplitJoins(s: string)
    ensures Join(Lines(s)) == s
    decreases |s|
  {
    if s != "" {
      SplitJoins(s[1..]);
      var rest := Lines(s[1..]);
      if s[0] == LF {
        JoinFirst("", rest);
        assert "" + [LF] + s[1..] == s;
      } else {
        JoinHead(s[0], rest);
        assert [s[0]] + s[1..] == s;
      }
    }
  }

  lemma {:induction false} JoinFirst(first: string, rest: seq<string>)
    requires rest != []
    ensures Join([first] + rest) == first + [LF] + Join(rest)
    decreases |rest|
  {
    if |rest| == 1 {
      assert ([first] + rest)[..1] == [first];
    } else {
      var init, last := rest[..|rest| - 1], rest[|rest| - 1];
      JoinFirst(first, init);
      assert ([first] + rest)[..|rest|] == [first] + init;
      assert first + [LF] + Join(init) + [LF] + last == first + [LF] + (Join(init) + [LF] + last);
    }
  }

  lemma {:induction false} JoinHead(c: char, rest: seq<string>)
    requires rest != []
    ensures Join([[c] + rest[0]] + rest[1..]) == [c] + Join(rest)
    decreases |rest|
  {
    var all := [[c] + rest[0]] + rest[1..];
    if |rest| > 1 {
      var init, last := rest[..|rest| - 1], rest[|rest| - 1];
      JoinHead(c, init);
      assert all[..|all| - 1] == [[c] + init[0]] + init[1..];
      assert [c] + Join(init) + [LF] + last == [c] + (Join(init) + [LF] + last);
    }
  }

  /** A text written one data field a line */
  function Standard(lines: seq<string>): seq<Field> {
    if lines == [] then [] else [Datum(lines[0], true, false)] + Standard(lines[1..])
  }

  lemma {:induction false} StandardIs(lines: seq<string>)
    requires forall i :: 0 <= i < |lines| ==> Plain(lines[i])
    ensures Values(Standard(lines)) == lines && forall i :: 0 <= i < |Standard(lines)| ==> Fit(Standard(lines)[i])
  {
    if lines != [] {
      StandardIs(lines[1..]);
    }
  }

  /** So any text comes back, of however many lines, if none of them ends in a carriage return. */
  lemma TextRead(text: string)
    requires forall i :: 0 <= i < |Lines(text)| ==> Plain(Lines(text)[i])
    ensures Feed(START, Wire(Standard(Lines(text))) + [LF]) == Fed(START, [text])
  {
    var fields := Standard(Lines(text));
    StandardIs(Lines(text));
    MessageRead(fields, false);
    assert Wire(fields) + Ending(false) + [LF] == Wire(fields) + [LF];
    var r := Feed(START, Wire(fields) + [LF]);
    SplitJoins(text);
    SplitJoins(r.out[0]);
    assert r.out == [r.out[0]];
  }
}
