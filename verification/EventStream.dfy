/**
  The wire format: how the endpoint prints one event, and how the smoke script
  reads the stream line by line (sections 9.2.5 and 9.2.6 of the WHATWG HTML
  Standard give the framing). JSON is a pair of functions `dump` and `load`.
 */
module EventStream {
  import opened Text
  import opened Wrappers
  import opened Selection
  import R = ResponseStream

  /** What `json.loads` makes of a text. */
  datatype Loaded<P> = Object(value: P) | NotAnObject | Malformed

  datatype DecodeError = InvalidJson | UnexpectedPayload

  /** The pairs yielded, and the error that ended the reading, if any. */
  datatype Decoded<P> = Decoded(events: seq<(string, P)>, error: Option<DecodeError>)

  // ---------------------------------------------------------------- printing

  function Frame(name: string, data: string): string {
    "event: " + name + "\ndata: " + data + "\n\n"
  }

  function Print<P>(dump: P -> string, events: seq<(string, P)>): string {
    if events == [] then "" else Frame(events[0].0, dump(events[0].1)) + Print(dump, events[1..])
  }

  // ---------------------------------------------------------------- reading

  predicate NoLineFeed(s: string) {
    forall i | 0 <= i < |s| :: s[i] != '\n'
  }

  /** Length of the first line, its line feed included. */
  function LineLength(s: string): (k: nat)
    requires s != ""
    ensures 1 <= k <= |s|
  {
    if s[0] == '\n' || |s| == 1 then 1 else 1 + LineLength(s[1..])
  }

  /** Iterating over a byte stream: lines with their terminators. */
  function RawLines(s: string): seq<string> {
    if s == "" then [] else [s[..LineLength(s)]] + RawLines(s[LineLength(s)..])
  }

  /** `rstrip("\r\n")`. */
  function Chomp(s: string): string {
    if s != "" && (s[|s| - 1] == '\r' || s[|s| - 1] == '\n') then Chomp(s[..|s| - 1]) else s
  }

  const EVENT := "event:"
  const DATA := "data:"

  function DecodeLines<P>(load: string -> Loaded<P>, lines: seq<string>, name: string, data: seq<string>): Decoded<P> {
    if lines == [] then Decoded([], None)
    else
      var line := Chomp(lines[0]);
      if line == "" then
        if data == [] then DecodeLines(load, lines[1..], "message", [])
        else
          match load(Join("\n", data))
          case Malformed => Decoded([], Some(InvalidJson))
          case NotAnObject => Decoded([], Some(UnexpectedPayload))
          case Object(payload) =>
            var rest := DecodeLines(load, lines[1..], "message", []);
            Decoded([(name, payload)] + rest.events, rest.error)
      else if EVENT <= line then DecodeLines(load, lines[1..], Strip(line[|EVENT|..]), data)
      else if DATA <= line then DecodeLines(load, lines[1..], name, data + [Strip(line[|DATA|..])])
      else DecodeLines(load, lines[1..], name, data)
  }

  function Decode<P>(load: string -> Loaded<P>, text: string): Decoded<P> {
    DecodeLines(load, RawLines(text), "message", [])
  }

  method StreamRequest<P>(load: string -> Loaded<P>, text: string) returns (r: Decoded<P>)
    ensures r == Decode(load, text)
  {
    var eventName := "message";
    var dataLines: seq<string> := [];
    var events: seq<(string, P)> := [];
    var lines := RawLines(text);
    for i := 0 to |lines|
      invariant var rest := DecodeLines(load, lines[i..], eventName, dataLines);
                Decode(load, text) == Decoded(events + rest.events, rest.error)
    {
      assert lines[i..][1..] == lines[i + 1..];
      var line := Chomp(lines[i]);
      if line == "" {
        if dataLines != [] {
          match load(Join("\n", dataLines)) {
            case Malformed => return Decoded(events, Some(InvalidJson));
            case NotAnObject => return Decoded(events, Some(UnexpectedPayload));
            case Object(payload) => events := events + [(eventName, payload)];
          }
        }
        eventName := "message";
        dataLines := [];
      } else if EVENT <= line {
        eventName := Strip(line[|EVENT|..]);
      } else if DATA <= line {
        dataLines := dataLines + [Strip(line[|DATA|..])];
      }
    }
    r := Decoded(events, None);
  }

  // ---------------------------------------------------------------- lines

  /** The first line ends at the first line feed, or with the text. */
  lemma {:induction false} LineEnds(s: string)
    requires s != ""
    ensures var k := LineLength(s); NoLineFeed(s[..k - 1]) && (s[k - 1] == '\n' || k == |s|)
  {
    if s[0] != '\n' && |s| > 1 {
      LineEnds(s[1..]);
      var k := LineLength(s[1..]);
      assert s[..k] == [s[0]] + s[1..][..k - 1];
    }
  }

  lemma {:induction false} FirstLine(line: string, rest: string)
    requires NoLineFeed(line)
    ensures LineLength(line + "\n" + rest) == |line| + 1
  {
    var s := line + "\n" + rest;
    if line != "" {
      FirstLine(line[1..], rest);
      assert s[1..] == line[1..] + "\n" + rest;
    }
  }

  lemma RawLine(line: string, rest: string)
    requires NoLineFeed(line)
    ensures RawLines(line + "\n" + rest) == [line + "\n"] + RawLines(rest)
  {
    var s := line + "\n" + rest;
    FirstLine(line, rest);
    assert s[..|line| + 1] == line + "\n" && s[|line| + 1..] == rest;
  }

  lemma ChompLine(line: string)
    requires line == "" || (line[|line| - 1] != '\r' && line[|line| - 1] != '\n')
    ensures Chomp(line + "\n") == line
  {
    assert (line + "\n")[..|line + "\n"| - 1] == line;
  }

  lemma {:induction false} ChompPrefix(s: string)
    ensures Chomp(s) <= s
  {
    if s != "" && (s[|s| - 1] == '\r' || s[|s| - 1] == '\n') {
      ChompPrefix(s[..|s| - 1]);
    }
  }

  lemma PrefixNoLineFeed(p: string, s: string)
    requires p <= s && NoLineFeed(s)
    ensures NoLineFeed(p)
  {
    forall i | 0 <= i < |p| ensures p[i] != '\n' {
      assert p[i] == s[i];
    }
  }

  lemma ChompNoLineFeed(s: string)
    requires s == "" || NoLineFeed(s[..|s| - 1])
    ensures NoLineFeed(Chomp(s))
  {
    if s != "" {
      var most, last := s[..|s| - 1], s[|s| - 1];
      if last == '\r' || last == '\n' {
        assert Chomp(s) == Chomp(most);
        ChompPrefix(most);
        PrefixNoLineFeed(Chomp(most), most);
      } else {
        assert Chomp(s) == s == most + [last];
        LastNoLineFeed(most, last);
      }
    }
  }

  lemma LastNoLineFeed(most: string, last: char)
    requires NoLineFeed(most) && last != '\n'
    ensures NoLineFeed(most + [last])
  {
  }

  lemma {:induction false} RawLinesShape(s: string)
    ensures forall l | l in RawLines(s) :: l != "" && NoLineFeed(l[..|l| - 1])
  {
    if s != "" {
      LineEnds(s);
      RawLinesShape(s[LineLength(s)..]);
      var first := s[..LineLength(s)];
      assert first[..|first| - 1] == s[..LineLength(s) - 1];
    }
  }

  lemma {:induction false} StripLeftSuffix(s: string)
    ensures |StripLeft(s)| <= |s| && StripLeft(s) == s[|s| - |StripLeft(s)|..]
  {
    if s != "" && IsSpace(s[0]) {
      StripLeftSuffix(s[1..]);
    }
  }

  lemma StripNoLineFeed(s: string)
    requires NoLineFeed(s)
    ensures NoLineFeed(Strip(s))
  {
    StripLeftSuffix(s);
    StripRightEnds(StripLeft(s));
  }

  // ---------------------------------------------------------------- round trip

  /** A JSON object printed on one line. */
  predicate ObjectText(text: string) {
    NoLineFeed(text) && |text| >= 2 && text[0] == '{' && text[|text| - 1] == '}'
  }

  /** `load` undoes `dump`, and dumped objects take one line. */
  ghost predicate Codec<P(!new)>(dump: P -> string, load: string -> Loaded<P>) {
    forall p :: ObjectText(dump(p)) && load(dump(p)) == Object(p)
  }

  lemma LinesSplit(a: string, b: string, rest: string)
    ensures a + "\n" + b + "\n\n" + rest == a + "\n" + (b + "\n" + ("" + "\n" + rest))
  {
  }

  lemma TwoLinesAndBlank(a: string, b: string, rest: string)
    requires NoLineFeed(a) && NoLineFeed(b)
    ensures RawLines(a + "\n" + b + "\n\n" + rest) == [a + "\n", b + "\n", "\n"] + RawLines(rest)
  {
    var blank := "" + "\n" + rest;
    var second := b + "\n" + blank;
    LinesSplit(a, b, rest);
    RawLine(a, second);
    RawLine(b, blank);
    RawLine("", rest);
    assert "" + "\n" == "\n";
  }

  lemma NoLineFeedInFront(field: string, text: string)
    requires NoLineFeed(field) && NoLineFeed(text)
    ensures NoLineFeed(field + text)
  {
  }

  lemma FieldsHaveNoLineFeed()
    ensures NoLineFeed("event: ") && NoLineFeed("data: ")
  {
  }

  lemma FrameLines(name: string, data: string, rest: string)
    requires NoLineFeed(name) && NoLineFeed(data)
    ensures RawLines(Frame(name, data) + rest) ==
            ["event: " + name + "\n", "data: " + data + "\n", "\n"] + RawLines(rest)
  {
    FieldsHaveNoLineFeed();
    var a, b := "event: " + name, "data: " + data;
    NoLineFeedInFront("event: ", name);
    NoLineFeedInFront("data: ", data);
    TwoLinesAndBlank(a, b, rest);
    FrameShape(name, data, rest);
  }

  lemma FrameShape(name: string, data: string, rest: string)
    ensures Frame(name, data) + rest == ("event: " + name) + "\n" + ("data: " + data) + "\n\n" + rest
  {
    var a := "event: " + name;
    assert a + "\ndata: " == a + "\n" + "data: ";
  }

  lemma EventLine(name: string)
    ensures var line := Chomp("event: " + name + "\n");
            line != "" && EVENT <= line && Strip(line[|EVENT|..]) == Strip(name)
  {
    ChompStrip("event:", " " + name);
    assert "event: " + name + "\n" == "event:" + (" " + name) + "\n";
    StripBlank(name);
  }

  /** A blank in front does not change what `strip` returns. */
  lemma StripBlank(name: string)
    ensures Strip(" " + name) == Strip(name)
  {
    assert (" " + name)[1..] == name;
  }

  /** Line terminators are white space: removing them before `strip` changes nothing. */
  lemma {:induction false} ChompStrip(head: string, tail: string)
    requires head != "" && !IsSpace(head[|head| - 1])
    ensures var line := Chomp(head + tail + "\n");
            head <= line && Strip(line[|head|..]) == Strip(tail)
  {
    var s := head + tail;
    assert (s + "\n")[..|s + "\n"| - 1] == s;
    ChompTail(head, tail);
  }

  lemma {:induction false} ChompTail(head: string, tail: string)
    requires head != "" && !IsSpace(head[|head| - 1])
    ensures head <= Chomp(head + tail) && Strip(Chomp(head + tail)[|head|..]) == Strip(tail)
  {
    var s := head + tail;
    if tail == "" {
      assert Chomp(s) == s == head;
    } else if tail[|tail| - 1] == '\r' || tail[|tail| - 1] == '\n' {
      var most := tail[..|tail| - 1];
      assert s[..|s| - 1] == head + most && s[|s| - 1] == tail[|tail| - 1];
      assert Chomp(s) == Chomp(head + most);
      ChompTail(head, most);
      StripLast(most, tail[|tail| - 1]);
      assert most + [tail[|tail| - 1]] == tail;
    } else {
      assert s[|s| - 1] == tail[|tail| - 1];
      assert Chomp(s) == s && s[|head|..] == tail;
    }
  }

  /** White space at the end does not change what `strip` returns. */
  lemma {:induction false} StripLast(s: string, c: char)
    requires IsSpace(c)
    ensures Strip(s + [c]) == Strip(s)
  {
    if s == "" {
      assert s + [c] == [c];
      assert [c][1..] == "";
    } else if IsSpace(s[0]) {
      assert (s + [c])[1..] == s[1..] + [c];
      StripLast(s[1..], c);
    } else {
      assert (s + [c])[..|s + [c]| - 1] == s;
    }
  }

  lemma DataLine(data: string)
    requires ObjectText(data)
    ensures var line := Chomp("data: " + data + "\n");
            line != "" && !(EVENT <= line) && DATA <= line && Strip(line[|DATA|..]) == data
  {
    ChompStrip("data:", " " + data);
    assert "data: " + data + "\n" == "data:" + (" " + data) + "\n";
    StripBlank(data);
    StripTrims(data);
  }

  /** The events with trimmed names: what the decoder makes of printed events. */
  function Trim<P>(events: seq<(string, P)>): seq<(string, P)> {
    if events == [] then [] else [(Strip(events[0].0), events[0].1)] + Trim(events[1..])
  }

  /**
    Printed events decode to themselves with trimmed names, whatever the names, as long as none contains a line
    feed.
   */
  lemma {:induction false} DecodePrinted<P(!new)>(dump: P -> string, load: string -> Loaded<P>,
                                                       events: seq<(string, P)>)
    requires Codec(dump, load) && forall i | 0 <= i < |events| :: NoLineFeed(events[i].0)
    ensures Decode(load, Print(dump, events)) == Decoded(Trim(events), None)
  {
    if events != [] {
      var name, payload := events[0].0, events[0].1;
      var rest := Print(dump, events[1..]);
      assert ObjectText(dump(payload));
      FrameLines(name, dump(payload), rest);
      DecodeFrame(load, name, dump(payload), payload, RawLines(rest));
      DecodePrinted(dump, load, events[1..]);
    }
  }

  lemma DecodeFrame<P>(load: string -> Loaded<P>, name: string, data: string, payload: P, rest: seq<string>)
    requires ObjectText(data) && load(data) == Object(payload)
    ensures var tail := DecodeLines(load, rest, "message", []);
            DecodeLines(load, ["event: " + name + "\n", "data: " + data + "\n", "\n"] + rest, "message", [])
            == Decoded([(Strip(name), payload)] + tail.events, tail.error)
  {
    var first, second := "event: " + name + "\n", "data: " + data + "\n";
    var lines := [first, second, "\n"] + rest;
    assert lines[1..] == [second, "\n"] + rest;
    assert lines[1..][1..] == ["\n"] + rest;
    assert lines[1..][1..][1..] == rest;
    EventLine(name);
    DataLine(data);
    ChompLine("");
    assert "" + "\n" == "\n";
    assert [] + [data] == [data];
    DecodeDataAndBlank(load, Strip(name), data, payload, second, rest);
  }

  lemma DecodeDataAndBlank<P>(load: string -> Loaded<P>, name: string, data: string, payload: P,
                              second: string, rest: seq<string>)
    requires load(data) == Object(payload)
    requires Chomp(second) != "" && !(EVENT <= Chomp(second)) && DATA <= Chomp(second)
        && Strip(Chomp(second)[|DATA|..]) == data
    ensures var tail := DecodeLines(load, rest, "message", []);
            DecodeLines(load, [second, "\n"] + rest, name, []) == Decoded([(name, payload)] + tail.events, tail.error)
  {
    var lines := [second, "\n"] + rest;
    assert lines[1..] == ["\n"] + rest && lines[1..][1..] == rest;
    ChompLine("");
    assert "" + "\n" == "\n";
    assert [] + [data] == [data] && Join("\n", [data]) == data;
    assert DecodeLines(load, ["\n"] + rest, name, [data])
        == Decoded([(name, payload)] + DecodeLines(load, rest, "message", []).events,
                   DecodeLines(load, rest, "message", []).error);
  }

  lemma {:induction false} TrimSame<P>(events: seq<(string, P)>)
    ensures |Trim(events)| == |events|
    ensures Trim(events) == events <==> forall i | 0 <= i < |events| :: Trimmed(events[i].0)
  {
    if events != [] {
      TrimSame(events[1..]);
      StripTrims(events[0].0);
      assert events == [events[0]] + events[1..];
      if forall i | 0 <= i < |events| :: Trimmed(events[i].0) {
        forall i | 0 <= i < |events[1..]|
          ensures Trimmed(events[1..][i].0)
        {
          assert events[1..][i] == events[i + 1];
        }
      }
      if Trim(events) == events {
        assert Trim(events)[0] == events[0] && Trim(events)[1..] == events[1..];
        forall i | 0 <= i < |events|
          ensures Trimmed(events[i].0)
        {
          if i > 0 {
            assert events[i] == events[1..][i - 1];
          }
        }
      }
    }
  }

  /** No decoded name contains a line feed, whatever was sent. */
  lemma {:induction false} NamesHaveNoLineFeed<P>(load: string -> Loaded<P>, lines: seq<string>, name: string,
                                                       data: seq<string>)
    requires NoLineFeed(name) && forall l | l in lines :: l != "" && NoLineFeed(l[..|l| - 1])
    ensures forall i | 0 <= i < |DecodeLines(load, lines, name, data).events| ::
              NoLineFeed(DecodeLines(load, lines, name, data).events[i].0)
    decreases |lines|
  {
    if lines != [] {
      var line := Chomp(lines[0]);
      assert lines[0] in lines;
      ChompNoLineFeed(lines[0]);
      assert forall l | l in lines[1..] :: l in lines;
      if line == "" {
        NamesHaveNoLineFeed(load, lines[1..], "message", []);
      } else if EVENT <= line {
        StripNoLineFeed(line[|EVENT|..]);
        NamesHaveNoLineFeed(load, lines[1..], Strip(line[|EVENT|..]), data);
      } else if DATA <= line {
        NamesHaveNoLineFeed(load, lines[1..], name, data + [Strip(line[|DATA|..])]);
      } else {
        NamesHaveNoLineFeed(load, lines[1..], name, data);
      }
    }
  }

  /** Every name is trimmed and has no line feed. */
  ghost predicate CleanNames<P>(events: seq<(string, P)>) {
    forall i | 0 <= i < |events| :: NoLineFeed(events[i].0) && Trimmed(events[i].0)
  }

  lemma DecodedNamesAreClean<P(!new)>(dump: P -> string, load: string -> Loaded<P>, events: seq<(string, P)>)
    requires Codec(dump, load) && Decode(load, Print(dump, events)) == Decoded(events, None)
    ensures CleanNames(events)
  {
    DecodedNames(load, Print(dump, events));
    DecodePrinted(dump, load, events);
    TrimSame(events);
  }

  lemma DecodedNames<P>(load: string -> Loaded<P>, text: string)
    ensures forall i | 0 <= i < |Decode(load, text).events| :: NoLineFeed(Decode(load, text).events[i].0)
  {
    RawLinesShape(text);
    NamesHaveNoLineFeed(load, RawLines(text), "message", []);
  }

  /** Printing then decoding returns the original events exactly when every name is trimmed and has no line feed. */
  lemma RoundTrip<P(!new)>(dump: P -> string, load: string -> Loaded<P>, events: seq<(string, P)>)
    requires Codec(dump, load)
    ensures Decode(load, Print(dump, events)) == Decoded(events, None) <==> CleanNames(events)
  {
    if CleanNames(events) {
      DecodePrinted(dump, load, events);
      TrimSame(events);
    } else if Decode(load, Print(dump, events)) == Decoded(events, None) {
      DecodedNamesAreClean(dump, load, events);
    }
  }

  // ---------------------------------------------------------------- any stream, block by block

  /** `rstrip("\r\n")` removes the line terminators at the end, all of them, and nothing else. */
  lemma {:induction false} ChompExact(s: string)
    ensures var line := Chomp(s);
            && line <= s && (line == "" || line[|line| - 1] !in {'\r', '\n'})
            && forall i | |line| <= i < |s| :: s[i] in {'\r', '\n'}
  {
    if s != "" && (s[|s| - 1] == '\r' || s[|s| - 1] == '\n') {
      ChompExact(s[..|s| - 1]);
    }
  }

  predicate IsEvent(line: string) {
    "event:" <= Chomp(line)
  }

  predicate IsData(line: string) {
    "data:" <= Chomp(line)
  }

  lemma NotBoth(line: string)
    ensures !(IsEvent(line) && IsData(line))
  {
    assert "event:"[0] == 'e' && "data:"[0] == 'd';
    assert IsEvent(line) ==> Chomp(line)[0] == 'e';
    assert IsData(line) ==> Chomp(line)[0] == 'd';
  }

  /** The value of a data line, trimmed. */
  predicate DataIs(line: string, value: string) {
    IsData(line) && value == Strip(Chomp(line)[5..])
  }

  /** The data lines of a block, in order, have these values. */
  ghost predicate DataOf(block: seq<string>, data: seq<string>) {
    Keeps(DataIs, (line: string) => !IsData(line), block, data)
  }

  /** The last event line names the block, or else it keeps the name it had. */
  ghost predicate NamedFrom(block: seq<string>, before: string, name: string) {
    || (name == before && forall line | line in block :: !IsEvent(line))
    || exists i: nat :: LastEvent(block, i) && name == Strip(Chomp(block[i])[6..])
  }

  predicate LastEvent(block: seq<string>, i: nat) {
    i < |block| && IsEvent(block[i]) && forall j | i < j < |block| :: !IsEvent(block[j])
  }

  lemma NamedTail(block: seq<string>, before: string, name: string)
    requires block != []
    requires NamedFrom(block[1..], if IsEvent(block[0]) then Strip(Chomp(block[0])[6..]) else before, name)
    ensures NamedFrom(block, before, name)
  {
    assert block == [block[0]] + block[1..];
    if i: nat :| LastEvent(block[1..], i) && name == Strip(Chomp(block[1..][i])[6..]) {
      assert LastEvent(block, i + 1) by {
        forall j | i + 1 < j < |block|
          ensures !IsEvent(block[j])
        {
          assert block[j] == block[1..][j - 1];
        }
      }
    } else if IsEvent(block[0]) {
      assert LastEvent(block, 0) by {
        forall j | 0 < j < |block|
          ensures !IsEvent(block[j])
        {
          assert block[j] in block[1..];
        }
      }
    }
  }

  /** Lines without a blank one among them only set the name and collect data. */
  lemma {:induction false} BlockCollects<P>(load: string -> Loaded<P>, block: seq<string>, more: seq<string>,
                                            before: string, earlier: seq<string>)
    returns (name: string, data: seq<string>)
    requires forall line | line in block :: Chomp(line) != ""
    ensures DecodeLines(load, block + more, before, earlier) == DecodeLines(load, more, name, earlier + data)
    ensures NamedFrom(block, before, name) && DataOf(block, data)
  {
    var miss := (line: string) => !IsData(line);
    if block == [] {
      name, data := before, [];
      assert block + more == more && earlier + data == earlier;
      KeepsNone(DataIs, miss);
    } else {
      var line := Chomp(block[0]);
      assert block[0] in block && forall l | l in block[1..] :: l in block;
      assert (block + more)[1..] == block[1..] + more;
      NotBoth(block[0]);
      hide Chomp, NamedFrom, Strip;
      if IsEvent(block[0]) {
        name, data := BlockCollects(load, block[1..], more, Strip(line[6..]), earlier);
        KeepsMiss(DataIs, miss, block, data);
      } else if IsData(block[0]) {
        var value := Strip(line[5..]);
        name, data := BlockCollects(load, block[1..], more, before, earlier + [value]);
        KeepsHit(DataIs, miss, block, value, data);
        assert earlier + [value] + data == earlier + ([value] + data);
        data := [value] + data;
      } else {
        name, data := BlockCollects(load, block[1..], more, before, earlier);
        KeepsMiss(DataIs, miss, block, data);
      }
      NamedTail(block, before, name);
    }
  }

  /**
    Whatever the lines, a block up to its blank line gives one event: its last event line names it, or "message", and
    its data lines, one to a line, are its payload. Without data it gives nothing. A payload that is no JSON, or no
    object, ends the reading with its error.
   */
  lemma BlockDecodes<P>(load: string -> Loaded<P>, block: seq<string>, blank: string, rest: seq<string>)
    returns (name: string, data: seq<string>)
    requires (forall line | line in block :: Chomp(line) != "") && Chomp(blank) == ""
    ensures NamedFrom(block, "message", name) && DataOf(block, data)
    ensures var tail := DecodeLines(load, rest, "message", []);
            DecodeLines(load, block + [blank] + rest, "message", []) ==
              if data == [] then tail
              else match load(Join("\n", data))
                case Malformed => Decoded([], Some(InvalidJson))
                case NotAnObject => Decoded([], Some(UnexpectedPayload))
                case Object(payload) => Decoded([(name, payload)] + tail.events, tail.error)
  {
    name, data := BlockCollects(load, block, [blank] + rest, "message", []);
    assert block + [blank] + rest == block + ([blank] + rest);
    assert ([blank] + rest)[1..] == rest && [] + data == data;
  }

  /** Lines after the last blank one give nothing. */
  lemma UnfinishedIsDropped<P>(load: string -> Loaded<P>, block: seq<string>)
    requires forall line | line in block :: Chomp(line) != ""
    ensures DecodeLines(load, block, "message", []) == Decoded([], None)
  {
    var name, data := BlockCollects(load, block, [], "message", []);
    assert block + [] == block;
  }

  // ---------------------------------------------------------------- the endpoint's events

  function TypeName(event: R.WireEvent): string {
    match event
    case Created(_, _) => "response.created"
    case InProgress(_, _) => "response.in_progress"
    case ItemAdded(_, _) => "response.output_item.added"
    case PartAdded(_, _, _) => "response.content_part.added"
    case Delta(_, _, _) => "response.output_text.delta"
    case TextDone(_, _, _) => "response.output_text.done"
    case PartDone(_, _, _) => "response.content_part.done"
    case ItemDone(_, _) => "response.output_item.done"
    case Completed(_, _) => "response.completed"
    case FailedEvent(_, _) => "response.failed"
    case ErrorEvent(_, _) => "error"
  }

  function Typed(events: seq<R.WireEvent>): seq<(string, R.WireEvent)> {
    if events == [] then [] else [(TypeName(events[0]), events[0])] + Typed(events[1..])
  }

  lemma ResponseNamesAreClean(event: R.WireEvent)
    requires event.Created? || event.InProgress? || event.Completed? || event.FailedEvent? || event.ErrorEvent?
    ensures NoLineFeed(TypeName(event)) && Trimmed(TypeName(event))
  {
  }

  lemma PartNamesAreClean(event: R.WireEvent)
    requires event.PartAdded? || event.PartDone? || event.ItemAdded? || event.ItemDone?
    ensures NoLineFeed(TypeName(event)) && Trimmed(TypeName(event))
  {
  }

  lemma TextNamesAreClean(event: R.WireEvent)
    requires event.Delta? || event.TextDone?
    ensures NoLineFeed(TypeName(event)) && Trimmed(TypeName(event))
  {
  }

  lemma TypeNamesAreClean(event: R.WireEvent)
    ensures NoLineFeed(TypeName(event)) && Trimmed(TypeName(event))
  {
    match event
    case PartAdded(_, _, _) => PartNamesAreClean(event);
    case PartDone(_, _, _) => PartNamesAreClean(event);
    case ItemAdded(_, _) => PartNamesAreClean(event);
    case ItemDone(_, _) => PartNamesAreClean(event);
    case Delta(_, _, _) => TextNamesAreClean(event);
    case TextDone(_, _, _) => TextNamesAreClean(event);
    case _ => ResponseNamesAreClean(event);
  }

  lemma {:induction false} TypedNames(events: seq<R.WireEvent>)
    ensures |Typed(events)| == |events|
    ensures forall i | 0 <= i < |events| :: Typed(events)[i] == (TypeName(events[i]), events[i])
  {
    if events != [] {
      TypedNames(events[1..]);
    }
  }

  /** The endpoint's event types need no trimming and fit on one line. */
  lemma TypesAreClean(events: seq<R.WireEvent>)
    ensures CleanNames(Typed(events))
  {
    TypedNames(events);
    forall i | 0 <= i < |Typed(events)|
      ensures NoLineFeed(Typed(events)[i].0) && Trimmed(Typed(events)[i].0)
    {
      TypeNamesAreClean(events[i]);
    }
  }

  /** The smoke client reads exactly the events the endpoint sent, types and payloads, in order, however many. */
  lemma {:induction false} ClientSeesTheStream(dump: R.WireEvent -> string, load: string -> Loaded<R.WireEvent>,
                                                    events: seq<R.WireEvent>)
    requires Codec(dump, load)
    ensures Decode(load, Print(dump, Typed(events))) == Decoded(Typed(events), None)
  {
    TypesAreClean(events);
    RoundTrip(dump, load, Typed(events));
  }
}
