/** The server-sent-event client of zeus/monitor/power_streaming.py: text arrives in arbitrary chunks, is cut into
    events at blank lines, and each event's `data: ` lines update the readings of one server. The frames come from
    zeusd (zeusd/src/routes/gpu.rs). JSON parsing is a parameter. */
module EventStream {
  import opened Outcomes
  import opened Text

  // ---- Cutting text at blank lines ----

  const BLANK := "\n\n"
  const DATA := "data: "

  predicate BreakAt(text: string, i: int) {
    0 <= i && i + 1 < |text| && text[i] == '\n' && text[i + 1] == '\n'
  }

  /** Where the leftmost blank line starts, -1 if there is none. */
  function FirstBreak(text: string): (k: int)
    ensures k == -1 || BreakAt(text, k)
    ensures forall i :: BreakAt(text, i) ==> 0 <= k <= i
  {
    if |text| < 2 then -1
    else if BreakAt(text, 0) then 0
    else
      var k := FirstBreak(text[1..]);
      assert forall i :: BreakAt(text, i) ==> BreakAt(text[1..], i - 1);
      if k < 0 then -1 else k + 1
  }

  /** The whole text cut at leftmost blank lines. */
  function Events(text: string): seq<string>
    decreases |text|
  {
    var k := FirstBreak(text);
    if k < 0 then [] else [text[..k]] + Events(text[k + 2..])
  }

  /** What is left after the last of them. */
  function Tail(text: string): string
    decreases |text|
  {
    var k := FirstBreak(text);
    if k < 0 then text else Tail(text[k + 2..])
  }

  function Joined(chunks: seq<string>): string {
    if chunks == [] then "" else chunks[0] + Joined(chunks[1..])
  }

  /** Text that arrives later does not change the events already cut off. */
  lemma {:induction false} EventsOfMore(a: string, b: string)
    ensures Events(a + b) == Events(a) + Events(Tail(a) + b)
    ensures Tail(a + b) == Tail(Tail(a) + b)
    decreases |a|
  {
    var k := FirstBreak(a);
    if k >= 0 {
      assert BreakAt(a + b, k);
      var j := FirstBreak(a + b);
      assert BreakAt(a, j);
      assert (a + b)[..k] == a[..k] && (a + b)[k + 2..] == a[k + 2..] + b;
      assert j == k;
      hide FirstBreak, BreakAt;
      EventsOfMore(a[k + 2..], b);
      assert [a[..k]] + (Events(a[k + 2..]) + Events(Tail(a) + b))
             == ([a[..k]] + Events(a[k + 2..])) + Events(Tail(a) + b);
    }
  }

  /** A cut-off connection has delivered a prefix of the events. */
  lemma CutOffIsPrefix(received: string, lost: string)
    ensures Events(received) <= Events(received + lost)
  {
    EventsOfMore(received, lost);
  }

  lemma TailHasNoBreak(text: string)
    ensures FirstBreak(Tail(text)) == -1 && Events(Tail(text)) == []
    decreases |text|
  {
    if FirstBreak(text) >= 0 {
      TailHasNoBreak(text[FirstBreak(text) + 2..]);
    }
  }

  /** Events, each closed by its blank line. */
  function Framed(events: seq<string>): string {
    if events == [] then "" else events[0] + BLANK + Framed(events[1..])
  }

  lemma CutAt(text: string, k: int)
    requires BreakAt(text, k)
    ensures text == text[..k] + BLANK + text[k + 2..]
  {
    assert text[k..k + 2] == BLANK;
    assert text == text[..k] + text[k..k + 2] + text[k + 2..];
  }

  lemma Regroup(a: string, b: string, c: string)
    ensures (a + b) + c == a + (b + c)
  {
  }

  /** Nothing is lost or invented: the events, each with its blank line, and the tail are the text. */
  lemma {:induction false} EventsAreTheText(text: string)
    ensures text == Framed(Events(text)) + Tail(text)
    decreases |text|
  {
    var k := FirstBreak(text);
    if k >= 0 {
      var rest := text[k + 2..];
      EventsAreTheText(rest);
      assert Events(text)[0] == text[..k] && Events(text)[1..] == Events(rest);
      CutAt(text, k);
      hide FirstBreak, Events, Tail, BLANK;
      Regroup(text[..k] + BLANK, Framed(Events(rest)), Tail(rest));
    }
  }

  /** The client's loop as a function: events and buffer after a sequence of chunks. */
  function Fed(buffer: string, chunks: seq<string>): (seq<string>, string)
    decreases |chunks|
  {
    if chunks == [] then ([], buffer)
    else
      var text := buffer + chunks[0];
      var rest := Fed(Tail(text), chunks[1..]);
      (Events(text) + rest.0, rest.1)
  }

  /** Cutting chunk by chunk gives the events of the whole text, for every way of chunking it. */
  lemma {:induction false} ChunkingIsIrrelevant(buffer: string, chunks: seq<string>)
    requires FirstBreak(buffer) == -1
    ensures Fed(buffer, chunks).0 == Events(buffer + Joined(chunks))
    ensures Fed(buffer, chunks).1 == Tail(buffer + Joined(chunks))
    decreases |chunks|
  {
    if chunks == [] {
      assert buffer + Joined(chunks) == buffer;
    } else {
      var text := buffer + chunks[0];
      assert buffer + Joined(chunks) == text + Joined(chunks[1..]);
      EventsOfMore(text, Joined(chunks[1..]));
      TailHasNoBreak(text);
      ChunkingIsIrrelevant(Tail(text), chunks[1..]);
    }
  }

  // ---- Lines of an event ----

  /** The characters `str.strip` removes. */
  predicate IsSpace(c: char) {
    || '\t' <= c <= '\r' || '\U{1c}' <= c <= ' ' || c == '\U{85}' || c == '\U{a0}' || c == '\U{1680}'
    || '\U{2000}' <= c <= '\U{200a}' || c == '\U{2028}' || c == '\U{2029}' || c == '\U{202f}' || c == '\U{205f}'
    || c == '\U{3000}'
  }

  function StripLeft(s: string): string {
    if s != "" && IsSpace(s[0]) then StripLeft(s[1..]) else s
  }

  function StripRight(s: string): (r: string)
    ensures r <= s && (r == s <==> s == "" || !IsSpace(s[|s| - 1]))
  {
    if s != "" && IsSpace(s[|s| - 1]) then StripRight(s[..|s| - 1]) else s
  }

  function Strip(s: string): string {
    StripRight(StripLeft(s))
  }

  /** What follows `data: ` on the lines that start with it. */
  function DataOf(lines: seq<string>): seq<string> {
    if lines == [] then []
    else (if DATA <= lines[0] then [lines[0][|DATA|..]] else []) + DataOf(lines[1..])
  }

  /** A line that starts with `data: ` gives what follows, in its place; any other gives nothing. */
  lemma {:induction false} DataLines(a: seq<string>, line: string, b: seq<string>)
    ensures !(DATA <= line) ==> DataOf(a + ([line] + b)) == DataOf(a) + DataOf(b)
    ensures DataOf(a + ([DATA + line] + b)) == DataOf(a) + ([line] + DataOf(b))
    decreases |a|
  {
    hide DATA;
    if a == [] {
      FirstDataLine(line, b);
      assert a + ([line] + b) == [line] + b && a + ([DATA + line] + b) == [DATA + line] + b;
    } else {
      DataLines(a[1..], line, b);
      assert (a + ([line] + b))[1..] == a[1..] + ([line] + b);
      assert (a + ([DATA + line] + b))[1..] == a[1..] + ([DATA + line] + b);
    }
  }

  lemma FirstDataLine(line: string, b: seq<string>)
    ensures !(DATA <= line) ==> DataOf([line] + b) == DataOf(b)
    ensures DataOf([DATA + line] + b) == [line] + DataOf(b)
  {
    assert ([line] + b)[1..] == b && ([DATA + line] + b)[1..] == b;
    assert (DATA + line)[|DATA|..] == line;
  }

  function Payloads(event: string): seq<string> {
    DataOf(Split(Strip(event), '\n'))
  }

  predicate OneLine(s: string) {
    '\n' !in s
  }

  lemma LinesOfOne(s: string)
    requires OneLine(s)
    ensures Split(s, '\n') == [s] && DataOf(Split(s, '\n')) == if DATA <= s then [s[|DATA|..]] else []
  {
    assert [s][1..] == [];
  }

  /** A one-line payload comes back unchanged exactly when it is non-empty and does not end in white space; an empty
      one is dropped with its event. */
  lemma PayloadSurvivesExactlyWhen(payload: string)
    requires OneLine(payload)
    ensures Payloads(DATA + payload) == [payload] <==> payload != "" && !IsSpace(payload[|payload| - 1])
  {
    var event := DATA + payload;
    assert StripLeft(event) == event;
    var stripped := StripRight(event);
    assert OneLine(stripped) by {
      assert forall i :: 0 <= i < |stripped| ==> stripped[i] == event[i];
    }
    LinesOfOne(stripped);
    assert event[|DATA|..] == payload;
    assert event[|event| - 1] == if payload == "" then ' ' else payload[|payload| - 1];
  }

  // ---- Frames ----

  /** What the server sends for one snapshot. */
  function Frame(payload: string): string {
    DATA + payload + BLANK
  }

  function FramesOf(payloads: seq<string>): string {
    if payloads == [] then "" else Frame(payloads[0]) + FramesOf(payloads[1..])
  }

  lemma FirstBreakOfFrame(payload: string, rest: string)
    requires OneLine(payload)
    ensures FirstBreak(Frame(payload) + rest) == |DATA + payload|
  {
    var text := Frame(payload) + rest;
    var k := |DATA + payload|;
    assert text[k] == '\n' && text[k + 1] == '\n';
    assert BreakAt(text, k);
    forall i | 0 <= i < k
      ensures text[i] != '\n'
    {
      assert text[i] == (DATA + payload)[i];
      assert i >= |DATA| ==> text[i] == payload[i - |DATA|];
    }
  }

  lemma FrameIsCut(data: string, rest: string)
    requires FirstBreak(data + BLANK + rest) == |data|
    ensures Events(data + BLANK + rest) == [data] + Events(rest) && Tail(data + BLANK + rest) == Tail(rest)
  {
    hide FirstBreak;
    var text := data + BLANK + rest;
    assert text[..|data|] == data && text[|data| + 2..] == rest;
  }

  /** Frames with one-line payloads are cut into exactly one event each, with nothing left over. */
  lemma {:induction false} FramesAreCut(payloads: seq<string>)
    requires forall p :: p in payloads ==> OneLine(p)
    ensures |Events(FramesOf(payloads))| == |payloads| && Tail(FramesOf(payloads)) == ""
    ensures forall i :: 0 <= i < |payloads| ==> Events(FramesOf(payloads))[i] == DATA + payloads[i]
    decreases |payloads|
  {
    if payloads != [] {
      var data, rest := DATA + payloads[0], FramesOf(payloads[1..]);
      FirstBreakOfFrame(payloads[0], rest);
      hide FirstBreak, DATA;
      FramesAreCut(payloads[1..]);
      FrameIsCut(data, rest);
    }
  }

  // ---- Readings ----

  datatype CpuMilliwatts = CpuMilliwatts(cpu: int, dram: Option<int>)
  datatype CpuPowerReading = CpuPowerReading(cpuW: real, dramW: Option<real>)

  datatype Message =
    | GpuMessage(timestampMs: int, gpu: map<int, int>)
    | CpuMessage(timestampMs: int, cpu: map<int, CpuMilliwatts>)

  datatype PowerReadings =
    PowerReadings(timestampS: real, gpuPowerW: map<int, real>, cpuPowerW: map<int, CpuPowerReading>)

  /** Milli-units to units. */
  function Milli(x: int): real {
    x as real / 1000.0
  }

  function GpuWatts(gpu: map<int, int>): map<int, real> {
    map k | k in gpu :: Milli(gpu[k])
  }

  function CpuWatts(cpu: map<int, CpuMilliwatts>): map<int, CpuPowerReading> {
    map k | k in cpu ::
      CpuPowerReading(Milli(cpu[k].cpu), if cpu[k].dram.Some? then Some(Milli(cpu[k].dram.value)) else None)
  }

  function Max(x: real, y: real): real {
    if x >= y then x else y
  }

  function Updated(known: Option<PowerReadings>, m: Message): PowerReadings {
    var time := Milli(m.timestampMs);
    match m
    case GpuMessage(_, gpu) =>
      if known.Some? then known.value.(gpuPowerW := GpuWatts(gpu), timestampS := Max(known.value.timestampS, time))
      else PowerReadings(time, GpuWatts(gpu), map[])
    case CpuMessage(_, cpu) =>
      if known.Some? then known.value.(cpuPowerW := CpuWatts(cpu), timestampS := Max(known.value.timestampS, time))
      else PowerReadings(time, map[], CpuWatts(cpu))
  }

  function Looked(readings: map<string, PowerReadings>, key: string): Option<PowerReadings> {
    if key in readings then Some(readings[key]) else None
  }

  function HandlePayloads(readings: map<string, PowerReadings>, payloads: seq<string>, key: string,
                          parse: string -> Option<Message>): map<string, PowerReadings>
    decreases |payloads|
  {
    if payloads == [] then readings
    else
      var m := parse(payloads[0]);
      var next := if m.Some? then readings[key := Updated(Looked(readings, key), m.value)] else readings;
      HandlePayloads(next, payloads[1..], key, parse)
  }

  function AllPayloads(events: seq<string>): seq<string> {
    if events == [] then [] else Payloads(events[0]) + AllPayloads(events[1..])
  }

  /** The messages among the payloads; one that does not parse is skipped. */
  function Parsed(payloads: seq<string>, parse: string -> Option<Message>): seq<Message> {
    if payloads == [] then []
    else (if parse(payloads[0]).Some? then [parse(payloads[0]).value] else []) + Parsed(payloads[1..], parse)
  }

  lemma {:induction false} HandleMore(readings: map<string, PowerReadings>, a: seq<string>, b: seq<string>, key: string,
                                      parse: string -> Option<Message>)
    ensures HandlePayloads(readings, a + b, key, parse)
         == HandlePayloads(HandlePayloads(readings, a, key, parse), b, key, parse)
    decreases |a|
  {
    if a == [] {
      assert a + b == b;
    } else {
      assert (a + b)[1..] == a[1..] + b;
      var m := parse(a[0]);
      HandleMore(if m.Some? then readings[key := Updated(Looked(readings, key), m.value)] else readings,
                 a[1..], b, key, parse);
    }
  }

  lemma {:induction false} PayloadsOfMore(a: seq<string>, b: seq<string>)
    ensures AllPayloads(a + b) == AllPayloads(a) + AllPayloads(b)
    decreases |a|
  {
    if a == [] {
      assert a + b == b;
    } else {
      assert (a + b)[1..] == a[1..] + b;
      PayloadsOfMore(a[1..], b);
    }
  }

  // ---- What the readings of a server mean ----

  function Applied(start: Option<PowerReadings>, ms: seq<Message>): Option<PowerReadings> {
    if ms == [] then start else Some(Updated(Applied(start, ms[..|ms| - 1]), ms[|ms| - 1]))
  }

  function GpuPart(ms: seq<Message>): (part: seq<Message>)
    ensures forall m :: m in part ==> m.GpuMessage?
  {
    if ms == [] then []
    else GpuPart(ms[..|ms| - 1]) + if ms[|ms| - 1].GpuMessage? then [ms[|ms| - 1]] else []
  }

  function CpuPart(ms: seq<Message>): (part: seq<Message>)
    ensures forall m :: m in part ==> m.CpuMessage?
  {
    if ms == [] then []
    else CpuPart(ms[..|ms| - 1]) + if ms[|ms| - 1].CpuMessage? then [ms[|ms| - 1]] else []
  }

  predicate IsLatest(ms: seq<Message>, time: real) {
    && (forall i :: 0 <= i < |ms| ==> Milli(ms[i].timestampMs) <= time)
    && exists i :: 0 <= i < |ms| && Milli(ms[i].timestampMs) == time
  }

  function Last(ms: seq<Message>): Message
    requires ms != []
  {
    ms[|ms| - 1]
  }

  /** The last GPU message, the last CPU message and the latest timestamp of either. */
  ghost predicate Means(r: PowerReadings, ms: seq<Message>) {
    && IsLatest(ms, r.timestampS)
    && r.gpuPowerW == (if GpuPart(ms) == [] then map[] else GpuWatts(Last(GpuPart(ms)).gpu))
    && r.cpuPowerW == (if CpuPart(ms) == [] then map[] else CpuWatts(Last(CpuPart(ms)).cpu))
  }

  lemma LatestOfMore(ms: seq<Message>, m: Message, time: real)
    requires IsLatest(ms, time)
    ensures IsLatest(ms + [m], Max(time, Milli(m.timestampMs)))
  {
    var i :| 0 <= i < |ms| && Milli(ms[i].timestampMs) == time;
    assert (ms + [m])[i] == ms[i] && (ms + [m])[|ms|] == m;
  }

  lemma PartsOfMore(ms: seq<Message>, m: Message)
    ensures GpuPart(ms + [m]) == GpuPart(ms) + if m.GpuMessage? then [m] else []
    ensures CpuPart(ms + [m]) == CpuPart(ms) + if m.CpuMessage? then [m] else []
  {
    assert (ms + [m])[..|ms|] == ms;
  }

  lemma MeansMore(r: PowerReadings, ms: seq<Message>, m: Message)
    requires Means(r, ms)
    ensures Means(Updated(Some(r), m), ms + [m])
  {
    hide Milli, GpuWatts, CpuWatts, IsLatest, GpuPart, CpuPart;
    LatestOfMore(ms, m, r.timestampS);
    PartsOfMore(ms, m);
  }

  /** Whatever the interleaving of a server's two streams, its readings mean the same. */
  lemma {:induction false} ReadingsMean(ms: seq<Message>)
    requires ms != []
    ensures Applied(None, ms).Some? && Means(Applied(None, ms).value, ms)
    decreases |ms|
  {
    hide Milli, GpuWatts, CpuWatts, Means, Updated;
    var before, m := ms[..|ms| - 1], ms[|ms| - 1];
    assert ms == before + [m];
    if before != [] {
      ReadingsMean(before);
      MeansMore(Applied(None, before).value, before, m);
    } else {
      AppliedNone(None);
      MeansOne(m);
    }
  }

  lemma MeansOne(m: Message)
    ensures Means(Updated(None, m), [m])
  {
    PartsOfMore([], m);
    assert [] + [m] == [m];
    assert [m][0] == m;
    hide Milli, GpuWatts, CpuWatts;
  }

  /** Two orders of the same two streams end in the same readings. */
  lemma InterleavingIsIrrelevant(ms: seq<Message>, ns: seq<Message>)
    requires GpuPart(ms) == GpuPart(ns) && CpuPart(ms) == CpuPart(ns)
    ensures Applied(None, ms) == Applied(None, ns)
  {
    PartsCover(ms);
    PartsCover(ns);
    if ms != [] && ns != [] {
      ReadingsMean(ms);
      ReadingsMean(ns);
      var r, q := Applied(None, ms).value, Applied(None, ns).value;
      SameLatest(ms, r.timestampS, ns, q.timestampS);
    }
  }

  lemma {:induction false} PartsCover(ms: seq<Message>)
    ensures forall m :: m in ms <==> m in GpuPart(ms) || m in CpuPart(ms)
    ensures ms == [] <==> GpuPart(ms) == [] && CpuPart(ms) == []
    decreases |ms|
  {
    if ms != [] {
      PartsCover(ms[..|ms| - 1]);
      assert ms == ms[..|ms| - 1] + [ms[|ms| - 1]];
    }
  }

  lemma SameLatest(ms: seq<Message>, t: real, ns: seq<Message>, u: real)
    requires IsLatest(ms, t) && IsLatest(ns, u)
    requires forall m :: m in ms <==> m in ns
    ensures t == u
  {
    var i :| 0 <= i < |ms| && Milli(ms[i].timestampMs) == t;
    var j :| 0 <= j < |ns| && Milli(ns[j].timestampMs) == u;
    assert ms[i] in ns && ns[j] in ms;
  }

  /** A server's timestamp never goes back, and its other half is left alone. */
  lemma UpdateKeeps(known: PowerReadings, m: Message)
    ensures Updated(Some(known), m).timestampS >= known.timestampS
    ensures m.GpuMessage? ==> Updated(Some(known), m).cpuPowerW == known.cpuPowerW
    ensures m.CpuMessage? ==> Updated(Some(known), m).gpuPowerW == known.gpuPowerW
  {
  }

  /** Readings are in watts and seconds, messages in milliwatts and milliseconds. */
  lemma UpdateConverts(known: Option<PowerReadings>, m: Message)
    ensures var r := Updated(known, m);
      && (known.None? ==> r.timestampS * 1000.0 == m.timestampMs as real)
      && (m.GpuMessage? ==>
            r.gpuPowerW.Keys == m.gpu.Keys && forall g :: g in m.gpu ==> r.gpuPowerW[g] * 1000.0 == m.gpu[g] as real)
      && (m.CpuMessage? ==> r.cpuPowerW.Keys == m.cpu.Keys && forall c :: c in m.cpu ==>
            && r.cpuPowerW[c].cpuW * 1000.0 == m.cpu[c].cpu as real
            && (r.cpuPowerW[c].dramW.None? <==> m.cpu[c].dram.None?)
            && (m.cpu[c].dram.Some? ==> r.cpuPowerW[c].dramW.value * 1000.0 == m.cpu[c].dram.value as real))
  {
  }

  lemma {:induction false} AppliedMore(start: Option<PowerReadings>, m: Message, rest: seq<Message>)
    ensures Applied(start, [m] + rest) == Applied(Some(Updated(start, m)), rest)
    decreases |rest|
  {
    var ms := [m] + rest;
    if rest == [] {
      assert ms == [m] && [m][..0] == [];
    } else {
      assert ms[..|ms| - 1] == [m] + rest[..|rest| - 1];
      AppliedMore(start, m, rest[..|rest| - 1]);
    }
  }

  /** Handling payloads applies the messages among them to the readings of that server only. */
  lemma {:induction false} HandleApplies(readings: map<string, PowerReadings>, payloads: seq<string>, key: string,
                                         parse: string -> Option<Message>)
    ensures var after := HandlePayloads(readings, payloads, key, parse);
      && Looked(after, key) == Applied(Looked(readings, key), Parsed(payloads, parse))
      && (forall k :: k != key ==> Looked(after, k) == Looked(readings, k))
      && (key in readings ==> key in after && after[key].timestampS >= readings[key].timestampS)
    decreases |payloads|
  {
    hide Updated, Applied;
    if payloads == [] {
      assert Applied(Looked(readings, key), []) == Looked(readings, key) by { AppliedNone(Looked(readings, key)); }
    } else {
      var m := parse(payloads[0]);
      if m.Some? {
        var next := readings[key := Updated(Looked(readings, key), m.value)];
        HandleApplies(next, payloads[1..], key, parse);
        AppliedMore(Looked(readings, key), m.value, Parsed(payloads[1..], parse));
        if key in readings {
          UpdateKeeps(readings[key], m.value);
        }
      } else {
        HandleApplies(readings, payloads[1..], key, parse);
        assert [] + Parsed(payloads[1..], parse) == Parsed(payloads[1..], parse);
      }
    }
  }

  lemma AppliedNone(start: Option<PowerReadings>)
    ensures Applied(start, []) == start
  {
  }

  // ---- From the server's messages to the client's readings ----

  /** Rendered text: one line, non-empty, not ending in white space, and read back as the same message. */
  ghost predicate Renders(ms: seq<Message>, show: Message -> string, parse: string -> Option<Message>) {
    forall m :: m in ms ==>
      OneLine(show(m)) && show(m) != "" && !IsSpace(show(m)[|show(m)| - 1]) && parse(show(m)) == Some(m)
  }

  function Shown(ms: seq<Message>, show: Message -> string): seq<string> {
    if ms == [] then [] else [show(ms[0])] + Shown(ms[1..], show)
  }

  lemma {:induction false} ShownComesBack(ms: seq<Message>, show: Message -> string, parse: string -> Option<Message>,
                                          events: seq<string>)
    requires Renders(ms, show, parse) && |events| == |ms|
    requires forall i :: 0 <= i < |ms| ==> events[i] == DATA + show(ms[i])
    ensures Parsed(AllPayloads(events), parse) == ms
    decreases |ms|
  {
    hide Payloads;
    if ms != [] {
      var p := show(ms[0]);
      PayloadSurvivesExactlyWhen(p);
      ShownComesBack(ms[1..], show, parse, events[1..]);
      assert AllPayloads(events) == [p] + AllPayloads(events[1..]);
      assert ([p] + AllPayloads(events[1..]))[1..] == AllPayloads(events[1..]);
      assert ms == [ms[0]] + ms[1..];
    } else {
      assert events == [];
    }
  }

  lemma {:induction false} ShownIs(ms: seq<Message>, show: Message -> string)
    ensures |Shown(ms, show)| == |ms| && forall i :: 0 <= i < |ms| ==> Shown(ms, show)[i] == show(ms[i])
    decreases |ms|
  {
    if ms != [] {
      ShownIs(ms[1..], show);
    }
  }

  /** For every chunking of the frames of `ms`, the client recovers exactly `ms` in order, with an empty buffer, and its
      readings of that server are those of the messages. */
  lemma SentIsReceived(ms: seq<Message>, show: Message -> string, parse: string -> Option<Message>, chunks: seq<string>,
                       readings: map<string, PowerReadings>, key: string)
    requires Renders(ms, show, parse) && Joined(chunks) == FramesOf(Shown(ms, show))
    ensures Parsed(AllPayloads(Fed("", chunks).0), parse) == ms && Fed("", chunks).1 == ""
    ensures Looked(HandlePayloads(readings, AllPayloads(Fed("", chunks).0), key, parse), key)
            == Applied(Looked(readings, key), ms)
  {
    ChunkingIsIrrelevant("", chunks);
    assert "" + Joined(chunks) == Joined(chunks);
    ShownIs(ms, show);
    FramesAreCut(Shown(ms, show));
    ShownComesBack(ms, show, parse, Fed("", chunks).0);
    HandleApplies(readings, AllPayloads(Fed("", chunks).0), key, parse);
  }

  // ---- The client ----

  /** The chunks handled before the stop event is seen; `stopped[k]` is what the check before chunk k finds. */
  function Until(chunks: seq<string>, stopped: seq<bool>): seq<string>
    requires |stopped| == |chunks|
  {
    if chunks == [] || stopped[0] then [] else [chunks[0]] + Until(chunks[1..], stopped[1..])
  }

  class PowerStreamingClient {
    var readings: map<string, PowerReadings>

    constructor ()
      ensures readings == map[]
    {
      readings := map[];
    }

    /** `_process_gpu_event` and `_process_cpu_event`: they differ in the messages `parse` yields. */
    method ProcessEvent(event: string, key: string, parse: string -> Option<Message>)
      modifies this
      ensures readings == HandlePayloads(old(readings), Payloads(event), key, parse)
    {
      hide Updated;
      var lines := Split(Strip(event), '\n');
      var i := 0;
      while i < |lines|
        invariant 0 <= i <= |lines|
        invariant HandlePayloads(readings, DataOf(lines[i..]), key, parse)
                  == HandlePayloads(old(readings), DataOf(lines), key, parse)
      {
        var line := lines[i];
        assert lines[i..][1..] == lines[i + 1..];
        if DATA <= line {
          var data := line[|DATA|..];
          assert DataOf(lines[i..])[1..] == DataOf(lines[i + 1..]);
          var m := parse(data);
          if m.Some? {
            readings := readings[key := Updated(Looked(readings, key), m.value)];
          }
        } else {
          assert DataOf(lines[i..]) == DataOf(lines[i + 1..]);
        }
        i := i + 1;
      }
      assert lines[i..] == [];
    }

    /** Hands every complete event of the buffer on, and returns what is left of it. */
    method Drain(text: string, key: string, parse: string -> Option<Message>) returns (buffer: string)
      modifies this
      ensures buffer == Tail(text)
      ensures readings == HandlePayloads(old(readings), AllPayloads(Events(text)), key, parse)
    {
      hide HandlePayloads, Payloads, Events, Tail, FirstBreak, AllPayloads;
      buffer := text;
      EventsStep(buffer);
      while FirstBreak(buffer) >= 0
        invariant Tail(buffer) == Tail(text)
        invariant HandlePayloads(readings, AllPayloads(Events(buffer)), key, parse)
               == HandlePayloads(old(readings), AllPayloads(Events(text)), key, parse)
        decreases |buffer|
      {
        EventsStep(buffer);
        var k := FirstBreak(buffer);
        var event := buffer[..k];
        buffer := buffer[k + 2..];
        PayloadsOfMore([event], Events(buffer));
        PayloadsOfOne(event);
        HandleMore(readings, Payloads(event), AllPayloads(Events(buffer)), key, parse);
        ProcessEvent(event, key, parse);
      }
      EventsStep(buffer);
      EmptyText();
      HandleNone(readings, key, parse);
    }

    /** Reads one connection: for every chunking, the readings afterwards are those of the events of the whole text
        received before the stop. */
    method ConnectAndStream(chunks: seq<string>, stopped: seq<bool>, key: string, parse: string -> Option<Message>)
      requires |stopped| == |chunks|
      modifies this
      ensures readings == HandlePayloads(old(readings), AllPayloads(Events(Joined(Until(chunks, stopped)))), key, parse)
    {
      hide HandlePayloads, Events, Tail, FirstBreak, AllPayloads, Until, Fed;
      var buffer := "";
      var i := 0;
      ghost var all := Until(chunks, stopped);
      assert chunks[0..] == chunks && stopped[0..] == stopped;
      EmptyText();
      while i < |chunks| && !stopped[i]
        invariant 0 <= i <= |chunks|
        invariant HandlePayloads(readings, AllPayloads(Fed(buffer, Until(chunks[i..], stopped[i..])).0), key, parse)
               == HandlePayloads(old(readings), AllPayloads(Fed("", all).0), key, parse)
      {
        UntilStep(chunks, stopped, i);
        ghost var rest := Until(chunks[i + 1..], stopped[i + 1..]);
        ghost var before := buffer;
        buffer := buffer + chunks[i];
        FedStep(before, chunks[i], rest);
        ghost var later := Fed(Tail(buffer), rest).0;
        PayloadsOfMore(Events(buffer), later);
        HandleMore(readings, AllPayloads(Events(buffer)), AllPayloads(later), key, parse);
        buffer := Drain(buffer, key, parse);
        i := i + 1;
      }
      UntilStep(chunks, stopped, i);
      FedNothing(buffer);
      HandleNone(readings, key, parse);
      ChunkingIsIrrelevant("", all);
      assert "" + Joined(all) == Joined(all);
    }
  }

  lemma UntilStep(chunks: seq<string>, stopped: seq<bool>, i: nat)
    requires |stopped| == |chunks| && i <= |chunks|
    ensures Until(chunks[i..], stopped[i..])
         == if i == |chunks| || stopped[i] then [] else [chunks[i]] + Until(chunks[i + 1..], stopped[i + 1..])
  {
    if i < |chunks| {
      assert chunks[i..][1..] == chunks[i + 1..] && stopped[i..][1..] == stopped[i + 1..];
    }
  }

  lemma FedStep(buffer: string, chunk: string, rest: seq<string>)
    ensures Fed(buffer, [chunk] + rest).0 == Events(buffer + chunk) + Fed(Tail(buffer + chunk), rest).0
  {
    assert ([chunk] + rest)[1..] == rest;
  }

  lemma FedNothing(buffer: string)
    ensures Fed(buffer, []).0 == []
  {
  }

  lemma EmptyText()
    ensures FirstBreak("") == -1 && AllPayloads([]) == []
  {
  }

  lemma HandleNone(readings: map<string, PowerReadings>, key: string, parse: string -> Option<Message>)
    ensures HandlePayloads(readings, [], key, parse) == readings
  {
  }

  lemma EventsStep(text: string)
    ensures var k := FirstBreak(text);
      if k < 0 then Events(text) == [] && Tail(text) == text
      else Events(text) == [text[..k]] + Events(text[k + 2..]) && Tail(text) == Tail(text[k + 2..])
  {
  }

  lemma PayloadsOfOne(event: string)
    ensures AllPayloads([event]) == Payloads(event)
  {
    assert [event][1..] == [];
    assert Payloads(event) + [] == Payloads(event);
  }
}
