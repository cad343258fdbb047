/** The measurement log: zeus/monitor/energy.py writes one CSV line per ended window, and the ReplayZeusMonitor of
    zeus/utils/testing.py reads the file back in place of the hardware. How a number is written and read is a pair of
    parameters; meters are read in millijoules. */
module ReplayLog {
  import opened Lists
  import opened Outcomes
  import opened Text

  datatype Measurement = Measurement(time: real, gpuEnergy: map<nat, real>)

  datatype Error =
    | WindowExists      // ValueError of the monitor, RuntimeError of the replay
    | NoSuchWindow      // likewise
    | OutOfLines
    | WrongWindow
    | WrongCount
    | BadLine           // fewer than two fields
    | BadNumber

  datatype Outcome = Began | Ended(measurement: Measurement) | Raised(error: Error)

  /** A call, with what the clock and the energy meters show at that moment. */
  datatype Call =
    | Begin(key: string, now: real, meter: nat -> real)
    | End(key: string, cancel: bool, now: real, meter: nat -> real)

  function Zero(gpus: seq<nat>): Measurement {
    Measurement(0.0, map g | g in gpus :: 0.0)
  }

  // ---- Numbers and lines as text ----

  predicate OneLine(s: string) {
    '\n' !in s && '\r' !in s
  }

  /** Text that can be a field of a line. */
  predicate Plain(s: string) {
    ',' !in s && OneLine(s)
  }

  /** What is assumed of the text of the numbers there are: plain, and read back as the same number, also before a line
      end. */
  ghost predicate Numerals(floats: iset<real>, show: real -> string, parse: string -> Option<real>) {
    forall x :: x in floats ==> Plain(show(x)) && parse(show(x)) == Some(x) && parse(show(x) + "\n") == Some(x)
  }

  ghost predicate EnergiesIn(floats: iset<real>, gpus: seq<nat>, energy: map<nat, real>) {
    forall g :: g in gpus ==> g in energy && energy[g] in floats
  }

  /** All numbers of one line. */
  ghost predicate LineIn(floats: iset<real>, start: real, m: Measurement, gpus: seq<nat>) {
    start in floats && m.time in floats && EnergiesIn(floats, gpus, m.gpuEnergy)
  }

  predicate IsBreak(c: char) {
    c == '\n' || c == '\r'
  }

  /** Where a text-mode file ends its first line. */
  function LineEnd(text: string): (k: nat)
    ensures k <= |text| && (forall i :: 0 <= i < k ==> !IsBreak(text[i])) && (k < |text| ==> IsBreak(text[k]))
  {
    if text == "" || IsBreak(text[0]) then 0 else LineEnd(text[1..]) + 1
  }

  /** `readline` with universal newlines: the line, and the rest of the file. */
  function ReadLine(text: string): (string, string) {
    var k := LineEnd(text);
    if k == |text| then (text, "")
    else (text[..k] + "\n", text[if "\r\n" <= text[k..] then k + 2 else k + 1..])
  }

  lemma EndsAt(head: string, text: string)
    requires OneLine(head) && |head| < |text| && head <= text && IsBreak(text[|head|])
    ensures LineEnd(text) == |head| && ReadLine(text).0 == head + "\n"
  {
    var k := LineEnd(text);
    assert forall i :: 0 <= i < |head| ==> text[i] == head[i];
    assert k == |head|;
    assert text[..k] == head;
  }

  lemma ReadsFirstLine(body: string, rest: string)
    requires OneLine(body)
    ensures ReadLine(body + "\n" + rest) == (body + "\n", rest)
  {
    var text := body + "\n" + rest;
    assert text == body + ("\n" + rest) && text[|body|] == '\n';
    EndsAt(body, text);
    assert text[|body|..][0] == '\n';
    assert text[|body| + 1..] == rest;
  }

  function Shown(gpus: seq<nat>, energy: map<nat, real>, show: real -> string): seq<string>
    requires forall g :: g in gpus ==> g in energy
  {
    if gpus == [] then [] else [show(energy[gpus[0]])] + Shown(gpus[1..], energy, show)
  }

  /** The line the monitor writes, without its line end. */
  function LogLine(start: real, key: string, m: Measurement, gpus: seq<nat>, show: real -> string): string
    requires forall g :: g in gpus ==> g in m.gpuEnergy
  {
    show(start) + "," + key + "," + show(m.time) + "," + Join(Shown(gpus, m.gpuEnergy, show), ',')
  }

  /** `map(float, nums)`, None for its ValueError. */
  function Numbers(texts: seq<string>, parse: string -> Option<real>): (r: Option<seq<real>>)
    ensures r.Some? ==> |r.value| == |texts|
  {
    if texts == [] then Some([])
    else
      var x := parse(texts[0]);
      var rest := Numbers(texts[1..], parse);
      if x.None? || rest.None? then None else Some([x.value] + rest.value)
  }

  /** `dict(zip(gpus, xs))`. */
  function Zip(gpus: seq<nat>, xs: seq<real>): map<nat, real>
    requires |xs| == |gpus|
  {
    if gpus == [] then map[] else Zip(gpus[..|gpus| - 1], xs[..|xs| - 1])[gpus[|gpus| - 1] := xs[|xs| - 1]]
  }

  /** How the replay reads one line. */
  function ParseLine(line: string, key: string, gpus: seq<nat>, matchName: bool, parse: string -> Option<real>)
    : Result<Measurement, Error>
  {
    ParseFields(Split(line, ','), key, gpus, matchName, parse)
  }

  function ParseFields(fields: seq<string>, key: string, gpus: seq<nat>, matchName: bool, parse: string -> Option<real>)
    : Result<Measurement, Error>
  {
    if |fields| < 2 then Err(BadLine)
    else if matchName && fields[1] != key then Err(WrongWindow)
    else if |fields| - 2 != |gpus| + 1 then Err(WrongCount)
    else
      var xs := Numbers(fields[2..], parse);
      if xs.None? then Err(BadNumber) else Ok(Measurement(xs.value[0], Zip(gpus, xs.value[1..])))
  }

  // ---- One line read back ----

  /** The fields with the line end on the last of them. */
  function WithEnd(fields: seq<string>): seq<string>
    requires fields != []
  {
    fields[..|fields| - 1] + [fields[|fields| - 1] + "\n"]
  }

  lemma {:induction false} JoinWithEnd(fields: seq<string>)
    requires fields != []
    ensures Join(WithEnd(fields), ',') == Join(fields, ',') + "\n"
    decreases |fields|
  {
    if |fields| == 1 {
      assert WithEnd(fields) == [fields[0] + "\n"];
    } else {
      JoinWithEnd(fields[1..]);
      assert WithEnd(fields)[0] == fields[0] && WithEnd(fields)[1..] == WithEnd(fields[1..]);
    }
  }

  lemma {:induction false} ShownIsPlain(floats: iset<real>, gpus: seq<nat>, energy: map<nat, real>,
                                        show: real -> string, parse: string -> Option<real>)
    requires Numerals(floats, show, parse) && EnergiesIn(floats, gpus, energy)
    ensures |Shown(gpus, energy, show)| == |gpus|
    ensures forall i :: 0 <= i < |gpus| ==> Shown(gpus, energy, show)[i] == show(energy[gpus[i]])
    ensures forall p :: p in Shown(gpus, energy, show) ==> ',' !in p && '\n' !in p && '\r' !in p
    decreases |gpus|
  {
    if gpus != [] {
      ShownIsPlain(floats, gpus[1..], energy, show, parse);
      var x := energy[gpus[0]];
      assert Plain(show(x));
      assert Shown(gpus, energy, show)[1..] == Shown(gpus[1..], energy, show);
    }
  }

  lemma ShownReads(floats: iset<real>, gpus: seq<nat>, energy: map<nat, real>,
                   show: real -> string, parse: string -> Option<real>)
    requires Numerals(floats, show, parse) && gpus != [] && EnergiesIn(floats, gpus, energy)
    ensures |WithEndOf(gpus, energy, show)| == |gpus|
    ensures forall i :: 0 <= i < |gpus| ==> parse(WithEndOf(gpus, energy, show)[i]) == Some(energy[gpus[i]])
  {
    ShownIsPlain(floats, gpus, energy, show, parse);
    forall i | 0 <= i < |gpus|
      ensures parse(WithEndOf(gpus, energy, show)[i]) == Some(energy[gpus[i]])
    {
      var x := energy[gpus[i]];
      assert parse(show(x)) == Some(x) && parse(show(x) + "\n") == Some(x);
    }
  }

  function WithEndOf(gpus: seq<nat>, energy: map<nat, real>, show: real -> string): seq<string>
    requires gpus != [] && forall g :: g in gpus ==> g in energy
  {
    WithEnd(Shown(gpus, energy, show))
  }

  lemma {:induction false} NumbersOf(texts: seq<string>, xs: seq<real>, parse: string -> Option<real>)
    requires |xs| == |texts| && forall i :: 0 <= i < |xs| ==> parse(texts[i]) == Some(xs[i])
    ensures Numbers(texts, parse) == Some(xs)
    decreases |texts|
  {
    if texts == [] {
      assert xs == [];
    } else {
      NumbersOf(texts[1..], xs[1..], parse);
      assert xs == [xs[0]] + xs[1..];
    }
  }

  lemma {:induction false} ZipOf(gpus: seq<nat>, xs: seq<real>, energy: map<nat, real>)
    requires |xs| == |gpus| && forall i :: 0 <= i < |gpus| ==> gpus[i] in energy && energy[gpus[i]] == xs[i]
    ensures Zip(gpus, xs) == map g | g in gpus :: energy[g]
    decreases |gpus|
  {
    if gpus != [] {
      var n := |gpus| - 1;
      ZipOf(gpus[..n], xs[..n], energy);
      assert forall g :: g in gpus <==> g in gpus[..n] || g == gpus[n];
    }
  }

  /** The last fields of a line, the line end included. */
  lemma TailFields(floats: iset<real>, gpus: seq<nat>, energy: map<nat, real>,
                   show: real -> string, parse: string -> Option<real>)
    requires Numerals(floats, show, parse) && EnergiesIn(floats, gpus, energy)
    ensures Split(Join(Shown(gpus, energy, show), ',') + "\n", ',')
            == if gpus == [] then ["\n"] else WithEndOf(gpus, energy, show)
  {
    if gpus == [] {
      SplitNone("\n", ',');
      assert Join(Shown(gpus, energy, show), ',') + "\n" == "\n";
    } else {
      var shown := Shown(gpus, energy, show);
      ShownIsPlain(floats, gpus, energy, show, parse);
      JoinWithEnd(shown);
      SplitOfJoin(WithEnd(shown), ',');
    }
  }

  lemma SplitFour(a: string, b: string, c: string, d: string)
    requires ',' !in a && ',' !in c
    ensures Split(a + "," + b + "," + c + "," + d, ',') == [a] + Split(b, ',') + [c] + Split(d, ',')
  {
    hide Split;
    SplitNone(a, ',');
    SplitNone(c, ',');
    SplitOfMore(c, ',', d);
    SplitOfMore(b, ',', c + [','] + d);
    SplitOfMore(a, ',', b + [','] + (c + [','] + d));
    assert a + "," + b + "," + c + "," + d == a + [','] + (b + [','] + (c + [','] + d));
  }

  /** The fields of a written line as the replay splits it; the key may hold commas. */
  lemma FieldsOfLine(floats: iset<real>, start: real, key: string, m: Measurement, gpus: seq<nat>, show: real -> string,
                     parse: string -> Option<real>)
    requires Numerals(floats, show, parse) && LineIn(floats, start, m, gpus)
    ensures Split(LogLine(start, key, m, gpus, show) + "\n", ',')
      == [show(start)] + Split(key, ',') + [show(m.time)]
         + if gpus == [] then ["\n"] else WithEndOf(gpus, m.gpuEnergy, show)
  {
    hide Split, WithEndOf;
    var energies := Join(Shown(gpus, m.gpuEnergy, show), ',');
    assert Plain(show(start)) && Plain(show(m.time));
    TailFields(floats, gpus, m.gpuEnergy, show, parse);
    SplitFour(show(start), key, show(m.time), energies + "\n");
    assert LogLine(start, key, m, gpus, show) + "\n"
        == show(start) + "," + key + "," + show(m.time) + "," + (energies + "\n");
  }

  lemma PlainFieldsReadBack(floats: iset<real>, start: real, key: string, m: Measurement, gpus: seq<nat>,
                            matchName: bool, show: real -> string, parse: string -> Option<real>)
    requires Numerals(floats, show, parse) && LineIn(floats, start, m, gpus)
    requires m.gpuEnergy.Keys == (set g | g in gpus) && gpus != [] && Plain(key)
    ensures ParseLine(LogLine(start, key, m, gpus, show) + "\n", key, gpus, matchName, parse) == Ok(m)
  {
    hide Split, LogLine, Plain, WithEndOf;
    FieldsOfLine(floats, start, key, m, gpus, show, parse);
    KeyIsOneField(key);
    ShownReads(floats, gpus, m.gpuEnergy, show, parse);
    var tail := WithEndOf(gpus, m.gpuEnergy, show);
    var line := LogLine(start, key, m, gpus, show) + "\n";
    assert Split(line, ',') == [show(start), key] + ([show(m.time)] + tail);
    assert parse(show(m.time)) == Some(m.time);
    hide Numerals, ParseFields;
    FieldsParse(show(start), key, show(m.time), tail, m, gpus, matchName, parse);
  }

  lemma FieldsParse(first: string, key: string, time: string, tail: seq<string>, m: Measurement, gpus: seq<nat>,
                    matchName: bool, parse: string -> Option<real>)
    requires |tail| == |gpus|
    requires m.gpuEnergy.Keys == (set g | g in gpus) && parse(time) == Some(m.time)
    requires forall i :: 0 <= i < |gpus| ==> gpus[i] in m.gpuEnergy && parse(tail[i]) == Some(m.gpuEnergy[gpus[i]])
    ensures ParseFields([first, key] + ([time] + tail), key, gpus, matchName, parse) == Ok(m)
  {
    hide Zip, Numbers, ParseFields;
    var xs := EnergiesOf(gpus, m.gpuEnergy);
    NumbersOf(tail, xs, parse);
    ZipOf(gpus, xs, m.gpuEnergy);
    FirstNumber(time, m.time, tail, xs, parse);
    AfterTwo(first, key, [time] + tail);
    NumbersParse([first, key] + ([time] + tail), key, gpus, matchName, parse, m.time, xs);
    assert m.gpuEnergy == map g | g in gpus :: m.gpuEnergy[g];
  }

  lemma NumbersParse(fields: seq<string>, key: string, gpus: seq<nat>, matchName: bool, parse: string -> Option<real>,
                     time: real, xs: seq<real>)
    requires |fields| == |gpus| + 3 && |xs| == |gpus| && fields[1] == key
    requires Numbers(fields[2..], parse) == Some([time] + xs)
    ensures ParseFields(fields, key, gpus, matchName, parse) == Ok(Measurement(time, Zip(gpus, xs)))
  {
    hide Zip, Numbers;
    AfterOne(time, xs);
  }

  function EnergiesOf(gpus: seq<nat>, energy: map<nat, real>): (xs: seq<real>)
    requires forall i :: 0 <= i < |gpus| ==> gpus[i] in energy
    ensures |xs| == |gpus| && forall i :: 0 <= i < |gpus| ==> xs[i] == energy[gpus[i]]
  {
    seq(|gpus|, i requires 0 <= i < |gpus| => energy[gpus[i]])
  }

  lemma AfterTwo(a: string, b: string, rest: seq<string>)
    ensures ([a, b] + rest)[2..] == rest
  {
  }

  lemma AfterOne(x: real, rest: seq<real>)
    ensures ([x] + rest)[1..] == rest
  {
  }

  lemma FirstNumber(first: string, x: real, rest: seq<string>, xs: seq<real>, parse: string -> Option<real>)
    requires parse(first) == Some(x) && Numbers(rest, parse) == Some(xs)
    ensures Numbers([first] + rest, parse) == Some([x] + xs)
  {
    assert ([first] + rest)[1..] == rest;
  }

  lemma KeyIsOneField(key: string)
    requires Plain(key)
    ensures Split(key, ',') == [key]
  {
  }

  lemma LineIsOneLine(floats: iset<real>, start: real, key: string, m: Measurement, gpus: seq<nat>,
                      show: real -> string, parse: string -> Option<real>)
    requires Numerals(floats, show, parse) && OneLine(key) && LineIn(floats, start, m, gpus)
    ensures OneLine(LogLine(start, key, m, gpus, show))
  {
    ShownIsPlain(floats, gpus, m.gpuEnergy, show, parse);
    JoinHolds(Shown(gpus, m.gpuEnergy, show), ',', '\n');
    JoinHolds(Shown(gpus, m.gpuEnergy, show), ',', '\r');
    assert Plain(show(start)) && Plain(show(m.time));
  }

  /** A written line comes back as the measurement exactly when there is a GPU to report and the key is plain. */
  lemma ReadsBackExactlyWhen(floats: iset<real>, start: real, key: string, m: Measurement, gpus: seq<nat>, rest: string,
                             show: real -> string, parse: string -> Option<real>)
    requires Numerals(floats, show, parse) && LineIn(floats, start, m, gpus)
    requires m.gpuEnergy.Keys == set g | g in gpus
    ensures var read := ReadLine(LogLine(start, key, m, gpus, show) + "\n" + rest);
      ParseLine(read.0, key, gpus, true, parse) == Ok(m) <==> gpus != [] && Plain(key)
  {
    hide ParseLine, LogLine, ReadLine, Plain;
    if !OneLine(key) {
      BrokenKeyFails(floats, start, key, m, gpus, rest, show, parse);
      NotPlain(key);
    } else {
      LineIsOneLine(floats, start, key, m, gpus, show, parse);
      ReadsFirstLine(LogLine(start, key, m, gpus, show), rest);
      if gpus != [] && Plain(key) {
        PlainFieldsReadBack(floats, start, key, m, gpus, true, show, parse);
      } else {
        MisshapenLineFails(floats, start, key, m, gpus, show, parse);
      }
    }
  }

  lemma NotPlain(key: string)
    requires !OneLine(key)
    ensures !Plain(key)
  {
  }

  lemma MisshapenLineFails(floats: iset<real>, start: real, key: string, m: Measurement, gpus: seq<nat>,
                           show: real -> string, parse: string -> Option<real>)
    requires Numerals(floats, show, parse) && OneLine(key) && LineIn(floats, start, m, gpus)
    requires gpus == [] || !Plain(key)
    ensures ParseLine(LogLine(start, key, m, gpus, show) + "\n", key, gpus, true, parse).Err?
  {
    hide Split, LogLine, Numbers, Zip;
    FieldsOfLine(floats, start, key, m, gpus, show, parse);
    ShownIsPlain(floats, gpus, m.gpuEnergy, show, parse);
    OnePartExactlyWhen(key, ',');
  }

  lemma Regroup(a: string, k1: string, k2: string, c: string, d: string, rest: string)
    requires k2 != ""
    ensures var text := a + "," + (k1 + k2) + "," + c + "," + d + "\n" + rest;
      var head := a + "," + k1;
      |head| < |text| && head <= text && text[|head|] == k2[0]
  {
    var text, head := a + "," + (k1 + k2) + "," + c + "," + d + "\n" + rest, a + "," + k1;
    var tail := "," + c + "," + d + "\n" + rest;
    assert a + "," + (k1 + k2) == head + k2;
    assert text == (head + k2) + tail;
  }

  /** A field with a line break ends its line early. */
  lemma BrokenFieldEndsLine(a: string, k1: string, k2: string, c: string, d: string, rest: string)
    requires OneLine(a + "," + k1) && k2 != "" && IsBreak(k2[0])
    ensures ReadLine(a + "," + (k1 + k2) + "," + c + "," + d + "\n" + rest).0 == a + "," + k1 + "\n"
  {
    hide ReadLine, OneLine;
    Regroup(a, k1, k2, c, d, rest);
    EndsAt(a + "," + k1, a + "," + (k1 + k2) + "," + c + "," + d + "\n" + rest);
  }

  lemma BreakSplits(key: string)
    requires !OneLine(key)
    ensures var k := LineEnd(key); k < |key| && OneLine(key[..k]) && IsBreak(key[k..][0]) && key == key[..k] + key[k..]
  {
    BreakComes(key);
    hide LineEnd, OneLine;
    var k := LineEnd(key);
    CutAt(key, k);
    NoBreaks(key[..k]);
  }

  lemma CutAt(s: string, k: nat)
    requires k < |s|
    ensures s == s[..k] + s[k..] && s[k..][0] == s[k]
    ensures forall i :: 0 <= i < k ==> s[..k][i] == s[i]
  {
  }

  lemma NoBreaks(s: string)
    requires forall i :: 0 <= i < |s| ==> !IsBreak(s[i])
    ensures OneLine(s)
  {
  }

  lemma BreakComes(key: string)
    requires !OneLine(key)
    ensures LineEnd(key) < |key|
  {
    hide LineEnd;
    var i :| 0 <= i < |key| && IsBreak(key[i]);
  }

  lemma OneLineHead(a: string, b: string)
    requires OneLine(a) && OneLine(b)
    ensures OneLine(a + "," + b)
  {
  }

  /** Whatever such a line starts with, it has too few fields or another name. */
  lemma ShortLineFails(first: string, key: string, k: nat, gpus: seq<nat>, parse: string -> Option<real>)
    requires ',' !in first && k < |key|
    ensures ParseLine(first + "," + key[..k] + "\n", key, gpus, true, parse).Err?
  {
    hide Split;
    var second := key[..k] + "\n";
    SplitNone(first, ',');
    SplitOfMore(first, ',', second);
    JoinOfSplit(second, ',');
    var parts := Split(second, ',');
    assert first + "," + key[..k] + "\n" == first + [','] + second;
    assert Split(first + [','] + second, ',') == [first] + parts;
    assert |parts| > 1 ==> |second| == |parts[0]| + 1 + |Join(parts[1..], ',')|;
    assert |second| <= |key|;
  }

  lemma BrokenKeyFails(floats: iset<real>, start: real, key: string, m: Measurement, gpus: seq<nat>, rest: string,
                       show: real -> string, parse: string -> Option<real>)
    requires Numerals(floats, show, parse) && start in floats && !OneLine(key)
    requires forall g :: g in gpus ==> g in m.gpuEnergy
    ensures ParseLine(ReadLine(LogLine(start, key, m, gpus, show) + "\n" + rest).0, key, gpus, true, parse).Err?
  {
    hide ParseLine, ReadLine, Join, Shown, OneLine;
    var a, k := show(start), LineEnd(key);
    assert Plain(a);
    BreakSplits(key);
    OneLineHead(a, key[..k]);
    BrokenFieldEndsLine(a, key[..k], key[k..], show(m.time), Join(Shown(gpus, m.gpuEnergy, show), ','), rest);
    ShortLineFails(a, key, k, gpus, parse);
  }

  // ---- The header ----

  const START := "start_time"
  const NAME := "window_name"
  const ELAPSED := "elapsed_time"

  function Column(gpu: nat): string {
    "gpu" + Decimal(gpu) + "_energy"
  }

  function Columns(gpus: seq<nat>): seq<string> {
    if gpus == [] then [] else [Column(gpus[0])] + Columns(gpus[1..])
  }

  function Header(gpus: seq<nat>): string {
    START + "," + NAME + "," + ELAPSED + "," + Join(Columns(gpus), ',')
  }

  /** `int(gpu.split("_")[0][3:])`. */
  function ColumnIndex(column: string): Option<nat> {
    var name := Split(column, '_')[0];
    ParseDecimal(if |name| < 3 then "" else name[3..])
  }

  function Indices(columns: seq<string>): Option<seq<nat>> {
    if columns == [] then Some([])
    else
      var rest := Indices(columns[1..]);
      if columns[0] == "" then rest
      else
        var i := ColumnIndex(columns[0]);
        if i.None? || rest.None? then None else Some([i.value] + rest.value)
  }

  /** The GPU indices the replay infers from a header line, None for its ValueError. */
  function InferGpus(header: string): Option<seq<nat>> {
    var fields := Split(header, ',');
    Indices(if |fields| < 3 then [] else fields[3..])
  }

  lemma ColumnIndexOf(gpu: nat, end: string)
    ensures ColumnIndex(Column(gpu) + end) == Some(gpu)
  {
    var name := "gpu" + Decimal(gpu);
    assert '_' !in name;
    SplitNone(name, '_');
    SplitOfMore(name, '_', "energy" + end);
    ColumnParts(name, end);
    assert name[3..] == Decimal(gpu);
    DecimalRoundTrip(gpu);
  }

  lemma ColumnParts(name: string, end: string)
    ensures name + "_energy" + end == name + ['_'] + ("energy" + end)
  {
    assert "_energy" == "_" + "energy";
  }

  lemma ColumnIsPlain(gpu: nat)
    ensures Plain(Column(gpu))
  {
  }

  lemma {:induction false} ColumnsArePlain(gpus: seq<nat>)
    ensures |Columns(gpus)| == |gpus|
    ensures forall i :: 0 <= i < |gpus| ==> Columns(gpus)[i] == Column(gpus[i])
    ensures forall c :: c in Columns(gpus) ==> ',' !in c && '\n' !in c && '\r' !in c
    decreases |gpus|
  {
    hide Column;
    if gpus != [] {
      ColumnIsPlain(gpus[0]);
      ColumnsArePlain(gpus[1..]);
    }
  }

  lemma {:induction false} IndicesOf(columns: seq<string>, gpus: seq<nat>)
    requires |columns| == |gpus|
    requires forall i :: 0 <= i < |gpus| ==> columns[i] != "" && ColumnIndex(columns[i]) == Some(gpus[i])
    ensures Indices(columns) == Some(gpus)
    decreases |gpus|
  {
    hide ColumnIndex;
    if gpus == [] {
      assert columns == [];
    } else {
      IndicesOf(columns[1..], gpus[1..]);
      assert gpus == [gpus[0]] + gpus[1..];
    }
  }

  lemma FixedColumnsArePlain()
    ensures Plain(START) && Plain(NAME) && Plain(ELAPSED)
  {
  }

  lemma SplitFourWithEnd(a: string, b: string, c: string, d: string)
    requires ',' !in a && ',' !in b && ',' !in c
    ensures Split(a + "," + b + "," + c + "," + d + "\n", ',') == [a, b, c] + Split(d + "\n", ',')
  {
    hide Split;
    SplitNone(b, ',');
    SplitFour(a, b, c, d + "\n");
    assert a + "," + b + "," + c + "," + d + "\n" == a + "," + b + "," + c + "," + (d + "\n");
  }

  lemma ColumnsWithEnd(gpus: seq<nat>)
    ensures Split(Join(Columns(gpus), ',') + "\n", ',') == if gpus == [] then ["\n"] else WithEnd(Columns(gpus))
  {
    hide Split, Column;
    ColumnsArePlain(gpus);
    if gpus == [] {
      SplitNone("\n", ',');
      assert Join(Columns(gpus), ',') + "\n" == "\n";
    } else {
      JoinWithEnd(Columns(gpus));
      SplitOfJoin(WithEnd(Columns(gpus)), ',');
    }
  }

  lemma HeaderFields(gpus: seq<nat>)
    ensures Split(Header(gpus) + "\n", ',')
      == [START, NAME, ELAPSED] + if gpus == [] then ["\n"] else WithEnd(Columns(gpus))
  {
    hide Split, Columns, Join, WithEnd, START, NAME, ELAPSED;
    FixedColumnsArePlain();
    SplitFourWithEnd(START, NAME, ELAPSED, Join(Columns(gpus), ','));
    ColumnsWithEnd(gpus);
  }

  /** The header gives the GPU indices back exactly when there are any; without one the replay cannot be opened. */
  lemma HeaderRoundTripExactlyWhen(gpus: seq<nat>)
    ensures InferGpus(Header(gpus) + "\n") == Some(gpus) <==> gpus != []
    ensures gpus == [] ==> InferGpus(Header(gpus) + "\n") == None
  {
    hide Split, Column, Header;
    HeaderFields(gpus);
    ColumnsArePlain(gpus);
    var fields := Split(Header(gpus) + "\n", ',');
    if gpus == [] {
      assert fields[3..] == ["\n"];
      SplitNone("\n", '_');
      assert Indices(["\n"]) == None;
    } else {
      var columns := WithEnd(Columns(gpus));
      assert fields[3..] == columns;
      forall i | 0 <= i < |gpus|
        ensures columns[i] != "" && ColumnIndex(columns[i]) == Some(gpus[i])
      {
        ColumnIndexOf(gpus[i], "");
        ColumnIndexOf(gpus[i], "\n");
        assert Column(gpus[i]) + "" == Column(gpus[i]);
        NonEmpty(gpus[i]);
      }
      IndicesOf(columns, gpus);
    }
  }

  lemma NonEmpty(gpu: nat)
    ensures Column(gpu) != ""
  {
  }

  // ---- The monitor ----

  /** Clock and per-GPU joules at the beginning of a window. */
  datatype Window = Window(time: real, gpuEnergy: map<nat, real>)

  datatype Monitor = Monitor(gpus: seq<nat>, windows: map<string, Window>, log: string)

  ghost predicate MonitorOk(m: Monitor) {
    forall k :: k in m.windows ==> m.windows[k].gpuEnergy.Keys == set g | g in m.gpus
  }

  function Joules(gpus: seq<nat>, meter: nat -> real): map<nat, real> {
    map g | g in gpus :: meter(g) / 1000.0
  }

  function JoulesSince(gpus: seq<nat>, begun: map<nat, real>, meter: nat -> real): (e: map<nat, real>)
    requires forall g :: g in gpus ==> g in begun
    ensures e.Keys == set g | g in gpus
  {
    map g | g in gpus :: meter(g) / 1000.0 - begun[g]
  }

  lemma JoulesSinceMore(gpus: seq<nat>, g: nat, begun: map<nat, real>, meter: nat -> real)
    requires forall h :: h in gpus + [g] ==> h in begun
    ensures JoulesSince(gpus + [g], begun, meter) == JoulesSince(gpus, begun, meter)[g := meter(g) / 1000.0 - begun[g]]
  {
  }

  /** Time and energy between the begin of a window and now. */
  function Since(w: Window, gpus: seq<nat>, now: real, meter: nat -> real): (m: Measurement)
    requires w.gpuEnergy.Keys == set g | g in gpus
    ensures m.gpuEnergy.Keys == set g | g in gpus
  {
    Measurement(now - w.time, JoulesSince(gpus, w.gpuEnergy, meter))
  }

  function MonitorCall(m: Monitor, call: Call, show: real -> string): (Monitor, Outcome)
    requires MonitorOk(m)
  {
    match call
    case Begin(key, now, meter) =>
      if key in m.windows then (m, Raised(WindowExists))
      else (m.(windows := m.windows[key := Window(now, Joules(m.gpus, meter))]), Began)
    case End(key, cancel, now, meter) =>
      if key !in m.windows then (m, Raised(NoSuchWindow))
      else
        var rest := m.(windows := m.windows - {key});
        if cancel then (rest, Ended(Zero(m.gpus)))
        else
          var measured := Since(m.windows[key], m.gpus, now, meter);
          (rest.(log := m.log + (LogLine(m.windows[key].time, key, measured, m.gpus, show) + "\n")), Ended(measured))
  }

  lemma MonitorCallKeepsOk(m: Monitor, call: Call, show: real -> string)
    requires MonitorOk(m)
    ensures MonitorOk(MonitorCall(m, call, show).0) && MonitorCall(m, call, show).0.gpus == m.gpus
  {
    hide LogLine, Since;
  }

  function MonitorRun(m: Monitor, calls: seq<Call>, show: real -> string): (Monitor, seq<Outcome>)
    requires MonitorOk(m)
    decreases |calls|
  {
    if calls == [] then (m, [])
    else
      MonitorCallKeepsOk(m, calls[0], show);
      var (next, outcome) := MonitorCall(m, calls[0], show);
      var (last, outcomes) := MonitorRun(next, calls[1..], show);
      (last, [outcome] + outcomes)
  }

  function NewMonitor(gpus: seq<nat>): Monitor {
    Monitor(gpus, map[], Header(gpus) + "\n")
  }

  /** What a call appends to the log: a line for a window that ends and is not cancelled, otherwise nothing. */
  function WrittenBy(m: Monitor, call: Call, show: real -> string): string
    requires MonitorOk(m)
  {
    if call.End? && !call.cancel && call.key in m.windows then
      var w := m.windows[call.key];
      LogLine(w.time, call.key, Since(w, m.gpus, call.now, call.meter), m.gpus, show) + "\n"
    else ""
  }

  function Written(m: Monitor, calls: seq<Call>, show: real -> string): string
    requires MonitorOk(m)
    decreases |calls|
  {
    if calls == [] then ""
    else
      MonitorCallKeepsOk(m, calls[0], show);
      WrittenBy(m, calls[0], show) + Written(MonitorCall(m, calls[0], show).0, calls[1..], show)
  }

  /** The numbers of the line that a call writes, if it writes one. */
  ghost predicate LogsCall(floats: iset<real>, m: Monitor, call: Call)
    requires MonitorOk(m)
  {
    call.End? && !call.cancel && call.key in m.windows ==>
      LineIn(floats, m.windows[call.key].time, Since(m.windows[call.key], m.gpus, call.now, call.meter), m.gpus)
  }

  /** All numbers that a run writes. */
  ghost predicate Logs(floats: iset<real>, m: Monitor, calls: seq<Call>, show: real -> string)
    requires MonitorOk(m)
    decreases |calls|
  {
    calls == [] ||
      (LogsCall(floats, m, calls[0])
       && (MonitorCallKeepsOk(m, calls[0], show); Logs(floats, MonitorCall(m, calls[0], show).0, calls[1..], show)))
  }

  lemma CallAppends(m: Monitor, call: Call, show: real -> string)
    requires MonitorOk(m)
    ensures MonitorCall(m, call, show).0.log == m.log + WrittenBy(m, call, show)
  {
    hide LogLine, Since;
    assert m.log + "" == m.log;
  }

  lemma {:induction false} LogOnlyGrows(m: Monitor, calls: seq<Call>, show: real -> string)
    requires MonitorOk(m)
    ensures MonitorRun(m, calls, show).0.log == m.log + Written(m, calls, show)
    decreases |calls|
  {
    hide MonitorCall, WrittenBy, MonitorOk;
    if calls == [] {
      assert m.log + "" == m.log;
    } else {
      MonitorCallKeepsOk(m, calls[0], show);
      var next := MonitorCall(m, calls[0], show).0;
      LogOnlyGrows(next, calls[1..], show);
      CallAppends(m, calls[0], show);
      assert m.log + WrittenBy(m, calls[0], show) + Written(next, calls[1..], show)
          == m.log + (WrittenBy(m, calls[0], show) + Written(next, calls[1..], show));
    }
  }

  lemma {:induction false} WindowStays(m: Monitor, calls: seq<Call>, show: real -> string, key: string)
    requires MonitorOk(m) && key in m.windows
    requires forall i :: 0 <= i < |calls| ==> !(calls[i].End? && calls[i].key == key)
    ensures var after := MonitorRun(m, calls, show).0;
      MonitorOk(after) && after.gpus == m.gpus && key in after.windows && after.windows[key] == m.windows[key]
    decreases |calls|
  {
    hide MonitorOk, LogLine, Since, Zero, Joules;
    if calls != [] {
      var call := calls[0];
      MonitorCallKeepsOk(m, call, show);
      assert forall i :: 0 <= i < |calls| - 1 ==> calls[1..][i] == calls[i + 1];
      WindowStays(MonitorCall(m, call, show).0, calls[1..], show, key);
    }
  }

  /** Whatever happens to other windows in between, ending a window measures the time and, for each GPU, the meter
      difference since its own begin. */
  lemma EndMeasuresSinceBegin(m: Monitor, key: string, now: real, meter: nat -> real, calls: seq<Call>, later: real,
                              meterLater: nat -> real, show: real -> string)
    requires MonitorOk(m) && key !in m.windows
    requires forall i :: 0 <= i < |calls| ==> !(calls[i].End? && calls[i].key == key)
    ensures var begun := MonitorCall(m, Begin(key, now, meter), show).0;
      && MonitorOk(begun) && MonitorOk(MonitorRun(begun, calls, show).0)
      && var ended := MonitorCall(MonitorRun(begun, calls, show).0, End(key, false, later, meterLater), show).1;
      && ended.Ended? && ended.measurement.time == later - now
      && ended.measurement.gpuEnergy.Keys == (set g | g in m.gpus)
      && forall g :: g in m.gpus ==> ended.measurement.gpuEnergy[g] * 1000.0 == meterLater(g) - meter(g)
  {
    hide MonitorRun, LogLine;
    MonitorCallKeepsOk(m, Begin(key, now, meter), show);
    WindowStays(MonitorCall(m, Begin(key, now, meter), show).0, calls, show, key);
  }

  // ---- The replay ----

  /** `file` is what the cursor has not passed. */
  datatype Replay = Replay(gpus: seq<nat>, ongoing: seq<string>, file: string)

  function Open(file: string, gpus: Option<seq<nat>>): Option<Replay> {
    var (header, rest) := ReadLine(file);
    var known := if gpus.Some? then gpus else InferGpus(header);
    if known.None? then None else Some(Replay(known.value, [], rest))
  }

  /** `list.remove`: without the first occurrence. */
  function Removed(s: seq<string>, x: string): seq<string> {
    if s == [] then [] else if s[0] == x then s[1..] else [s[0]] + Removed(s[1..], x)
  }

  function ReplayCall(r: Replay, call: Call, matchName: bool, parse: string -> Option<real>): (Replay, Outcome) {
    match call
    case Begin(key, _, _) =>
      if key in r.ongoing then (r, Raised(WindowExists)) else (r.(ongoing := r.ongoing + [key]), Began)
    case End(key, cancel, _, _) =>
      if key !in r.ongoing then (r, Raised(NoSuchWindow))
      else
        var rest := r.(ongoing := Removed(r.ongoing, key));
        if cancel then (rest, Ended(Zero(r.gpus)))
        else
          var (line, file) := ReadLine(r.file);
          if line == "" then (rest, Raised(OutOfLines))
          else
            var parsed := ParseLine(line, key, r.gpus, matchName, parse);
            (rest.(file := file), if parsed.Ok? then Ended(parsed.value) else Raised(parsed.error))
  }

  function ReplayRun(r: Replay, calls: seq<Call>, matchName: bool, parse: string -> Option<real>)
    : (Replay, seq<Outcome>)
    decreases |calls|
  {
    if calls == [] then (r, [])
    else
      var (next, outcome) := ReplayCall(r, calls[0], matchName, parse);
      var (last, outcomes) := ReplayRun(next, calls[1..], matchName, parse);
      (last, [outcome] + outcomes)
  }

  /** The same windows are open on both sides. */
  ghost predicate Alike(m: Monitor, r: Replay) {
    r.gpus == m.gpus && Distinct(r.ongoing) && forall k :: k in r.ongoing <==> k in m.windows
  }

  lemma {:induction false} RemovedIs(s: seq<string>, x: string)
    requires Distinct(s)
    ensures Distinct(Removed(s, x)) && forall y :: y in Removed(s, x) <==> y in s && y != x
    decreases |s|
  {
    if s != [] {
      assert Distinct(s[1..]);
      RemovedIs(s[1..], x);
      assert s == [s[0]] + s[1..];
      assert s[0] !in s[1..];
    }
  }

  /** Every key that gets a line of the log is plain. */
  ghost predicate PlainKeys(calls: seq<Call>) {
    forall i :: 0 <= i < |calls| && calls[i].End? && !calls[i].cancel ==> Plain(calls[i].key)
  }

  lemma CallReplays(floats: iset<real>, m: Monitor, r: Replay, call: Call, rest: string, matchName: bool,
                    show: real -> string, parse: string -> Option<real>)
    requires MonitorOk(m) && Alike(m, r) && m.gpus != [] && Numerals(floats, show, parse)
    requires call.End? && !call.cancel ==> Plain(call.key)
    requires LogsCall(floats, m, call)
    requires r.file == WrittenBy(m, call, show) + rest
    ensures ReplayCall(r, call, matchName, parse).1 == MonitorCall(m, call, show).1
    ensures Alike(MonitorCall(m, call, show).0, ReplayCall(r, call, matchName, parse).0)
    ensures ReplayCall(r, call, matchName, parse).0.file == rest
  {
    hide LogLine, Since, ParseLine, ReadLine, Plain, Numerals, Zero, Joules;
    if call.End? && call.key in m.windows {
      RemovedIs(r.ongoing, call.key);
      if !call.cancel {
        var measured := Since(m.windows[call.key], m.gpus, call.now, call.meter);
        var body := LogLine(m.windows[call.key].time, call.key, measured, m.gpus, show);
        PlainIsOneLine(call.key);
        LineIsOneLine(floats, m.windows[call.key].time, call.key, measured, m.gpus, show, parse);
        ReadsFirstLine(body, rest);
        PlainFieldsReadBack(floats, m.windows[call.key].time, call.key, measured, m.gpus, matchName, show, parse);
      } else {
        assert "" + rest == rest;
      }
    } else {
      assert "" + rest == rest;
      assert call.Begin? ==> Distinct(r.ongoing + [call.key]) || call.key in r.ongoing;
    }
  }

  lemma PlainIsOneLine(s: string)
    requires Plain(s)
    ensures OneLine(s)
  {
  }

  lemma {:induction false} RunReplays(floats: iset<real>, m: Monitor, r: Replay, calls: seq<Call>, matchName: bool,
                                      show: real -> string, parse: string -> Option<real>)
    requires MonitorOk(m) && Alike(m, r) && m.gpus != [] && Numerals(floats, show, parse) && PlainKeys(calls)
    requires Logs(floats, m, calls, show)
    requires r.file == Written(m, calls, show)
    ensures ReplayRun(r, calls, matchName, parse).1 == MonitorRun(m, calls, show).1
    ensures Alike(MonitorRun(m, calls, show).0, ReplayRun(r, calls, matchName, parse).0)
    ensures ReplayRun(r, calls, matchName, parse).0.file == ""
    decreases |calls|
  {
    hide MonitorOk, Alike, Numerals, MonitorCall, ReplayCall, WrittenBy, Plain;
    if calls != [] {
      MonitorCallKeepsOk(m, calls[0], show);
      var next := MonitorCall(m, calls[0], show).0;
      assert r.file == WrittenBy(m, calls[0], show) + Written(next, calls[1..], show);
      CallReplays(floats, m, r, calls[0], Written(next, calls[1..], show), matchName, show, parse);
      assert forall i :: 0 <= i < |calls| - 1 ==> calls[1..][i] == calls[i + 1];
      RunReplays(floats, next, ReplayCall(r, calls[0], matchName, parse).0, calls[1..], matchName, show, parse);
    }
  }

  /** Log and replay undo each other. For every sequence of calls on a monitor with some GPU, in any interleaving of
      windows and whatever raises on the way, a replay opened on the finished log infers the same GPU indices, unless it
      is given them, has the same outcome at every call, and consumes the log exactly. */
  lemma ReplayUndoesLog(floats: iset<real>, gpus: seq<nat>, indices: Option<seq<nat>>, calls: seq<Call>,
                        matchName: bool, show: real -> string, parse: string -> Option<real>)
    requires indices == None || indices == Some(gpus)
    requires gpus != [] && Numerals(floats, show, parse) && PlainKeys(calls)
    requires Logs(floats, NewMonitor(gpus), calls, show)
    ensures MonitorOk(NewMonitor(gpus))
    ensures var (m, outcomes) := MonitorRun(NewMonitor(gpus), calls, show);
      var replay := Open(m.log, indices);
      && replay.Some? && replay.value.gpus == gpus
      && ReplayRun(replay.value, calls, matchName, parse).1 == outcomes
      && ReplayRun(replay.value, calls, matchName, parse).0.file == ""
  {
    hide Header, ReadLine, MonitorRun, ReplayRun, Written, Numerals, PlainKeys, InferGpus;
    var m0 := NewMonitor(gpus);
    LogOnlyGrows(m0, calls, show);
    var written := Written(m0, calls, show);
    HeaderIsOneLine(gpus);
    ReadsFirstLine(Header(gpus), written);
    HeaderRoundTripExactlyWhen(gpus);
    RunReplays(floats, m0, Replay(gpus, [], written), calls, matchName, show, parse);
  }

  /** A line of another window raises where names are matched, and is taken for this one where they are not. */
  lemma OtherNames(floats: iset<real>, start: real, key: string, other: string, m: Measurement, gpus: seq<nat>,
                   show: real -> string, parse: string -> Option<real>)
    requires Numerals(floats, show, parse) && LineIn(floats, start, m, gpus)
    requires m.gpuEnergy.Keys == (set g | g in gpus) && gpus != [] && Plain(key) && other != key
    ensures ParseLine(LogLine(start, key, m, gpus, show) + "\n", other, gpus, true, parse) == Err(WrongWindow)
    ensures ParseLine(LogLine(start, key, m, gpus, show) + "\n", other, gpus, false, parse) == Ok(m)
  {
    PlainFieldsReadBack(floats, start, key, m, gpus, false, show, parse);
    FieldsOfLine(floats, start, key, m, gpus, show, parse);
    KeyIsOneField(key);
    hide Split, LogLine, Plain, WithEndOf, Numbers, Zip;
  }

  /** GPU indices that are given are taken, whatever the header says, and the header is skipped all the same. */
  lemma IndicesAreTaken(header: string, rest: string, indices: seq<nat>)
    requires OneLine(header)
    ensures Open(header + "\n" + rest, Some(indices)) == Some(Replay(indices, [], rest))
  {
    hide ReadLine, InferGpus;
    ReadsFirstLine(header, rest);
  }

  /** Where the log has come to its end, ending an open window raises. */
  lemma LogEnds(r: Replay, key: string, now: real, meter: nat -> real, matchName: bool, parse: string -> Option<real>)
    requires r.file == "" && key in r.ongoing
    ensures ReplayCall(r, End(key, false, now, meter), matchName, parse).1 == Raised(OutOfLines)
  {
  }

  // ---- Numbers that are written exactly ----

  ghost predicate CallIn(floats: iset<real>, gpus: seq<nat>, call: Call) {
    call.now in floats && forall g :: g in gpus ==> call.meter(g) / 1000.0 in floats
  }

  ghost predicate WindowsIn(floats: iset<real>, m: Monitor) {
    forall k :: k in m.windows ==> m.windows[k].time in floats && EnergiesIn(floats, m.gpus, m.windows[k].gpuEnergy)
  }

  ghost predicate Differences(floats: iset<real>) {
    forall x, y :: x in floats && y in floats ==> x - y in floats
  }

  /** Where clock and meters show numbers whose differences are among them, so are all numbers of the log. */
  lemma {:induction false} ReadingsLog(floats: iset<real>, m: Monitor, calls: seq<Call>, show: real -> string)
    requires MonitorOk(m) && WindowsIn(floats, m) && Differences(floats)
    requires forall i :: 0 <= i < |calls| ==> CallIn(floats, m.gpus, calls[i])
    ensures Logs(floats, m, calls, show)
    decreases |calls|
  {
    hide MonitorOk, MonitorCall, LogsCall, WindowsIn, CallIn, Differences;
    if calls != [] {
      CallLogs(floats, m, calls[0], show);
      MonitorCallKeepsOk(m, calls[0], show);
      assert forall i :: 0 <= i < |calls| - 1 ==> calls[1..][i] == calls[i + 1];
      ReadingsLog(floats, MonitorCall(m, calls[0], show).0, calls[1..], show);
    }
  }

  lemma CallLogs(floats: iset<real>, m: Monitor, call: Call, show: real -> string)
    requires MonitorOk(m) && WindowsIn(floats, m) && Differences(floats) && CallIn(floats, m.gpus, call)
    ensures LogsCall(floats, m, call) && WindowsIn(floats, MonitorCall(m, call, show).0)
  {
    hide LogLine, Zero, Since, Joules, EnergiesIn, Differences;
    match call
    case Begin(key, now, meter) =>
      BegunIn(floats, m.gpus, meter);
    case End(key, cancel, now, meter) =>
      if key in m.windows {
        DifferencesIn(floats, m.windows[key], m.gpus, now, meter);
      }
  }

  lemma BegunIn(floats: iset<real>, gpus: seq<nat>, meter: nat -> real)
    requires forall g :: g in gpus ==> meter(g) / 1000.0 in floats
    ensures EnergiesIn(floats, gpus, Joules(gpus, meter))
  {
  }

  lemma DifferencesIn(floats: iset<real>, w: Window, gpus: seq<nat>, now: real, meter: nat -> real)
    requires Differences(floats) && w.gpuEnergy.Keys == set g | g in gpus
    requires w.time in floats && EnergiesIn(floats, gpus, w.gpuEnergy)
    requires now in floats && forall g :: g in gpus ==> meter(g) / 1000.0 in floats
    ensures LineIn(floats, w.time, Since(w, gpus, now, meter), gpus)
  {
    var measured := Since(w, gpus, now, meter);
    forall g | g in gpus
      ensures measured.gpuEnergy[g] in floats
    {
      var begun, later := w.gpuEnergy[g], meter(g) / 1000.0;
      assert begun in floats && later in floats;
      assert measured.gpuEnergy[g] == later - begun;
    }
  }

  ghost function WholeNumbers(): iset<real> {
    iset x: real | x.Floor as real == x
  }

  function Signed(n: int): string {
    if n < 0 then "-" + Decimal(-n) else Decimal(n)
  }

  function ParseSigned(s: string): Option<int> {
    var negative := s != "" && s[0] == '-';
    var n := ParseDecimal(if negative then s[1..] else s);
    if n == None then None else Some(if negative then -(n.value as int) else n.value)
  }

  function Chomped(s: string): string {
    if s != "" && s[|s| - 1] == '\n' then s[..|s| - 1] else s
  }

  function ShowWhole(x: real): string {
    Signed(x.Floor)
  }

  /** Reads an optional sign, digits and an optional line end. */
  function ParseWhole(text: string): Option<real> {
    var n := ParseSigned(Chomped(text));
    if n == None then None else Some(n.value as real)
  }

  /** What is assumed of numbers and their text can be had: whole numbers in decimal notation. */
  lemma WholeNumbersQualify()
    ensures Numerals(WholeNumbers(), ShowWhole, ParseWhole) && Differences(WholeNumbers())
  {
    hide Plain;
    WholeDifferences();
    forall x | x in WholeNumbers()
      ensures Plain(ShowWhole(x)) && ParseWhole(ShowWhole(x)) == Some(x) && ParseWhole(ShowWhole(x) + "\n") == Some(x)
    {
      SignedReadsBack(x.Floor);
      hide Signed, ParseSigned, Chomped;
      Chomps(Signed(x.Floor));
    }
  }

  lemma WholeDifferences()
    ensures Differences(WholeNumbers())
  {
    forall x, y | x in WholeNumbers() && y in WholeNumbers()
      ensures x - y in WholeNumbers()
    {
      WholeDifference(x.Floor, y.Floor);
    }
  }

  lemma WholeDifference(m: int, n: int)
    ensures (m as real - n as real).Floor == m - n
  {
    assert m as real - n as real == (m - n) as real;
  }

  lemma SignedReadsBack(n: int)
    ensures Plain(Signed(n)) && ParseSigned(Signed(n)) == Some(n)
  {
    DecimalRoundTrip(if n < 0 then -n else n);
    DecimalIsPlain(if n < 0 then -n else n);
    hide Decimal, ParseDecimal;
    var digits := Decimal(if n < 0 then -n else n);
    hide Plain;
    SignIsPlain(digits);
  }

  lemma DecimalIsPlain(n: nat)
    ensures Plain(Decimal(n)) && Decimal(n) != "" && Decimal(n)[0] != '-'
  {
    var digits := Decimal(n);
    hide Decimal;
    assert digits[0] in digits;
  }

  lemma SignIsPlain(s: string)
    requires Plain(s)
    ensures Plain("-" + s) && ("-" + s)[0] == '-' && ("-" + s)[1..] == s
  {
  }

  lemma Chomps(s: string)
    requires Plain(s)
    ensures Chomped(s) == s && Chomped(s + "\n") == s
  {
    assert (s + "\n")[..|s|] == s;
  }

  /** So whole seconds and joules replay without any assumption on numbers. */
  lemma WholeNumberLogsReplay(gpus: seq<nat>, calls: seq<Call>, matchName: bool)
    requires gpus != [] && PlainKeys(calls)
    requires forall i :: 0 <= i < |calls| ==> CallIn(WholeNumbers(), gpus, calls[i])
    ensures MonitorOk(NewMonitor(gpus))
    ensures var (m, outcomes) := MonitorRun(NewMonitor(gpus), calls, ShowWhole);
      var replay := Open(m.log, None);
      && replay.Some? && replay.value.gpus == gpus
      && ReplayRun(replay.value, calls, matchName, ParseWhole).1 == outcomes
      && ReplayRun(replay.value, calls, matchName, ParseWhole).0.file == ""
  {
    hide WholeNumbers, CallIn, PlainKeys, MonitorRun, ReplayRun, Open, Logs, Header;
    WholeNumbersQualify();
    ReadingsLog(WholeNumbers(), NewMonitor(gpus), calls, ShowWhole);
    ReplayUndoesLog(WholeNumbers(), gpus, None, calls, matchName, ShowWhole, ParseWhole);
  }

  lemma HeaderIsOneLine(gpus: seq<nat>)
    ensures OneLine(Header(gpus))
  {
    hide Columns, Join, START, NAME, ELAPSED;
    ColumnsArePlain(gpus);
    JoinHolds(Columns(gpus), ',', '\n');
    JoinHolds(Columns(gpus), ',', '\r');
    FixedColumnsArePlain();
    OneLineHead(START, NAME);
    OneLineHead(START + "," + NAME, ELAPSED);
    OneLineHead(START + "," + NAME + "," + ELAPSED, Join(Columns(gpus), ','));
  }

  /** Without GPUs no log can be replayed: opening it raises when the indices are inferred. */
  lemma NoGpusNeverReplays(calls: seq<Call>, show: real -> string)
    ensures MonitorOk(NewMonitor([])) && Open(MonitorRun(NewMonitor([]), calls, show).0.log, None) == None
  {
    hide Header, ReadLine, MonitorRun, Written, InferGpus;
    LogOnlyGrows(NewMonitor([]), calls, show);
    HeaderIsOneLine([]);
    ReadsFirstLine(Header([]), Written(NewMonitor([]), calls, show));
    HeaderRoundTripExactlyWhen([]);
  }

  // ---- Which windows are open, told by the calls alone ----

  /** The window was begun and has not been ended since, cancelled or not. */
  ghost predicate OpenAfter(calls: seq<Call>, key: string) {
    exists i :: 0 <= i < |calls| && calls[i].Begin? && calls[i].key == key && NoEnd(calls, i, key)
  }

  ghost predicate NoEnd(calls: seq<Call>, i: int, key: string) {
    forall j :: 0 <= i < j < |calls| ==> !(calls[j].End? && calls[j].key == key)
  }

  lemma OpenAfterMore(calls: seq<Call>, call: Call, key: string)
    ensures OpenAfter(calls + [call], key) <==>
      if call.key == key then call.Begin? else OpenAfter(calls, key)
  {
    var longer, n := calls + [call], |calls|;
    assert forall i :: 0 <= i < n ==> longer[i] == calls[i];
    assert longer[n] == call;
    forall i | 0 <= i < n
      ensures NoEnd(longer, i, key) <==> NoEnd(calls, i, key) && !(call.End? && call.key == key)
    {
      assert NoEnd(longer, i, key) ==> !(longer[n].End? && longer[n].key == key);
    }
    if call.Begin? && call.key == key {
      assert NoEnd(longer, n, key);
    }
    if OpenAfter(longer, key) {
      var i :| 0 <= i < |longer| && longer[i].Begin? && longer[i].key == key && NoEnd(longer, i, key);
    }
  }

  predicate IsZero(m: Measurement) {
    m.time == 0.0 && forall g :: g in m.gpuEnergy ==> m.gpuEnergy[g] == 0.0
  }

  /** A begin succeeds exactly when the window is not open, and an end finds it exactly when it is; cancelled, it
      reports nothing. */
  ghost predicate Answers(before: seq<Call>, call: Call, outcome: Outcome) {
    if call.Begin? then outcome == if OpenAfter(before, call.key) then Raised(WindowExists) else Began
    else
      && (outcome == Raised(NoSuchWindow) <==> !OpenAfter(before, call.key))
      && (call.cancel && OpenAfter(before, call.key) ==> outcome.Ended? && IsZero(outcome.measurement))
  }

  ghost predicate AllAnswered(done: seq<Call>, calls: seq<Call>, outcomes: seq<Outcome>) {
    && |outcomes| == |calls|
    && forall n :: 0 <= n < |calls| ==> Answers(done + calls[..n], calls[n], outcomes[n])
  }

  lemma AnsweredFirst(done: seq<Call>, calls: seq<Call>, outcome: Outcome, outcomes: seq<Outcome>)
    requires calls != [] && Answers(done, calls[0], outcome) && AllAnswered(done + [calls[0]], calls[1..], outcomes)
    ensures AllAnswered(done, calls, [outcome] + outcomes)
  {
    hide Answers;
    forall n | 0 <= n < |calls|
      ensures Answers(done + calls[..n], calls[n], ([outcome] + outcomes)[n])
    {
      if n == 0 {
        assert done + calls[..0] == done;
      } else {
        assert done + [calls[0]] + calls[1..][..n - 1] == done + calls[..n];
        assert calls[1..][n - 1] == calls[n];
      }
    }
  }

  lemma CallOpens(done: seq<Call>, m: Monitor, call: Call, show: real -> string)
    requires MonitorOk(m) && forall k :: k in m.windows <==> OpenAfter(done, k)
    ensures Answers(done, call, MonitorCall(m, call, show).1)
    ensures forall k :: k in MonitorCall(m, call, show).0.windows <==> OpenAfter(done + [call], k)
  {
    hide OpenAfter, LogLine, Since, Joules;
    forall k
      ensures k in MonitorCall(m, call, show).0.windows <==> OpenAfter(done + [call], k)
    {
      OpenAfterMore(done, call, k);
    }
  }

  lemma {:induction false} RunOpens(done: seq<Call>, m: Monitor, calls: seq<Call>, show: real -> string)
    requires MonitorOk(m) && forall k :: k in m.windows <==> OpenAfter(done, k)
    ensures AllAnswered(done, calls, MonitorRun(m, calls, show).1)
    ensures forall k :: k in MonitorRun(m, calls, show).0.windows <==> OpenAfter(done + calls, k)
    decreases |calls|
  {
    hide MonitorOk, MonitorCall, OpenAfter, Answers;
    if calls == [] {
      assert done + calls == done;
    } else {
      CallOpens(done, m, calls[0], show);
      MonitorCallKeepsOk(m, calls[0], show);
      var next := MonitorCall(m, calls[0], show).0;
      RunOpens(done + [calls[0]], next, calls[1..], show);
      hide AllAnswered;
      AnsweredFirst(done, calls, MonitorCall(m, calls[0], show).1, MonitorRun(next, calls[1..], show).1);
      assert done + [calls[0]] + calls[1..] == done + calls;
    }
  }

  lemma ReplayCallOpens(done: seq<Call>, r: Replay, call: Call, matchName: bool, parse: string -> Option<real>)
    requires Distinct(r.ongoing) && forall k :: k in r.ongoing <==> OpenAfter(done, k)
    ensures Answers(done, call, ReplayCall(r, call, matchName, parse).1)
    ensures Distinct(ReplayCall(r, call, matchName, parse).0.ongoing)
    ensures forall k :: k in ReplayCall(r, call, matchName, parse).0.ongoing <==> OpenAfter(done + [call], k)
  {
    hide OpenAfter, ReadLine, Numbers, Zip, Split;
    if call.End? {
      RemovedIs(r.ongoing, call.key);
    }
    forall k
      ensures k in ReplayCall(r, call, matchName, parse).0.ongoing <==> OpenAfter(done + [call], k)
    {
      OpenAfterMore(done, call, k);
    }
  }

  lemma {:induction false} ReplayRunOpens(done: seq<Call>, r: Replay, calls: seq<Call>, matchName: bool,
                                          parse: string -> Option<real>)
    requires Distinct(r.ongoing) && forall k :: k in r.ongoing <==> OpenAfter(done, k)
    ensures AllAnswered(done, calls, ReplayRun(r, calls, matchName, parse).1)
    ensures forall k :: k in ReplayRun(r, calls, matchName, parse).0.ongoing <==> OpenAfter(done + calls, k)
    decreases |calls|
  {
    hide ReplayCall, OpenAfter, Answers, Distinct;
    if calls == [] {
      assert done + calls == done;
    } else {
      ReplayCallOpens(done, r, calls[0], matchName, parse);
      var (next, outcome) := ReplayCall(r, calls[0], matchName, parse);
      ReplayRunOpens(done + [calls[0]], next, calls[1..], matchName, parse);
      hide AllAnswered;
      AnsweredFirst(done, calls, outcome, ReplayRun(next, calls[1..], matchName, parse).1);
      assert done + [calls[0]] + calls[1..] == done + calls;
    }
  }

  /** Over every sequence of calls on a new monitor: a window is open exactly when it was begun and not ended since, a
      begin succeeds exactly when it is not open, and an end finds it exactly when it is. */
  lemma WindowsOpenAndClose(gpus: seq<nat>, calls: seq<Call>, show: real -> string)
    ensures MonitorOk(NewMonitor(gpus))
    ensures var (m, outcomes) := MonitorRun(NewMonitor(gpus), calls, show);
      && (forall k :: k in m.windows <==> OpenAfter(calls, k))
      && |outcomes| == |calls| && forall n :: 0 <= n < |calls| ==> Answers(calls[..n], calls[n], outcomes[n])
  {
    hide MonitorRun, Header, Answers;
    RunOpens([], NewMonitor(gpus), calls, show);
    NothingDone(calls);
  }

  /** So it is on a replay of any log, also of a log of other calls. */
  lemma ReplayedWindowsOpenAndClose(gpus: seq<nat>, file: string, calls: seq<Call>, matchName: bool,
                                    parse: string -> Option<real>)
    ensures var (r, outcomes) := ReplayRun(Replay(gpus, [], file), calls, matchName, parse);
      && (forall k :: k in r.ongoing <==> OpenAfter(calls, k))
      && |outcomes| == |calls| && forall n :: 0 <= n < |calls| ==> Answers(calls[..n], calls[n], outcomes[n])
  {
    hide ReplayRun, Answers;
    ReplayRunOpens([], Replay(gpus, [], file), calls, matchName, parse);
    NothingDone(calls);
  }

  lemma NothingDone(calls: seq<Call>)
    ensures [] + calls == calls && forall n :: 0 <= n <= |calls| ==> [] + calls[..n] == calls[..n]
  {
  }

  // ---- The two monitors ----

  class ZeusMonitor {
    const gpus: seq<nat>
    const show: real -> string
    var windows: map<string, Window>
    var log: string

    ghost function Model(): Monitor
      reads this
    {
      Monitor(gpus, windows, log)
    }

    constructor (gpus: seq<nat>, show: real -> string)
      ensures Model() == NewMonitor(gpus) && MonitorOk(Model()) && this.show == show
    {
      this.gpus, this.show, windows, log := gpus, show, map[], Header(gpus) + "\n";
    }

    method BeginWindow(key: string, now: real, meter: nat -> real) returns (outcome: Outcome)
      requires MonitorOk(Model())
      modifies this
      ensures (Model(), outcome) == MonitorCall(old(Model()), Begin(key, now, meter), show)
      ensures MonitorOk(Model())
    {
      if key in windows {
        return Raised(WindowExists);
      }
      var energy: map<nat, real> := map[];
      for i := 0 to |gpus|
        invariant Model() == old(Model())
        invariant energy == Joules(gpus[..i], meter)
      {
        assert gpus[..i + 1] == gpus[..i] + [gpus[i]];
        energy := energy[gpus[i] := meter(gpus[i]) / 1000.0];
      }
      assert gpus[..|gpus|] == gpus;
      windows := windows[key := Window(now, energy)];
      outcome := Began;
    }

    method EndWindow(key: string, cancel: bool, now: real, meter: nat -> real) returns (outcome: Outcome)
      requires MonitorOk(Model())
      modifies this
      ensures (Model(), outcome) == MonitorCall(old(Model()), End(key, cancel, now, meter), show)
      ensures MonitorOk(Model())
    {
      hide LogLine, Zero, JoulesSince;
      if key !in windows {
        return Raised(NoSuchWindow);
      }
      var begun := windows[key];
      windows := windows - {key};
      if cancel {
        return Ended(Zero(gpus));
      }
      var energy: map<nat, real> := map[];
      assert gpus[..0] == [];
      for i := 0 to |gpus|
        invariant windows == old(windows) - {key} && log == old(log)
        invariant energy == JoulesSince(gpus[..i], begun.gpuEnergy, meter)
      {
        var gpu := gpus[i];
        assert gpus[..i + 1] == gpus[..i] + [gpu];
        JoulesSinceMore(gpus[..i], gpu, begun.gpuEnergy, meter);
        energy := energy[gpu := meter(gpu) / 1000.0 - begun.gpuEnergy[gpu]];
      }
      assert gpus[..|gpus|] == gpus;
      var measured := Measurement(now - begun.time, energy);
      log := log + (LogLine(begun.time, key, measured, gpus, show) + "\n");
      outcome := Ended(measured);
    }
  }

  class ReplayZeusMonitor {
    const gpus: seq<nat>
    const matchName: bool
    const parse: string -> Option<real>
    var ongoing: seq<string>
    var file: string

    ghost function Model(): Replay
      reads this
    {
      Replay(gpus, ongoing, file)
    }

    /** Opening raises unless `Open` has a value. */
    constructor (text: string, indices: Option<seq<nat>>, matchName: bool, parse: string -> Option<real>)
      requires Open(text, indices).Some?
      ensures Open(text, indices) == Some(Model()) && this.matchName == matchName && this.parse == parse
    {
      var replay := Open(text, indices).value;
      this.gpus, this.matchName, this.parse, ongoing, file := replay.gpus, matchName, parse, [], replay.file;
    }

    method BeginWindow(key: string, now: real, meter: nat -> real) returns (outcome: Outcome)
      modifies this
      ensures (Model(), outcome) == ReplayCall(old(Model()), Begin(key, now, meter), matchName, parse)
    {
      if key in ongoing {
        return Raised(WindowExists);
      }
      ongoing := ongoing + [key];
      outcome := Began;
    }

    method EndWindow(key: string, cancel: bool, now: real, meter: nat -> real) returns (outcome: Outcome)
      modifies this
      ensures (Model(), outcome) == ReplayCall(old(Model()), End(key, cancel, now, meter), matchName, parse)
    {
      if key !in ongoing {
        return Raised(NoSuchWindow);
      }
      ongoing := Removed(ongoing, key);
      if cancel {
        return Ended(Zero(gpus));
      }
      var (line, rest) := ReadLine(file);
      if line == "" {
        return Raised(OutOfLines);
      }
      file := rest;
      var parsed := ParseLine(line, key, gpus, matchName, parse);
      if parsed.Err? {
        return Raised(parsed.error);
      }
      outcome := Ended(parsed.value);
    }
  }
}
