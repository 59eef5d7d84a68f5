/** The sample lines of the OpenMetrics 1.0 text format: a printer, a parser, and their agreement. */
module TextFormat {
  import opened Basics

  // ---- Escaping of label values (section "Text format", "Escaping") ------------------------------

  function EscapeChar(c: char): string {
    match c
    case '"' => "\\\""
    case '\\' => "\\\\"
    case '\n' => "\\n"
    case _ => [c]
  }

  function Escape(s: string): string
    decreases |s|
  {
    if s == "" then "" else EscapeChar(s[0]) + Escape(s[1..])
  }

  /** Reads an escaped value up to its closing quote; returns the value and what follows the quote. */
  function ReadValue(s: string): (r: Option<(string, string)>)
    ensures r.Some? ==> |r.value.1| < |s|
    decreases |s|
  {
    if s == "" || s[0] == '\n' then None
    else if s[0] == '"' then Some(("", s[1..]))
    else if s[0] == '\\' then
      if |s| < 2 then None
      else
        var c := if s[1] == 'n' then Some('\n') else if s[1] == '\\' || s[1] == '"' then Some(s[1]) else None;
        var tail := ReadValue(s[2..]);
        if c.None? || tail.None? then None else Some(([c.value] + tail.value.0, tail.value.1))
    else
      var tail := ReadValue(s[1..]);
      if tail.None? then None else Some(([s[0]] + tail.value.0, tail.value.1))
  }

  lemma {:induction false} ReadOne(c: char, tail: string, v: string, rest: string)
    requires ReadValue(tail) == Some((v, rest))
    ensures ReadValue(EscapeChar(c) + tail) == Some(([c] + v, rest))
  {
    var s := EscapeChar(c) + tail;
    if c == '"' || c == '\\' || c == '\n' {
      assert s[0] == '\\' && s[2..] == tail;
    } else {
      assert s[0] == c && s[1..] == tail;
    }
  }

  /** Escaping is invertible in place: the reader finds the original value and the right closing quote. */
  lemma {:induction false} ReadEscaped(v: string, rest: string)
    ensures ReadValue(Escape(v) + "\"" + rest) == Some((v, rest))
    decreases |v|
  {
    if v == "" {
      assert Escape(v) + "\"" + rest == "\"" + rest;
      assert ("\"" + rest)[1..] == rest;
    } else {
      var tail := Escape(v[1..]) + "\"" + rest;
      ReadEscaped(v[1..], rest);
      ReadOne(v[0], tail, v[1..], rest);
      assert v == [v[0]] + v[1..];
      assert Escape(v) + "\"" + rest == EscapeChar(v[0]) + tail;
    }
  }

  /** No raw newline survives escaping, and a quote only behind a backslash that is not itself escaped. */
  predicate CleanLabel(s: string)
    decreases |s|
  {
    s == "" ||
    (s[0] != '\n' && s[0] != '"' &&
      if s[0] == '\\' then |s| >= 2 && s[1] in {'n', '"', '\\'} && CleanLabel(s[2..]) else CleanLabel(s[1..]))
  }

  lemma {:induction false} EscapeIsClean(v: string)
    ensures CleanLabel(Escape(v))
    decreases |v|
  {
    if v != "" {
      EscapeIsClean(v[1..]);
      var e := EscapeChar(v[0]);
      assert (e + Escape(v[1..]))[|e|..] == Escape(v[1..]);
    }
  }

  lemma {:induction false} EscapeConcat(a: string, b: string)
    ensures Escape(a + b) == Escape(a) + Escape(b)
    decreases |a|
  {
    if a == "" {
      assert a + b == b;
    } else {
      assert (a + b)[1..] == a[1..] + b;
      EscapeConcat(a[1..], b);
    }
  }

  /** Characters that need no escape. */
  predicate Plain(s: string) {
    forall i :: 0 <= i < |s| ==> s[i] != '"' && s[i] != '\\' && s[i] != '\n'
  }

  lemma {:induction false} EscapePlain(s: string)
    requires Plain(s)
    ensures Escape(s) == s
    decreases |s|
  {
    if s != "" {
      EscapePlain(s[1..]);
      assert s == [s[0]] + s[1..];
    }
  }

  // ---- Sample lines -----------------------------------------------------------------------------

  datatype Label = Label(name: string, value: string)

  datatype Sample = Sample(name: string, labels: seq<Label>, value: string)

  function PrintLabels(ls: seq<Label>): string
    decreases |ls|
  {
    if ls == [] then ""
    else ls[0].name + "=\"" + Escape(ls[0].value) + "\"" + (if |ls| == 1 then "" else "," + PrintLabels(ls[1..]))
  }

  function Print(s: Sample): string {
    s.name + "{" + PrintLabels(s.labels) + "} " + s.value + "\n"
  }

  predicate Without(s: string, c: char) { forall i :: 0 <= i < |s| ==> s[i] != c }

  predicate WellFormed(s: Sample) {
    && s.name != "" && s.name[0] != '#' && Without(s.name, '{')
    && s.labels != [] && Without(s.value, '\n')
    && forall i :: 0 <= i < |s.labels| ==> Without(s.labels[i].name, '=')
  }

  function ReadUntil(s: string, c: char): (r: Option<(string, string)>)
    ensures r.Some? ==> |r.value.1| < |s|
    decreases |s|
  {
    if s == "" then None
    else if s[0] == c then Some(("", s[1..]))
    else
      var tail := ReadUntil(s[1..], c);
      if tail.None? then None else Some(([s[0]] + tail.value.0, tail.value.1))
  }

  lemma {:induction false} ReadUntilFinds(a: string, c: char, rest: string)
    requires Without(a, c)
    ensures ReadUntil(a + [c] + rest, c) == Some((a, rest))
    decreases |a|
  {
    var s := a + [c] + rest;
    if a == "" {
      assert s[1..] == rest;
    } else {
      assert s[1..] == a[1..] + [c] + rest;
      ReadUntilFinds(a[1..], c, rest);
      assert a == [a[0]] + a[1..];
    }
  }

  /** Reads one label, name and value. */
  function ReadLabel(s: string): (r: Option<(Label, string)>)
    ensures r.Some? ==> |r.value.1| < |s|
  {
    var name := ReadUntil(s, '=');
    if name.None? || name.value.1 == "" || name.value.1[0] != '"' then None
    else
      var value := ReadValue(name.value.1[1..]);
      if value.None? then None else Some((Label(name.value.0, value.value.0), value.value.1))
  }

  /** Reads labels up to and including the closing brace. */
  function ReadLabels(s: string): (r: Option<(seq<Label>, string)>)
    ensures r.Some? ==> |r.value.1| < |s|
    decreases |s|
  {
    var first := ReadLabel(s);
    if first.None? || first.value.1 == "" then None
    else if first.value.1[0] == '}' then Some(([first.value.0], first.value.1[1..]))
    else if first.value.1[0] != ',' then None
    else
      var more := ReadLabels(first.value.1[1..]);
      if more.None? then None else Some(([first.value.0] + more.value.0, more.value.1))
  }

  function ReadSample(s: string): (r: Option<(Sample, string)>)
    ensures r.Some? ==> |r.value.1| < |s|
  {
    var name := ReadUntil(s, '{');
    if name.None? then None
    else
      var labels := ReadLabels(name.value.1);
      if labels.None? || labels.value.1 == "" || labels.value.1[0] != ' ' then None
      else
        var value := ReadUntil(labels.value.1[1..], '\n');
        if value.None? then None
        else Some((Sample(name.value.0, labels.value.0, value.value.0), value.value.1))
  }

  lemma {:induction false} ReadLabelPrinted(l: Label, rest: string)
    requires Without(l.name, '=')
    ensures ReadLabel(l.name + "=\"" + Escape(l.value) + "\"" + rest) == Some((l, rest))
  {
    var s := l.name + "=\"" + Escape(l.value) + "\"" + rest;
    var tail := "\"" + (Escape(l.value) + "\"" + rest);
    assert s == l.name + ['='] + tail;
    ReadUntilFinds(l.name, '=', tail);
    assert tail[1..] == Escape(l.value) + "\"" + rest;
    ReadEscaped(l.value, rest);
  }

  lemma {:induction false} LabelsInParts(ls: seq<Label>, rest: string)
    requires ls != []
    ensures PrintLabels(ls) + "}" + rest
         == ls[0].name + "=\"" + Escape(ls[0].value) + "\""
            + if |ls| == 1 then "}" + rest else "," + (PrintLabels(ls[1..]) + "}" + rest)
  {
    var head := ls[0].name + "=\"" + Escape(ls[0].value) + "\"";
    if |ls| == 1 {
      assert head + "" == head;
    } else {
      assert head + ("," + PrintLabels(ls[1..])) + "}" + rest == head + ("," + (PrintLabels(ls[1..]) + "}" + rest));
    }
  }

  lemma {:induction false} ReadLastLabel(l: Label, rest: string)
    requires Without(l.name, '=')
    ensures ReadLabels(l.name + "=\"" + Escape(l.value) + "\"" + ("}" + rest)) == Some(([l], rest))
  {
    ReadLabelPrinted(l, "}" + rest);
    assert ("}" + rest)[1..] == rest;
  }

  lemma {:induction false} ReadLabelThen(l: Label, more: string, ls: seq<Label>, rest: string)
    requires Without(l.name, '=') && ReadLabels(more) == Some((ls, rest))
    ensures ReadLabels(l.name + "=\"" + Escape(l.value) + "\"" + ("," + more)) == Some(([l] + ls, rest))
  {
    ReadLabelPrinted(l, "," + more);
    assert ("," + more)[1..] == more;
  }

  lemma {:induction false} ReadLabelsPrinted(ls: seq<Label>, rest: string)
    requires ls != [] && forall i :: 0 <= i < |ls| ==> Without(ls[i].name, '=')
    ensures ReadLabels(PrintLabels(ls) + "}" + rest) == Some((ls, rest))
    decreases |ls|
  {
    LabelsInParts(ls, rest);
    if |ls| == 1 {
      ReadLastLabel(ls[0], rest);
      assert ls == [ls[0]];
    } else {
      ReadLabelsPrinted(ls[1..], rest);
      ReadLabelThen(ls[0], PrintLabels(ls[1..]) + "}" + rest, ls[1..], rest);
      assert ls == [ls[0]] + ls[1..];
    }
  }

  lemma {:induction false} ReadSamplePrinted(s: Sample, rest: string)
    requires WellFormed(s)
    ensures ReadSample(Print(s) + rest) == Some((s, rest))
  {
    var afterLabels := " " + (s.value + "\n" + rest);
    var afterName := PrintLabels(s.labels) + "}" + afterLabels;
    assert Print(s) + rest == s.name + ['{'] + afterName;
    ReadUntilFinds(s.name, '{', afterName);
    ReadLabelsPrinted(s.labels, afterLabels);
    assert afterLabels[1..] == s.value + ['\n'] + rest;
    ReadUntilFinds(s.value, '\n', rest);
  }

  // ---- Whole expositions ------------------------------------------------------------------------

  datatype Line = Comment(text: string) | Data(sample: Sample)

  function PrintLine(l: Line): string {
    match l case Comment(t) => "#" + t + "\n" case Data(s) => Print(s)
  }

  function Render(ls: seq<Line>): string
    decreases |ls|
  {
    if ls == [] then "" else PrintLine(ls[0]) + Render(ls[1..])
  }

  function Samples(ls: seq<Line>): seq<Sample>
    decreases |ls|
  {
    if ls == [] then [] else (if ls[0].Data? then [ls[0].sample] else []) + Samples(ls[1..])
  }

  predicate LineOk(l: Line) {
    match l case Comment(t) => Without(t, '\n') case Data(s) => WellFormed(s)
  }

  predicate LinesOk(ls: seq<Line>) { forall i :: 0 <= i < |ls| ==> LineOk(ls[i]) }

  /** Reads a whole text: comment lines are skipped, every other line must be a sample. */
  function ReadText(s: string): Option<seq<Sample>>
    decreases |s|
  {
    if s == "" then Some([])
    else if s[0] == '#' then
      var c := ReadUntil(s, '\n');
      if c.None? then None else ReadText(c.value.1)
    else
      var one := ReadSample(s);
      if one.None? then None
      else
        var more := ReadText(one.value.1);
        if more.None? then None else Some([one.value.0] + more.value)
  }

  /** The parser recovers exactly the printed samples, in order. */
  lemma {:induction false} ReadRendered(ls: seq<Line>)
    requires LinesOk(ls)
    ensures ReadText(Render(ls)) == Some(Samples(ls))
    decreases |ls|
  {
    if ls != [] {
      var rest := Render(ls[1..]);
      ReadRendered(ls[1..]);
      assert LineOk(ls[0]);
      match ls[0]
      case Comment(t) =>
        var line := "#" + t;
        assert Render(ls) == line + ['\n'] + rest;
        assert line[0] == '#' && forall i :: 1 <= i < |line| ==> line[i] == t[i - 1];
        ReadUntilFinds(line, '\n', rest);
        assert Samples(ls) == [] + Samples(ls[1..]) == Samples(ls[1..]);
        assert Render(ls)[0] == '#';
      case Data(s) =>
        ReadSamplePrinted(s, rest);
        assert Render(ls) == Print(s) + rest && Render(ls)[0] == s.name[0];
    }
  }

  lemma {:induction false} RenderConcat(a: seq<Line>, b: seq<Line>)
    ensures Render(a + b) == Render(a) + Render(b)
    decreases |a|
  {
    if a == [] {
      assert a + b == b;
    } else {
      assert (a + b)[1..] == a[1..] + b;
      RenderConcat(a[1..], b);
    }
  }

  lemma {:induction false} RenderOne(a: seq<Line>, l: Line)
    ensures Render(a + [l]) == Render(a) + PrintLine(l)
  {
    RenderConcat(a, [l]);
    assert [l][1..] == [] && Render([l]) == PrintLine(l) + Render([]);
  }

  lemma {:induction false} SamplesConcat(a: seq<Line>, b: seq<Line>)
    ensures Samples(a + b) == Samples(a) + Samples(b)
    decreases |a|
  {
    if a == [] {
      assert a + b == b;
    } else {
      var rest := a[1..];
      assert (a + b)[1..] == rest + b && (a + b)[0] == a[0];
      SamplesConcat(rest, b);
      assert Samples(a + b) == (if a[0].Data? then [a[0].sample] else []) + Samples(rest + b);
    }
  }

  // ---- Decimal numerals -------------------------------------------------------------------------

  function Digit(d: nat): char
    requires d < 10
  {
    '0' + d as char
  }

  /** `%lu` */
  function Decimal(n: nat): (s: string)
    ensures s != ""
  {
    if n < 10 then [Digit(n)] else Decimal(n / 10) + [Digit(n % 10)]
  }

  /** `%d` */
  function Signed(i: int): string { if i < 0 then "-" + Decimal(-i) else Decimal(i) }

  function ReadDecimal(s: string): nat
    decreases |s|
  {
    if s == "" then 0
    else
      var c := s[|s| - 1];
      10 * ReadDecimal(s[..|s| - 1]) + if '0' <= c <= '9' then (c as int - '0' as int) else 0
  }

  function ReadSigned(s: string): int {
    if s != "" && s[0] == '-' then 0 - ReadDecimal(s[1..]) else ReadDecimal(s)
  }

  lemma {:induction false} DecimalRoundTrip(n: nat)
    ensures ReadDecimal(Decimal(n)) == n
  {
    var s := Decimal(n);
    if n < 10 {
      assert s[..0] == "";
    } else {
      DecimalRoundTrip(n / 10);
      assert s[..|s| - 1] == Decimal(n / 10);
    }
  }

  predicate Digits(s: string) { forall i :: 0 <= i < |s| ==> '0' <= s[i] <= '9' }

  lemma {:induction false} DecimalDigits(n: nat)
    ensures Digits(Decimal(n))
  {
    if n >= 10 {
      DecimalDigits(n / 10);
    }
  }

  lemma {:induction false} SignedText(i: int)
    ensures Plain(Signed(i)) && ReadSigned(Signed(i)) == i
  {
    var s := Decimal(if i < 0 then -i else i);
    DecimalDigits(if i < 0 then -i else i);
    DecimalRoundTrip(if i < 0 then -i else i);
    if i < 0 {
      assert ("-" + s)[1..] == s;
    }
  }

  lemma {:induction false} DecimalText(n: nat)
    ensures Plain(Decimal(n)) && ReadDecimal(Decimal(n)) == n
  {
    DecimalDigits(n);
    DecimalRoundTrip(n);
  }

  function TenTo(k: nat): nat { if k == 0 then 1 else 10 * TenTo(k - 1) }

  lemma {:induction false} DecimalLength(n: nat, k: nat)
    requires k > 0 && n < TenTo(k)
    ensures |Decimal(n)| <= k
    decreases k
  {
    if n >= 10 {
      DecimalLength(n / 10, k - 1);
    }
  }
}
