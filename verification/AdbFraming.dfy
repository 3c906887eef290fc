/** The ADB tracker: frames with a four-digit hexadecimal length, and the device list inside.
    A byte is a char; the text functions agree with the source on ASCII. */
module AdbFraming {
  import opened AdbDevices
  import opened Options

  // ── Lengths ──

  const MAX_FRAME := 0xffff

  function HexDigit(d: nat): char
    requires d < 16
  {
    if d < 10 then '0' + d as char else 'a' + (d - 10) as char
  }

  /** "%04x" for lengths that fit. */
  function Hex4(n: nat): string
    requires n <= MAX_FRAME
  {
    var q1 := n / 16;
    var q2 := q1 / 16;
    [HexDigit(q2 / 16), HexDigit(q2 % 16), HexDigit(q1 % 16), HexDigit(n % 16)]
  }

  function DigitValue(c: char): Option<nat>
  {
    if '0' <= c <= '9' then Some((c - '0') as nat)
    else if 'a' <= c <= 'f' then Some((c - 'a') as nat + 10)
    else if 'A' <= c <= 'F' then Some((c - 'A') as nat + 10)
    else None
  }

  /** The digits of a length, most significant first. */
  function Digits(s: string): Option<nat>
  {
    if s == "" then Some(0)
    else
      var front, last := Digits(s[..|s| - 1]), DigitValue(s[|s| - 1]);
      if front.Some? && last.Some? then Some(16 * front.value + last.value) else None
  }

  /** `strconv.ParseInt` in base 16: an optional sign and at least one digit. */
  function ParseLength(s: string): Option<int>
  {
    var body := if s != "" && (s[0] == '+' || s[0] == '-') then s[1..] else s;
    if body == "" || Digits(body) == None then None
    else
      var v: int := Digits(body).value;
      Some(if s[0] == '-' then -v else v)
  }

  lemma DigitRoundTrip(d: nat)
    requires d < 16
    ensures DigitValue(HexDigit(d)) == Some(d) && HexDigit(d) != '+' && HexDigit(d) != '-'
  {}

  lemma LengthRoundTrip(n: nat)
    requires n <= MAX_FRAME
    ensures ParseLength(Hex4(n)) == Some(n)
  {
    var q1 := n / 16;
    var q2 := q1 / 16;
    var q3 := q2 / 16;
    FourDigits(q3, q2 % 16, q1 % 16, n % 16);
    DigitRoundTrip(q3);
  }

  lemma FourDigits(a: nat, b: nat, c: nat, d: nat)
    requires a < 16 && b < 16 && c < 16 && d < 16
    ensures Digits([HexDigit(a), HexDigit(b), HexDigit(c), HexDigit(d)]) == Some(4096 * a + 256 * b + 16 * c + d)
  {
    var s1, s2, s3 := [HexDigit(a)], [HexDigit(a), HexDigit(b)], [HexDigit(a), HexDigit(b), HexDigit(c)];
    assert s1 == "" + [HexDigit(a)] && s2 == s1 + [HexDigit(b)] && s3 == s2 + [HexDigit(c)];
    assert s3 + [HexDigit(d)] == [HexDigit(a), HexDigit(b), HexDigit(c), HexDigit(d)];
    DigitRoundTrip(a);
    DigitsStep("", HexDigit(a));
    DigitRoundTrip(b);
    DigitsStep(s1, HexDigit(b));
    DigitRoundTrip(c);
    DigitsStep(s2, HexDigit(c));
    DigitRoundTrip(d);
    DigitsStep(s3, HexDigit(d));
  }

  lemma DigitsStep(s: string, c: char)
    requires Digits(s).Some? && DigitValue(c).Some?
    ensures Digits(s + [c]) == Some(16 * Digits(s).value + DigitValue(c).value)
  {
    assert (s + [c])[..|s|] == s;
  }

  const LOWER := "0123456789abcdef"
  const UPPER := "0123456789ABCDEF"

  /** A character is read as the digit whose place it has in one of the two alphabets. */
  lemma DigitMeans(c: char, d: nat)
    ensures DigitValue(c) == Some(d) <==> d < 16 && (c == LOWER[d] || c == UPPER[d])
    ensures d < 16 ==> HexDigit(d) == LOWER[d]
  {
    if d < 16 {
      assert LOWER[d] == if d < 10 then '0' + d as char else 'a' + (d - 10) as char;
      assert UPPER[d] == if d < 10 then '0' + d as char else 'A' + (d - 10) as char;
    }
  }

  predicate Spells(s: string, ds: seq<nat>)
  {
    |s| == |ds| && forall i :: 0 <= i < |s| ==> ds[i] < 16 && (s[i] == LOWER[ds[i]] || s[i] == UPPER[ds[i]])
  }

  function Value(ds: seq<nat>): nat
  {
    if ds == [] then 0 else 16 * Value(ds[..|ds| - 1]) + ds[|ds| - 1]
  }

  lemma {:induction false} DigitsMean(s: string, ds: seq<nat>)
    requires Spells(s, ds)
    ensures Digits(s) == Some(Value(ds))
  {
    if s != "" {
      DigitMeans(s[|s| - 1], ds[|ds| - 1]);
      DigitsMean(s[..|s| - 1], ds[..|ds| - 1]);
    }
  }

  /** A header is read in either letter case, with or without a sign; it has at least one digit. */
  lemma LengthMeans(s: string, ds: seq<nat>)
    requires Spells(s, ds) && s != ""
    ensures ParseLength(s) == Some(Value(ds)) && ParseLength("+" + s) == Some(Value(ds))
    ensures ParseLength("-" + s) == Some(0 - Value(ds) as int)
  {
    DigitsMean(s, ds);
    DigitMeans('+', ds[0]);
    DigitMeans('-', ds[0]);
    assert ("+" + s)[1..] == s && ("-" + s)[1..] == s;
    assert DigitValue('+') == None && DigitValue('-') == None && DigitValue(s[0]) == Some(ds[0]);
  }

  // ── Frames ──

  /** Why a read loop ends. Go panics when asked for a buffer of negative length. */
  datatype End = NoStatus | BadStatus | ShortLength | BadLength | NegativeLength | ShortData

  datatype Session = Session(payloads: seq<string>, end: End)

  /** What the frame loop makes of the bytes that arrive before the connection fails. */
  function Frames(stream: string): Session
    decreases |stream|
  {
    if |stream| < 4 then Session([], ShortLength)
    else
      var n := ParseLength(stream[..4]);
      if n == None then Session([], BadLength)
      else if n.value < 0 then Session([], NegativeLength)
      else if |stream| - 4 < n.value then Session([], ShortData)
      else
        var rest := Frames(stream[4 + n.value..]);
        Session([stream[4..4 + n.value]] + rest.payloads, rest.end)
  }

  /** Four bytes that parse as a negative length: a minus sign and three hexadecimal digits, not
      all zero. */
  predicate Negative(s: string)
    requires |s| == 4
  {
    && s[0] == '-' && (forall i :: 1 <= i < 4 ==> DigitValue(s[i]).Some?)
    && exists i :: 1 <= i < 4 && DigitValue(s[i]) != Some(0)
  }

  lemma NegativeParses(s: string)
    requires |s| == 4
    ensures Negative(s) <==> ParseLength(s).Some? && ParseLength(s).value < 0
  {
    ThreeDigits(s[1..]);
    assert s[1..][0] == s[1] && s[1..][1] == s[2] && s[1..][2] == s[3];
  }

  lemma ThreeDigits(d: string)
    requires |d| == 3
    ensures Digits(d).Some? <==> forall i :: 0 <= i < 3 ==> DigitValue(d[i]).Some?
    ensures Digits(d).Some? ==>
              Digits(d).value == 256 * DigitValue(d[0]).value + 16 * DigitValue(d[1]).value + DigitValue(d[2]).value
  {
    var d1, d2 := d[..1], d[..2];
    assert d[..|d| - 1] == d2 && d2[..|d2| - 1] == d1 && d1[..|d1| - 1] == "";
    assert Digits(d1) == DigitValue(d[0]);
    assert Digits(d2).Some? <==> Digits(d1).Some? && DigitValue(d[1]).Some?;
  }

  /** The read loop panics on its next frame exactly for those headers. */
  lemma PanicsWhenNegative(stream: string)
    ensures Frames(stream) == Session([], NegativeLength) <==> |stream| >= 4 && Negative(stream[..4])
  {
    if |stream| >= 4 { NegativeParses(stream[..4]); }
  }

  /** "-001" is such a header. */
  lemma PanicsOnMinusOne(rest: string)
    ensures Frames("-001" + rest) == Session([], NegativeLength)
  {
    var s := "-001";
    assert ("-001" + rest)[..4] == s && DigitValue(s[1]) == Some(0) && DigitValue(s[2]) == Some(0)
           && DigitValue(s[3]) == Some(1);
    PanicsWhenNegative(s + rest);
  }

  predicate Fits(p: string)
  {
    |p| <= MAX_FRAME
  }

  predicate AllFit(ps: seq<string>)
  {
    forall i :: 0 <= i < |ps| ==> Fits(ps[i])
  }

  function Frame(p: string): string
    requires Fits(p)
  {
    Hex4(|p|) + p
  }

  function Stream(ps: seq<string>): string
    requires AllFit(ps)
  {
    if ps == [] then "" else Frame(ps[0]) + Stream(ps[1..])
  }

  /** A whole frame at the front is delivered, whatever follows it. */
  lemma FrameFirst(p: string, rest: string)
    requires Fits(p)
    ensures Frames(Frame(p) + rest) == Session([p] + Frames(rest).payloads, Frames(rest).end)
  {
    var s := Frame(p) + rest;
    LengthRoundTrip(|p|);
    assert s[..4] == Hex4(|p|) && s[4..4 + |p|] == p && s[4 + |p|..] == rest;
  }

  lemma Assoc<T>(a: seq<T>, b: seq<T>, c: seq<T>)
    ensures (a + b) + c == a + (b + c)
  {}

  /** Whatever the payloads, the loop delivers exactly them, and what follows is read as if
      it came first. */
  lemma {:induction false} FramesRoundTrip(ps: seq<string>, rest: string)
    requires AllFit(ps)
    ensures Frames(Stream(ps) + rest) == Session(ps + Frames(rest).payloads, Frames(rest).end)
  {
    var after := Frames(rest).payloads;
    if ps == [] {
      assert Stream(ps) + rest == rest && ps + after == after;
    } else {
      var tail := Stream(ps[1..]) + rest;
      FramesRoundTrip(ps[1..], rest);
      FrameFirst(ps[0], tail);
      Assoc(Frame(ps[0]), Stream(ps[1..]), rest);
      Assoc([ps[0]], ps[1..], after);
      assert [ps[0]] + ps[1..] == ps;
    }
  }

  /** How many whole frames the first `k` bytes hold. */
  function Whole(ps: seq<string>, k: nat): nat
  {
    if ps == [] || k < 4 + |ps[0]| then 0 else 1 + Whole(ps[1..], k - 4 - |ps[0]|)
  }

  /** A frame cut short delivers nothing. */
  lemma FrameCut(p: string, rest: string, k: nat)
    requires Fits(p) && k < 4 + |p| && k <= |Frame(p) + rest|
    ensures Frames((Frame(p) + rest)[..k]) == Session([], if k < 4 then ShortLength else ShortData)
  {
    var s := (Frame(p) + rest)[..k];
    if k >= 4 {
      LengthRoundTrip(|p|);
      assert s[..4] == Hex4(|p|);
    }
  }

  lemma TakePlus<T>(a: seq<T>, b: seq<T>, k: nat)
    requires |a| <= k <= |a + b|
    ensures (a + b)[..k] == a + b[..k - |a|]
  {}

  lemma TakeFirst<T>(s: seq<T>, k: nat)
    requires k + 1 <= |s|
    ensures s[..k + 1] == [s[0]] + s[1..][..k]
  {}

  /** When the connection fails after `k` bytes, exactly the payloads whose frames arrived
      whole have been delivered, in order, and nothing else. */
  lemma {:induction false} CutOff(ps: seq<string>, k: nat)
    requires AllFit(ps) && k <= |Stream(ps)|
    ensures Whole(ps, k) <= |ps| && Frames(Stream(ps)[..k]).payloads == ps[..Whole(ps, k)]
    ensures Frames(Stream(ps)[..k]).end == ShortLength || Frames(Stream(ps)[..k]).end == ShortData
  {
    if ps != [] {
      var n, tail := 4 + |ps[0]|, Stream(ps[1..]);
      if k >= n {
        CutOff(ps[1..], k - n);
        FrameFirst(ps[0], tail[..k - n]);
        TakePlus(Frame(ps[0]), tail, k);
        TakeFirst(ps, Whole(ps[1..], k - n));
      } else {
        FrameCut(ps[0], tail, k);
      }
    }
  }

  // ── Text ──

  /** `unicode.IsSpace`. */
  predicate IsSpace(c: char)
  {
    c == ' ' || ('\t' <= c <= '\r') || c == '\U{85}' || c == '\U{A0}' || c == '\U{1680}'
      || ('\U{2000}' <= c <= '\U{200a}')
    || c == '\U{2028}' || c == '\U{2029}' || c == '\U{202f}' || c == '\U{205f}' || c == '\U{3000}'
  }

  predicate AllSpace(s: string)
  {
    forall i :: 0 <= i < |s| ==> IsSpace(s[i])
  }

  predicate NoSpace(s: string)
  {
    forall i :: 0 <= i < |s| ==> !IsSpace(s[i])
  }

  predicate OneLine(s: string)
  {
    forall i :: 0 <= i < |s| ==> s[i] != '\n'
  }

  function WordLength(s: string): (n: nat)
    ensures n <= |s| && (forall i :: 0 <= i < n ==> !IsSpace(s[i])) && (n < |s| ==> IsSpace(s[n]))
  {
    if s == "" || IsSpace(s[0]) then 0 else 1 + WordLength(s[1..])
  }

  /** `strings.Fields`. */
  function Fields(s: string): seq<string>
    decreases |s|
  {
    if s == "" then []
    else if IsSpace(s[0]) then Fields(s[1..])
    else [s[..WordLength(s)]] + Fields(s[WordLength(s)..])
  }

  function TrimLeft(s: string): string
  {
    if s != "" && IsSpace(s[0]) then TrimLeft(s[1..]) else s
  }

  function TrimRight(s: string): string
  {
    if s != "" && IsSpace(s[|s| - 1]) then TrimRight(s[..|s| - 1]) else s
  }

  /** `strings.TrimSpace`. */
  function Trim(s: string): string
  {
    TrimRight(TrimLeft(s))
  }

  lemma WordIs(w: string, s: string)
    requires NoSpace(w) && (s == "" || IsSpace(s[0]))
    ensures WordLength(w + s) == |w|
  {
    var u := w + s;
    assert forall i :: 0 <= i < |w| ==> u[i] == w[i];
    assert s != "" ==> u[|w|] == s[0];
  }

  lemma FieldsWord(w: string, s: string)
    requires w != "" && NoSpace(w) && (s == "" || IsSpace(s[0]))
    ensures Fields(w + s) == [w] + Fields(s)
  {
    WordIs(w, s);
    assert (w + s)[..|w|] == w && (w + s)[|w|..] == s && (w + s)[0] == w[0];
  }

  lemma {:induction false} FieldsLead(a: string, s: string)
    requires AllSpace(a)
    ensures Fields(a + s) == Fields(s)
  {
    if a == "" {
      assert a + s == s;
    } else {
      assert (a + s)[1..] == a[1..] + s;
      FieldsLead(a[1..], s);
    }
  }

  lemma {:induction false} FieldsTail(s: string, c: char)
    requires IsSpace(c)
    ensures Fields(s + [c]) == Fields(s)
    decreases |s|
  {
    if s == "" {
      assert (s + [c])[1..] == "" && s + [c] == [c];
    } else if IsSpace(s[0]) {
      assert (s + [c])[1..] == s[1..] + [c];
      FieldsTail(s[1..], c);
    } else {
      var n := WordLength(s);
      assert s == s[..n] + s[n..] && s + [c] == s[..n] + (s[n..] + [c]);
      WordIs(s[..n], s[n..] + [c]);
      FieldsWord(s[..n], s[n..] + [c]);
      FieldsWord(s[..n], s[n..]);
      FieldsTail(s[n..], c);
    }
  }

  lemma {:induction false} FieldsTrimRight(s: string)
    ensures Fields(TrimRight(s)) == Fields(s)
    decreases |s|
  {
    if s != "" && IsSpace(s[|s| - 1]) {
      assert s == s[..|s| - 1] + [s[|s| - 1]];
      FieldsTail(s[..|s| - 1], s[|s| - 1]);
      FieldsTrimRight(s[..|s| - 1]);
    }
  }

  lemma {:induction false} FieldsTrimLeft(s: string)
    ensures Fields(TrimLeft(s)) == Fields(s)
    decreases |s|
  {
    if s != "" && IsSpace(s[0]) {
      FieldsTrimLeft(s[1..]);
    }
  }

  lemma FieldsTrim(s: string)
    ensures Fields(Trim(s)) == Fields(s)
  {
    FieldsTrimRight(TrimLeft(s));
    FieldsTrimLeft(s);
  }

  /** `strings.Split` at newlines. */
  function Lines(data: string): (ls: seq<string>)
    ensures |ls| > 0
    decreases |data|
  {
    var n := LineLength(data);
    if n == |data| then [data] else [data[..n]] + Lines(data[n + 1..])
  }

  function LineLength(s: string): (n: nat)
    ensures n <= |s| && (forall i :: 0 <= i < n ==> s[i] != '\n') && (n < |s| ==> s[n] == '\n')
  {
    if s == "" || s[0] == '\n' then 0 else 1 + LineLength(s[1..])
  }

  lemma LinesFirst(l: string, rest: string)
    requires OneLine(l)
    ensures Lines(l + "\n" + rest) == [l] + Lines(rest)
  {
    var s := l + "\n" + rest;
    assert forall i :: 0 <= i < |l| ==> s[i] == l[i];
    assert s[|l|] == '\n';
    assert LineLength(s) == |l|;
    assert s[..|l|] == l && s[|l| + 1..] == rest;
  }

  // ── The device list ──

  /** One line's device, if it has one: the first two fields. */
  function LineDevice(line: string): seq<Device>
  {
    var f := Fields(line);
    if |f| < 2 then [] else [Device(f[0], f[1])]
  }

  function LineDevices(lines: seq<string>): seq<Device>
  {
    if lines == [] then [] else LineDevice(lines[0]) + LineDevices(lines[1..])
  }

  function Parsed(data: string): seq<Device>
  {
    LineDevices(Lines(data))
  }

  lemma {:induction false} LineDevicesSnoc(lines: seq<string>, line: string)
    ensures LineDevices(lines + [line]) == LineDevices(lines) + LineDevice(line)
  {
    if lines == [] {
      assert (lines + [line])[1..] == [];
    } else {
      assert (lines + [line])[1..] == lines[1..] + [line];
      LineDevicesSnoc(lines[1..], line);
      assert LineDevice(lines[0]) + (LineDevices(lines[1..]) + LineDevice(line)) == LineDevices(lines)
             + LineDevice(line);
    }
  }

  /** `parseDeviceList`. */
  method ParseDeviceList(data: string) returns (devices: seq<Device>)
    ensures devices == Parsed(data)
  {
    devices := [];
    var lines := Lines(data);
    for i := 0 to |lines|
      invariant devices == LineDevices(lines[..i])
    {
      assert lines[..i + 1] == lines[..i] + [lines[i]];
      LineDevicesSnoc(lines[..i], lines[i]);
      FieldsTrim(lines[i]);
      var line := Trim(lines[i]);
      if line == "" {
        continue;
      }
      var parts := Fields(line);
      if |parts| < 2 {
        continue;
      }
      devices := devices + [Device(parts[0], parts[1])];
    }
    assert lines[..|lines|] == lines;
  }

  /** A line as a server may print it: a device with any white space around its two fields
      and anything behind them, or a line with fewer than two fields. */
  datatype Entry =
    | Listed(lead: string, device: Device, gap: string, tail: string)
    | Noise(text: string)

  predicate Printable(e: Entry)
  {
    match e
    case Listed(lead, device, gap, tail) =>
      && AllSpace(lead) && OneLine(lead) && AllSpace(gap) && OneLine(gap) && gap != ""
      && device.serial != "" && NoSpace(device.serial) && device.state != "" && NoSpace(device.state)
      && OneLine(tail) && (tail == "" || IsSpace(tail[0]))
    case Noise(text) => OneLine(text) && |Fields(text)| < 2
  }

  function Printed(e: Entry): string
  {
    match e
    case Listed(lead, device, gap, tail) => lead + device.serial + gap + device.state + tail
    case Noise(text) => text
  }

  function DevicesOf(es: seq<Entry>): seq<Device>
  {
    if es == [] then [] else (if es[0].Listed? then [es[0].device] else []) + DevicesOf(es[1..])
  }

  /** One entry per line. */
  function Text(es: seq<Entry>): string
  {
    if es == [] then "" else Printed(es[0]) + "\n" + Text(es[1..])
  }

  function Joint(lead: string, d: Device, gap: string, tail: string): string
  {
    lead + (d.serial + (gap + (d.state + tail)))
  }

  lemma TwoFields(lead: string, d: Device, gap: string, tail: string)
    requires AllSpace(lead) && AllSpace(gap) && gap != "" && d.serial != "" && NoSpace(d.serial)
    requires d.state != "" && NoSpace(d.state) && (tail == "" || IsSpace(tail[0]))
    ensures LineDevice(Joint(lead, d, gap, tail)) == [d]
  {
    var t2 := d.state + tail;
    var t1 := gap + t2;
    assert t1[0] == gap[0];
    FieldsLead(lead, d.serial + t1);
    FieldsWord(d.serial, t1);
    FieldsLead(gap, t2);
    FieldsWord(d.state, tail);
  }

  lemma EntryRoundTrip(e: Entry)
    requires Printable(e)
    ensures LineDevice(Printed(e)) == if e.Listed? then [e.device] else []
  {
    if e.Listed? {
      assert Printed(e) == Joint(e.lead, e.device, e.gap, e.tail);
      TwoFields(e.lead, e.device, e.gap, e.tail);
    }
  }

  lemma EntryOneLine(e: Entry)
    requires Printable(e)
    ensures OneLine(Printed(e))
  {
    if e.Listed? {
      Joined(e.device.serial, e.gap);
      Joined(e.device.state, e.tail);
    }
  }

  lemma Joined(word: string, s: string)
    requires NoSpace(word) && OneLine(s)
    ensures OneLine(word + s)
  {
    assert IsSpace('\n');
  }

  /** The first line's device comes before those of the other lines. */
  lemma ParsedLine(line: string, rest: string)
    requires OneLine(line)
    ensures Parsed(line + "\n" + rest) == LineDevice(line) + Parsed(rest)
  {
    LinesFirst(line, rest);
    assert ([line] + Lines(rest))[1..] == Lines(rest);
  }

  /** Every printed list of devices is parsed back, in order; other lines are ignored. */
  lemma {:induction false} ListRoundTrip(es: seq<Entry>)
    requires forall i :: 0 <= i < |es| ==> Printable(es[i])
    ensures Parsed(Text(es)) == DevicesOf(es)
  {
    if es == [] {
      assert Lines("") == [""] && LineDevices([""]) == LineDevice("") + LineDevices([""][1..]);
    } else {
      EntryRoundTrip(es[0]);
      EntryOneLine(es[0]);
      ParsedLine(Printed(es[0]), Text(es[1..]));
      ListRoundTrip(es[1..]);
    }
  }

  // ── The list by code points ──

  /** White space in ASCII: tab to carriage return, and the space. */
  const BLANKS: set<int> := {9, 10, 11, 12, 13, 32}

  predicate Blanks(s: string)
  {
    forall i :: 0 <= i < |s| ==> s[i] as int in BLANKS
  }

  predicate Word(s: string)
  {
    s != "" && forall i :: 0 <= i < |s| ==> s[i] as int !in BLANKS
  }

  predicate Ascii(s: string)
  {
    forall i :: 0 <= i < |s| ==> s[i] as int < 128
  }

  /** The line is two words between blanks, and nothing or a blank and anything after them. */
  predicate Cuts(line: string, lead: string, d: Device, gap: string, tail: string)
  {
    && line == Joint(lead, d, gap, tail)
    && Blanks(lead) && Word(d.serial) && Blanks(gap) && gap != "" && Word(d.state)
    && (tail == "" || tail[0] as int in BLANKS)
  }

  ghost predicate Reads(line: string, d: Device)
  {
    exists lead, gap, tail :: Cuts(line, lead, d, gap, tail)
  }

  lemma SpaceMeans(c: char)
    requires c as int < 128
    ensures IsSpace(c) <==> c as int in BLANKS
  {}

  lemma AsciiPart(s: string, a: string, b: string)
    requires Ascii(s) && s == a + b
    ensures Ascii(a) && Ascii(b)
  {
    forall i | 0 <= i < |a| ensures a[i] as int < 128 { assert a[i] == s[i]; }
    forall i | 0 <= i < |b| ensures b[i] as int < 128 { assert b[i] == s[|a| + i]; }
  }

  lemma AsciiSpaces(s: string)
    requires Ascii(s)
    ensures (AllSpace(s) <==> Blanks(s)) && (s != "" && NoSpace(s) <==> Word(s))
  {
    forall i | 0 <= i < |s| ensures IsSpace(s[i]) <==> s[i] as int in BLANKS { SpaceMeans(s[i]); }
  }

  /** The pieces of an ASCII line are blank or words by code point when they are by `IsSpace`. */
  lemma AsciiPieces(lead: string, d: Device, gap: string, tail: string)
    requires Ascii(Joint(lead, d, gap, tail))
    ensures (AllSpace(lead) <==> Blanks(lead)) && (AllSpace(gap) <==> Blanks(gap))
    ensures d.serial != "" && NoSpace(d.serial) <==> Word(d.serial)
    ensures d.state != "" && NoSpace(d.state) <==> Word(d.state)
    ensures tail != "" ==> (IsSpace(tail[0]) <==> tail[0] as int in BLANKS)
  {
    var t2 := d.state + tail;
    var t1 := gap + t2;
    var t0 := d.serial + t1;
    AsciiPart(lead + t0, lead, t0);
    AsciiPart(t0, d.serial, t1);
    AsciiPart(t1, gap, t2);
    AsciiPart(t2, d.state, tail);
    AsciiSpaces(lead);
    AsciiSpaces(d.serial);
    AsciiSpaces(gap);
    AsciiSpaces(d.state);
    if tail != "" { SpaceMeans(tail[0]); }
  }

  /** The first field is cut out of the text, and the others are those of the rest. */
  lemma {:induction false} FirstField(s: string) returns (lead: string, rest: string)
    requires Fields(s) != []
    ensures var w := Fields(s)[0];
            && s == lead + (w + rest) && AllSpace(lead) && w != "" && NoSpace(w)
            && (rest == "" || IsSpace(rest[0])) && Fields(rest) == Fields(s)[1..]
    decreases |s|
  {
    if IsSpace(s[0]) {
      lead, rest := FirstField(s[1..]);
      assert s == [s[0]] + lead + (Fields(s)[0] + rest);
      lead := [s[0]] + lead;
    } else {
      lead, rest := "", s[WordLength(s)..];
    }
  }

  lemma CutOut(s: string)
    requires |Fields(s)| >= 2 && Ascii(s)
    ensures Reads(s, Device(Fields(s)[0], Fields(s)[1]))
  {
    var d := Device(Fields(s)[0], Fields(s)[1]);
    var lead, rest := FirstField(s);
    var gap, tail := FirstField(rest);
    assert s == Joint(lead, d, gap, tail);
    AsciiPieces(lead, d, gap, tail);
    GapThere(gap, d.state + tail);
    assert Cuts(s, lead, d, gap, tail);
  }

  lemma GapThere(gap: string, rest: string)
    requires rest != "" && !IsSpace(rest[0]) && IsSpace((gap + rest)[0])
    ensures gap != ""
  {}

  lemma CutIn(s: string, lead: string, d: Device, gap: string, tail: string)
    requires Ascii(s) && Cuts(s, lead, d, gap, tail)
    ensures LineDevice(s) == [d]
  {
    AsciiPieces(lead, d, gap, tail);
    TwoFields(lead, d, gap, tail);
  }

  /** A line gives a device exactly if it can be cut up so, and then that one. */
  lemma LineMeans(line: string, d: Device)
    requires Ascii(line)
    ensures LineDevice(line) == [d] <==> Reads(line, d)
    ensures LineDevice(line) == [] <==> forall e :: !Reads(line, e)
  {
    forall e | Reads(line, e) ensures LineDevice(line) == [e] {
      var lead, gap, tail :| Cuts(line, lead, e, gap, tail);
      CutIn(line, lead, e, gap, tail);
    }
    if |Fields(line)| >= 2 { CutOut(line); }
  }

  /** Visible ASCII characters only. */
  predicate Visible(s: string)
  {
    s != "" && forall i :: 0 <= i < |s| ==> 33 <= s[i] as int <= 126
  }

  /** The list as the ADB server prints it. */
  function Listing(ds: seq<Device>): string
  {
    if ds == [] then "" else ds[0].serial + "\t" + ds[0].state + "\n" + Listing(ds[1..])
  }

  lemma ListingLine(d: Device)
    requires Visible(d.serial) && Visible(d.state)
    ensures OneLine(d.serial + "\t" + d.state) && LineDevice(d.serial + "\t" + d.state) == [d]
  {
    var line := d.serial + "\t" + d.state;
    assert line == Joint("", d, "\t", "");
    assert Word(d.serial) && Word(d.state);
    CutIn(line, "", d, "\t", "");
  }

  /** Any list of devices is read back from what the server prints of it. */
  lemma {:induction false} ListingRoundTrip(ds: seq<Device>)
    requires forall i :: 0 <= i < |ds| ==> Visible(ds[i].serial) && Visible(ds[i].state)
    ensures Parsed(Listing(ds)) == ds
  {
    if ds == [] {
      assert Lines("") == [""] && LineDevices([""]) == LineDevice("") + LineDevices([""][1..]);
    } else {
      ListingLine(ds[0]);
      ParsedLine(ds[0].serial + "\t" + ds[0].state, Listing(ds[1..]));
      ListingRoundTrip(ds[1..]);
    }
  }

  // ── The session ──

  /** One connection: the bytes that arrive on it before it fails, and how far they are read. */
  class Conn {
    const stream: string
    var pos: nat

    ghost predicate Valid()
      reads this
    {
      pos <= |stream|
    }

    ghost function Left(): string
      reads this
      requires Valid()
    {
      stream[pos..]
    }

    constructor (stream: string)
      ensures Valid() && Left() == stream
    {
      this.stream, pos := stream, 0;
    }

    /** `io.ReadFull`: fills the buffer, or fails. */
    method ReadFull(buf: array<char>) returns (ok: bool)
      requires Valid()
      modifies this, buf
      ensures Valid() && ok == (|old(Left())| >= buf.Length)
      ensures ok ==> buf[..] == old(Left())[..buf.Length] && Left() == old(Left())[buf.Length..]
    {
      if |stream| - pos < buf.Length {
        pos := |stream|;
        return false;
      }
      forall i | 0 <= i < buf.Length {
        buf[i] := stream[pos + i];
      }
      assert buf[..] == stream[pos..pos + buf.Length];
      pos := pos + buf.Length;
      ok := true;
    }
  }

  /** What a whole session makes of its bytes: the greeting, then frames. */
  function SessionOf(stream: string): Session
  {
    if |stream| < 4 then Session([], NoStatus)
    else if stream[..4] != "OKAY" then Session([], BadStatus)
    else Frames(stream[4..])
  }

  function Updates(payloads: seq<string>): seq<seq<Device>>
  {
    seq(|payloads|, i requires 0 <= i < |payloads| => Parsed(payloads[i]))
  }

  /** What comes of one round of the frame loop. */
  datatype Got = Payload(data: string) | Failed(end: End)

  /** The same, of the bytes that are left. */
  predicate GotFirst(got: Got, left: string, left': string)
  {
    match got
    case Failed(end) => Frames(left) == Session([], end)
    case Payload(data) =>
      |left'| < |left| && Frames(left) == Session([data] + Frames(left').payloads, Frames(left').end)
  }

  /** The reads of one round. */
  method ReadFrame(conn: Conn) returns (got: Got)
    requires conn.Valid()
    modifies conn
    ensures conn.Valid() && GotFirst(got, old(conn.Left()), conn.Left())
  {
    ghost var left := conn.Left();
    var lenBuf := new char[4];
    var ok := conn.ReadFull(lenBuf);
    if !ok {
      return Failed(ShortLength);
    }
    var n := ParseLength(lenBuf[..]);
    if n == None {
      return Failed(BadLength);
    }
    if n.value < 0 {
      return Failed(NegativeLength);
    }
    var data := new char[n.value];
    if n.value > 0 {
      ok := conn.ReadFull(data);
      if !ok {
        return Failed(ShortData);
      }
    }
    assert data[..] == left[4..4 + n.value] && conn.Left() == left[4 + n.value..];
    got := Payload(data[..]);
  }

  /** `trackOnce` on an open connection: the lists handed to the callback, and why it ended. */
  method TrackOnce(conn: Conn) returns (changes: seq<seq<Device>>, end: End)
    requires conn.Valid()
    modifies conn
    ensures changes == Updates(SessionOf(old(conn.Left())).payloads) && end == SessionOf(old(conn.Left())).end
  {
    changes := [];
    var status := new char[4];
    var ok := conn.ReadFull(status);
    if !ok {
      return changes, NoStatus;
    }
    if status[..] != "OKAY" {
      return changes, BadStatus;
    }
    ghost var all := conn.Left();
    ghost var seen: seq<string> := [];
    assert seen + Frames(all).payloads == Frames(all).payloads;
    while true
      invariant conn.Valid() && changes == Updates(seen)
      invariant Frames(all) == Session(seen + Frames(conn.Left()).payloads, Frames(conn.Left()).end)
      decreases |conn.Left()|
    {
      var got := ReadFrame(conn);
      match got {
        case Failed(why) =>
          assert seen + [] == seen;
          return changes, why;
        case Payload(data) =>
          var devices := ParseDeviceList(data);
          Assoc(seen, [data], Frames(conn.Left()).payloads);
          seen := seen + [data];
          changes := changes + [devices];
      }
    }
  }

  /** The source's promise, end to end: device lists printed by the server, framed, sent in
      full or cut off anywhere, reach the callback as those lists, in order, up to the last
      whole frame. */
  lemma EndToEnd(lists: seq<seq<Entry>>, texts: seq<string>, k: nat)
    requires |texts| == |lists| && AllFit(texts) && k <= |Stream(texts)|
    requires forall i :: 0 <= i < |lists| ==> texts[i] == Text(lists[i])
    requires forall i, j :: 0 <= i < |lists| && 0 <= j < |lists[i]| ==> Printable(lists[i][j])
    ensures var n := Whole(texts, k);
            n <= |lists|
            && Updates(SessionOf("OKAY" + Stream(texts)[..k]).payloads)
              == seq(n, i requires 0 <= i < n <= |lists| => DevicesOf(lists[i]))
  {
    var s := "OKAY" + Stream(texts)[..k];
    assert s[..4] == "OKAY" && s[4..] == Stream(texts)[..k];
    CutOff(texts, k);
    forall i | 0 <= i < |lists| ensures Parsed(texts[i]) == DevicesOf(lists[i]) {
      ListRoundTrip(lists[i]);
    }
  }
}
