/** Times in calendar properties: how a boundary is written and read back (sections 3.2.19, 3.3.4 and 3.3.5 of
    RFC 5545). */
module ICalendarTime {
  import opened Basics

  /** The text of a boundary as the event model keeps it: `2026-09-21`, `2026-09-21T22:00:00Z`, or a local time with its zone. */
  datatype BoundaryText = OnDate(date: string) | Utc(dateTime: string) | Zoned(dateTime: string, timeZone: string)

  predicate Digits(s: string)
  {
    forall c :: c in s ==> '0' <= c <= '9'
  }

  predicate IsDate(s: string)
  {
    && |s| == 10 && s[4] == '-' && s[7] == '-'
    && Digits(s[..4]) && Digits(s[5..7]) && Digits(s[8..])
  }

  predicate IsLocal(s: string)
  {
    && |s| == 19 && IsDate(s[..10]) && s[10] == 'T' && s[13] == ':' && s[16] == ':'
    && Digits(s[11..13]) && Digits(s[14..16]) && Digits(s[17..])
  }

  /** Nothing, or a point and digits. */
  predicate IsFraction(s: string)
  {
    s == "" || (|s| > 1 && s[0] == '.' && Digits(s[1..]))
  }

  predicate IsInstant(s: string)
  {
    |s| >= 20 && IsLocal(s[..19]) && IsFraction(s[19..|s| - 1]) && s[|s| - 1] == 'Z'
  }

  /** The fraction of a second of an instant, with its point. */
  function FractionOf(s: string): string
    requires IsInstant(s)
  {
    s[19..|s| - 1]
  }

  predicate Valid(b: BoundaryText)
  {
    match b
    case OnDate(date) => IsDate(date)
    case Utc(dateTime) => IsInstant(dateTime)
    case Zoned(dateTime, timeZone) => IsLocal(dateTime) && '/' in timeZone
  }

  // Writing.

  /** Without hyphens and colons. */
  function Basic(s: string): string
  {
    if s == [] then []
    else (if s[0] == '-' || s[0] == ':' then [] else [s[0]]) + Basic(s[1..])
  }

  /** Without the first `.000`. */
  function WithoutMillis(s: string): string
  {
    if |s| < 4 then s
    else if s[..4] == ".000" then s[4..]
    else [s[0]] + WithoutMillis(s[1..])
  }

  function Temporal(name: string, b: BoundaryText): string
  {
    match b
    case OnDate(date) => name + ";VALUE=DATE:" + Basic(date)
    case Utc(dateTime) => name + ":" + WithoutMillis(Basic(dateTime))
    case Zoned(dateTime, timeZone) => name + ";TZID=" + timeZone + ":" + Basic(dateTime)
  }

  // Reading.

  function IndexOf(s: string, c: char): (i: nat)
    ensures i <= |s| && (i < |s| ==> s[i] == c) && c !in s[..i]
    ensures i == |s| <==> c !in s
  {
    if s == [] || s[0] == c then 0
    else
      assert s == [s[0]] + s[1..];
      1 + IndexOf(s[1..], c)
  }

  function SplitOn(s: string, c: char): (parts: seq<string>)
    ensures parts != []
    ensures forall part :: part in parts ==> c !in part
    decreases |s|
  {
    var i := IndexOf(s, c);
    if i == |s| then [s] else [s[..i]] + SplitOn(s[i + 1..], c)
  }

  function Upper(s: string): string
  {
    if s == [] then [] else [if 'a' <= s[0] <= 'z' then s[0] - 32 as char else s[0]] + Upper(s[1..])
  }

  datatype Item = Item(name: string, parameters: map<string, string>, value: string)

  /** A parameter's name and value; without an equals sign the name loses its last letter and the value is the whole. */
  function Parameter(part: string): (string, string)
  {
    var i := IndexOf(part, '=');
    if i < |part| then (Upper(part[..i]), part[i + 1..])
    else (Upper(if part == [] then [] else part[..|part| - 1]), part)
  }

  /** Of two parameters with one name the later counts. */
  function Parameters(parts: seq<string>): map<string, string>
  {
    if parts == [] then map[]
    else
      var (name, value) := Parameter(parts[|parts| - 1]);
      Parameters(parts[..|parts| - 1])[name := value]
  }

  function Property(line: string): Option<Item>
  {
    var separator := IndexOf(line, ':');
    if separator == |line| || separator < 1 then None
    else
      var parts := SplitOn(line[..separator], ';');
      Some(Item(Upper(parts[0]), Parameters(parts[1..]), line[separator + 1..]))
  }

  predicate IsBasic(s: string)
  {
    |s| >= 15 && Digits(s[..8]) && s[8] == 'T' && Digits(s[9..15]) && (|s| == 15 || (|s| == 16 && s[15] == 'Z'))
  }

  function Dashed(s: string): string
    requires |s| >= 8
  {
    s[..4] + "-" + s[4..6] + "-" + s[6..8]
  }

  /** A basic date-time spelled out; any other text is left as it is. */
  function Extended(s: string): string
  {
    if IsBasic(s) then Dashed(s) + "T" + s[9..11] + ":" + s[11..13] + ":" + s[13..15] else s
  }

  datatype ReadError = Floating | NotADate

  /** Slices stop at the end of the text, as in JavaScript. */
  function Slice(s: string, from: nat, to: nat): string
    requires from <= to
  {
    s[if from <= |s| then from else |s|..if to <= |s| then to else |s|]
  }

  function ReadBoundary(item: Item): Result<BoundaryText, ReadError>
  {
    var v := item.value;
    if ("VALUE" in item.parameters && item.parameters["VALUE"] == "DATE") || (|v| == 8 && Digits(v)) then
      Ok(OnDate(Slice(v, 0, 4) + "-" + Slice(v, 4, 6) + "-" + Slice(v, 6, 8)))
    else if v != [] && v[|v| - 1] == 'Z' then Ok(Utc(Extended(v) + "Z"))
    else if "TZID" in item.parameters && item.parameters["TZID"] != [] then Ok(Zoned(Extended(v), item.parameters["TZID"]))
    else Err(Floating)
  }

  /** A boundary written as a property and read back. */
  function ReadBack(name: string, b: BoundaryText): Option<Result<BoundaryText, ReadError>>
  {
    match Property(Temporal(name, b))
    case None => None
    case Some(item) => Some(ReadBoundary(item))
  }

  // The basic form.

  lemma {:induction false} BasicSplits(s: string, t: string)
    ensures Basic(s + t) == Basic(s) + Basic(t)
  {
    if s == [] {
      assert s + t == t;
    } else {
      assert (s + t)[1..] == s[1..] + t;
      BasicSplits(s[1..], t);
    }
  }

  lemma {:induction false} BasicKeeps(s: string)
    requires '-' !in s && ':' !in s
    ensures Basic(s) == s
  {
    if s != [] {
      BasicKeeps(s[1..]);
    }
  }

  lemma BasicDigits(s: string)
    requires Digits(s)
    ensures Basic(s) == s && Basic("-" + s) == s && Basic(":" + s) == s
  {
    BasicKeeps(s);
    assert ("-" + s)[1..] == s && (":" + s)[1..] == s;
  }

  lemma BasicDate(s: string)
    requires IsDate(s)
    ensures Basic(s) == s[..4] + s[5..7] + s[8..] && |Basic(s)| == 8 && Digits(Basic(s)) && Dashed(Basic(s)) == s
  {
    hide Basic;
    BasicDigits(s[..4]);
    BasicDigits(s[5..7]);
    BasicDigits(s[8..]);
    assert s == s[..4] + ("-" + s[5..7]) + ("-" + s[8..]);
    BasicSplits(s[..4], "-" + s[5..7]);
    BasicSplits(s[..4] + ("-" + s[5..7]), "-" + s[8..]);
  }

  lemma BasicClock(h: string, m: string, s: string)
    requires Digits(h) && Digits(m) && Digits(s)
    ensures Basic(h + (":" + m) + (":" + s)) == h + m + s
  {
    hide Basic, Digits;
    BasicDigits(h);
    BasicDigits(m);
    BasicDigits(s);
    BasicSplits(h, ":" + m);
    BasicSplits(h + (":" + m), ":" + s);
  }

  lemma BasicPieces(s: string)
    requires IsLocal(s)
    ensures Basic(s) == Basic(s[..10]) + "T" + (s[11..13] + s[14..16] + s[17..])
  {
    hide Basic, IsDate, Digits;
    var clock := s[11..13] + (":" + s[14..16]) + (":" + s[17..]);
    BasicClock(s[11..13], s[14..16], s[17..]);
    BasicKeeps("T");
    assert s == s[..10] + "T" + clock;
    BasicSplits(s[..10], "T");
    BasicSplits(s[..10] + "T", clock);
  }

  lemma PiecesExtend(b: string, h: string, m: string, s: string)
    requires Digits(b) && |b| == 8 && Digits(h) && |h| == 2 && Digits(m) && |m| == 2 && Digits(s) && |s| == 2
    ensures var t := b + "T" + (h + m + s);
            && IsBasic(t) && |t| == 15 && t[14] != 'Z' && '.' !in t && ':' !in t
            && Extended(t) == Dashed(b) + "T" + h + ":" + m + ":" + s
            && Extended(t + "Z") == Extended(t)
  {
    var t := b + "T" + (h + m + s);
    assert t[..8] == b && t[9..11] == h && t[11..13] == m && t[13..15] == s && t[9..15] == h + m + s;
    assert (t + "Z")[..8] == b && (t + "Z")[9..11] == h && (t + "Z")[11..13] == m && (t + "Z")[13..15] == s
           && (t + "Z")[9..15] == h + m + s;
    assert Dashed(t) == Dashed(b) && Dashed(t + "Z") == Dashed(b);
    assert t[8] == 'T' && (t + "Z")[8] == 'T' && (t + "Z")[15] == 'Z';
    forall c | c in t ensures c != '.' && c != ':' {
      assert c in b || c == 'T' || c in h || c in m || c in s;
    }
    assert t[14] == s[1] && s[1] in s;
  }

  lemma BasicLocal(s: string)
    requires IsLocal(s)
    ensures IsBasic(Basic(s)) && |Basic(s)| == 15 && Basic(s)[14] != 'Z' && '.' !in Basic(s) && ':' !in Basic(s)
    ensures Extended(Basic(s)) == s && Extended(Basic(s) + "Z") == s
  {
    hide Basic, IsBasic, Extended, Dashed;
    BasicDate(s[..10]);
    BasicPieces(s);
    PiecesExtend(Basic(s[..10]), s[11..13], s[14..16], s[17..]);
    assert s == s[..10] + "T" + s[11..13] + ":" + s[14..16] + ":" + s[17..];
  }

  lemma {:induction false} NoMillis(s: string)
    requires '.' !in s
    ensures WithoutMillis(s) == s
  {
    if |s| >= 4 {
      NoMillis(s[1..]);
    }
  }

  /** How each boundary is written. An instant loses a fraction of `.000`. */
  lemma WrittenForms(name: string, b: BoundaryText)
    requires Valid(b)
    ensures match b
            case OnDate(d) => Temporal(name, b) == name + ";VALUE=DATE:" + (d[..4] + d[5..7] + d[8..])
            case Utc(t) => FractionOf(t) == "" || FractionOf(t) == ".000" ==>
                             Temporal(name, b) == name + ":" + Compact(t[..19]) + "Z"
            case Zoned(t, zone) => Temporal(name, b) == name + ";TZID=" + zone + ":" + Compact(t)
  {
    hide Basic, WithoutMillis, IsLocal, IsDate, IsFraction;
    match b
    case OnDate(d) => BasicDate(d);
    case Utc(t) =>
      CompactIs(t[..19]);
      InstantWritten(t);
      if FractionOf(t) == "" || FractionOf(t) == ".000" {
        MillisOfFraction(FractionOf(t));
        assert WithoutMillis(FractionOf(t) + "Z") == "Z";
        assert name + ":" + (Compact(t[..19]) + "Z") == name + ":" + Compact(t[..19]) + "Z";
      }
    case Zoned(t, zone) => CompactIs(t);
  }

  /** The digits of a local time, `T` between the date's and the clock's. */
  function Compact(t: string): string
    requires |t| == 19
  {
    t[..4] + t[5..7] + t[8..10] + "T" + t[11..13] + t[14..16] + t[17..]
  }

  lemma CompactIs(t: string)
    requires IsLocal(t)
    ensures Basic(t) == Compact(t)
  {
    hide Basic;
    BasicPieces(t);
    BasicDate(t[..10]);
    assert t[..10][..4] == t[..4] && t[..10][5..7] == t[5..7] && t[..10][8..] == t[8..10];
  }

  // Properties.

  predicate Plain(s: string)
  {
    ':' !in s && ';' !in s
  }

  lemma {:induction false} IndexAfter(s: string, c: char, t: string)
    requires c !in s
    ensures IndexOf(s + [c] + t, c) == |s|
  {
    if s != [] {
      assert (s + [c] + t)[1..] == s[1..] + [c] + t && s[0] in s;
      IndexAfter(s[1..], c, t);
    }
  }

  lemma SplitTwo(s: string, c: char, t: string)
    requires c !in s && c !in t
    ensures SplitOn(s + [c] + t, c) == [s, t]
  {
    IndexAfter(s, c, t);
    var u := s + [c] + t;
    assert u[..|s|] == s && u[|s| + 1..] == t;
  }

  /** A property without parameters. */
  lemma BareProperty(name: string, value: string)
    requires Plain(name) && name != []
    ensures Property(name + ":" + value) == Some(Item(Upper(name), map[], value))
  {
    IndexAfter(name, ':', value);
    var line := name + ":" + value;
    assert line[..|name|] == name && line[|name| + 1..] == value;
    assert [name][1..] == [];
  }

  /** A property with one parameter. */
  lemma ParameterProperty(name: string, key: string, p: string, value: string)
    requires Plain(name) && name != [] && Plain(key) && '=' !in key && Plain(p)
    ensures Property(name + ";" + key + "=" + p + ":" + value) == Some(Item(Upper(name), map[Upper(key) := p], value))
  {
    var part := key + "=" + p;
    var head := name + ";" + part;
    var line := head + ":" + value;
    assert name + ";" + key + "=" + p + ":" + value == line;
    IndexAfter(head, ':', value);
    assert line[..|head|] == head && line[|head| + 1..] == value;
    SplitTwo(name, ';', part);
    OneParameter(name, key, p);
  }

  lemma OneParameter(name: string, key: string, p: string)
    requires '=' !in key
    ensures Parameters([name, key + "=" + p][1..]) == map[Upper(key) := p]
  {
    var part := key + "=" + p;
    IndexAfter(key, '=', p);
    assert part[..|key|] == key && part[|key| + 1..] == p;
    assert [name, part][1..] == [part];
    var none: seq<string> := [];
    assert [part][..0] == none;
    assert Parameters([]) == map[];
  }

  lemma {:induction false} UpperKeeps(s: string)
    requires forall c :: c in s ==> 'A' <= c <= 'Z'
    ensures Upper(s) == s
  {
    if s != [] {
      assert s[0] in s && forall c :: c in s[1..] ==> c in s;
      UpperKeeps(s[1..]);
    }
  }

  // Round trips.

  lemma DateReadsBack(name: string, date: string)
    requires Plain(name) && name != [] && IsDate(date)
    ensures ReadBack(name, OnDate(date)) == Some(Ok(OnDate(date)))
  {
    hide Upper, Basic, Dashed, Property;
    BasicDate(date);
    UpperKeeps("VALUE");
    ParameterProperty(name, "VALUE", "DATE", Basic(date));
    assert name + ";VALUE=DATE:" + Basic(date) == name + ";" + "VALUE" + "=" + "DATE" + ":" + Basic(date);
    DashedSlices(Basic(date));
  }

  lemma DashedSlices(s: string)
    requires |s| == 8
    ensures Slice(s, 0, 4) + "-" + Slice(s, 4, 6) + "-" + Slice(s, 6, 8) == Dashed(s)
  {
  }

  lemma MillisStep(s: string)
    requires s != "" && s[0] != '.'
    ensures WithoutMillis(s) == [s[0]] + WithoutMillis(s[1..])
  {
    if |s| >= 4 {
      assert s[..4][0] == s[0] && ".000"[0] == '.';
    }
  }

  lemma {:induction false} MillisAfter(s: string, t: string)
    requires '.' !in s
    ensures WithoutMillis(s + t) == s + WithoutMillis(t)
  {
    if s == "" {
      assert s + t == t;
    } else {
      assert (s + t)[1..] == s[1..] + t && s[0] in s && (s + t)[0] == s[0];
      MillisAfter(s[1..], t);
      MillisStep(s + t);
      hide WithoutMillis;
      assert [s[0]] + (s[1..] + WithoutMillis(t)) == s + WithoutMillis(t);
    }
  }

  /** What is left of a fraction once `.000` is taken out of it. */
  lemma MillisOfFraction(f: string)
    requires IsFraction(f)
    ensures var rest := WithoutMillis(f + "Z");
            && rest != "" && rest[|rest| - 1] == 'Z'
            && (|rest| == 1 <==> f == "" || f == ".000")
  {
    var s := f + "Z";
    if f != "" {
      if |s| >= 4 && s[..4] == ".000" {
        assert s[..4][3] == '0' && ".000"[3] == '0';
        assert |f| >= 4 && (|f| == 4 ==> f == s[..4]);
      } else {
        assert s[1..] == f[1..] + "Z" && '.' !in s[1..];
        NoMillis(s[1..]);
      }
    }
  }

  /** What an instant is written as. */
  lemma InstantWritten(dateTime: string)
    requires IsInstant(dateTime)
    ensures WithoutMillis(Basic(dateTime)) == Basic(dateTime[..19]) + WithoutMillis(FractionOf(dateTime) + "Z")
  {
    hide Basic, WithoutMillis, IsLocal, IsDate;
    var local, f := dateTime[..19], FractionOf(dateTime);
    assert dateTime == local + (f + "Z");
    assert forall c :: c in f ==> c == '.' || c in f[1..];
    BasicLocal(local);
    BasicSplits(local, f + "Z");
    BasicKeeps(f + "Z");
    MillisAfter(Basic(local), f + "Z");
  }

  /** Without a fraction, or with `.000`, an instant reads back to the second. Any other fraction makes a text that is
      not spelled out again, to which a second `Z` is added. */
  lemma UtcReadsBack(name: string, dateTime: string)
    requires Plain(name) && name != [] && IsInstant(dateTime)
    ensures var f := FractionOf(dateTime);
            var written := WithoutMillis(Basic(dateTime));
            ReadBack(name, Utc(dateTime)) ==
            Some(Ok(Utc((if f == "" || f == ".000" then dateTime[..19] else written) + "Z")))
  {
    hide Upper, Basic, Extended, Property, WithoutMillis, IsLocal, IsFraction;
    var local, f := dateTime[..19], FractionOf(dateTime);
    BasicLocal(local);
    InstantWritten(dateTime);
    MillisOfFraction(f);
    var written := WithoutMillis(Basic(dateTime));
    BareProperty(name, written);
    LongIsNotExtended(written);
    var rest := WithoutMillis(f + "Z");
    assert written[|written| - 1] == rest[|rest| - 1];
    if f == "" || f == ".000" {
      assert rest == "Z";
    }
  }

  lemma LongIsNotExtended(s: string)
    ensures |s| > 16 ==> Extended(s) == s
  {
  }

  /** An instant reads back as it was exactly when it has no fraction. */
  lemma UtcRoundTripsIff(name: string, dateTime: string)
    requires Plain(name) && name != [] && IsInstant(dateTime)
    ensures ReadBack(name, Utc(dateTime)) == Some(Ok(Utc(dateTime))) <==> FractionOf(dateTime) == ""
  {
    hide ReadBack, Basic, WithoutMillis, IsLocal;
    var f, written := FractionOf(dateTime), WithoutMillis(Basic(dateTime));
    UtcReadsBack(name, dateTime);
    InstantWritten(dateTime);
    MillisOfFraction(f);
    if f == "" {
      assert dateTime == dateTime[..19] + "Z";
    } else {
      assert dateTime[|dateTime| - 2] == f[|f| - 1] && f[|f| - 1] in f[1..];
      assert (written + "Z")[|written| - 1] == 'Z';
    }
  }

  lemma ZonedReadsBack(name: string, dateTime: string, zone: string)
    requires Plain(name) && name != [] && Valid(Zoned(dateTime, zone)) && Plain(zone)
    ensures ReadBack(name, Zoned(dateTime, zone)) == Some(Ok(Zoned(dateTime, zone)))
  {
    hide Upper, Basic, Extended, Property, IsLocal;
    BasicLocal(dateTime);
    UpperKeeps("TZID");
    ParameterProperty(name, "TZID", zone, Basic(dateTime));
    assert name + ";TZID=" + zone + ":" + Basic(dateTime) == name + ";" + "TZID" + "=" + zone + ":" + Basic(dateTime);
  }

  /** The values of parameters hold neither separator. */
  lemma {:induction false} PlainParameters(parts: seq<string>)
    requires forall part :: part in parts ==> Plain(part)
    ensures forall key :: key in Parameters(parts) ==> Plain(Parameters(parts)[key])
  {
    if parts != [] {
      var init, last := parts[..|parts| - 1], parts[|parts| - 1];
      PlainParameters(init);
      assert last in parts;
    }
  }

  lemma {:induction false} SplitHolds(s: string, c: char, d: char)
    requires d !in s
    ensures forall part :: part in SplitOn(s, c) ==> d !in part
    decreases |s|
  {
    var i := IndexOf(s, c);
    if i < |s| {
      SplitHolds(s[i + 1..], c, d);
    }
  }

  /** A zone that is read holds neither separator. */
  lemma PlainZone(line: string)
    ensures match Property(line)
            case None => true
            case Some(item) => ReadBoundary(item).Ok? && ReadBoundary(item).value.Zoned? ==> Plain(ReadBoundary(item).value.timeZone)
  {
    var separator := IndexOf(line, ':');
    if Property(line).Some? {
      var head := line[..separator];
      var parts := SplitOn(head, ';');
      SplitHolds(head, ';', ':');
      assert forall part :: part in parts[1..] ==> part in parts;
      PlainParameters(parts[1..]);
    }
  }

  /** A boundary survives being written and read exactly when it has no fraction of a second and its zone name, if it
      has one, holds no colon and no semicolon. */
  lemma BoundaryRoundTripsIff(name: string, b: BoundaryText)
    requires Plain(name) && name != [] && Valid(b)
    ensures ReadBack(name, b) == Some(Ok(b)) <==>
              (b.Utc? ==> FractionOf(b.dateTime) == "") && (b.Zoned? ==> Plain(b.timeZone))
  {
    hide Property, ReadBoundary, Temporal, IsLocal;
    match b
    case OnDate(date) => DateReadsBack(name, date);
    case Utc(dateTime) => UtcRoundTripsIff(name, dateTime);
    case Zoned(dateTime, zone) =>
      PlainZone(Temporal(name, b));
      if Plain(zone) {
        ZonedReadsBack(name, dateTime, zone);
      }
  }
}
