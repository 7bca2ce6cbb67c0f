/** TEXT values of calendar properties, section 3.3.11 of RFC 5545: the four replacements that the printer makes one after
    the other, the four that the parser makes, and what they come to together. */
module ICalendarText {

  // TEXT values, section 3.3.11 of RFC 5545.

  const LF := '\n'

  /** `value.replace(/c/g, with)` for a single character. */
  function ReplaceChar(s: string, c: char, with: string): string
  {
    if s == "" then ""
    else (if s[0] == c then with else [s[0]]) + ReplaceChar(s[1..], c, with)
  }

  /** `value.replace(/\\[second]/g, out)`: a backslash and a character of `second`, left to right. */
  function ReplaceEscape(s: string, second: set<char>, out: char): string
  {
    if s == "" then ""
    else if |s| >= 2 && s[0] == '\\' && s[1] in second then [out] + ReplaceEscape(s[2..], second, out)
    else [s[0]] + ReplaceEscape(s[1..], second, out)
  }

  function EscapeText(s: string): string
  {
    ReplaceChar(ReplaceChar(ReplaceChar(ReplaceChar(s, '\\', "\\\\"), LF, "\\n"), ',', "\\,"), ';', "\\;")
  }

  function UnescapeText(s: string): string
  {
    ReplaceEscape(ReplaceEscape(ReplaceEscape(ReplaceEscape(s, {'n', 'N'}, LF), {','}, ','), {';'}, ';'), {'\\'}, '\\')
  }

  /** A backslash right before `n` or `N`. */
  predicate BackslashN(s: string, i: int)
  {
    0 <= i && i + 1 < |s| && s[i] == '\\' && s[i + 1] in {'n', 'N'}
  }

  /** What a value becomes when it is printed and read back: `n` and `N` after a backslash turn into line feeds. */
  function ReadBack(s: string): (t: string)
    ensures |t| == |s|
    ensures forall i :: 0 <= i < |s| ==> t[i] == if BackslashN(s, i - 1) then LF else s[i]
  {
    seq(|s|, i requires 0 <= i < |s| => if BackslashN(s, i - 1) then LF else s[i])
  }

  // Escaping acts on each character by itself.

  function Code(c: char): string
  {
    if c == '\\' then "\\\\" else if c == LF then "\\n" else if c == ',' then "\\," else if c == ';' then "\\;" else [c]
  }

  function Coded(s: string): string
  {
    if s == "" then "" else Code(s[0]) + Coded(s[1..])
  }

  lemma {:induction false} ReplaceCharConcat(s: string, t: string, c: char, with: string)
    ensures ReplaceChar(s + t, c, with) == ReplaceChar(s, c, with) + ReplaceChar(t, c, with)
  {
    if s == "" {
      assert s + t == t;
    } else {
      assert (s + t)[1..] == s[1..] + t;
      ReplaceCharConcat(s[1..], t, c, with);
    }
  }

  lemma EscapeConcat(s: string, t: string)
    ensures EscapeText(s + t) == EscapeText(s) + EscapeText(t)
  {
    var s1, t1 := ReplaceChar(s, '\\', "\\\\"), ReplaceChar(t, '\\', "\\\\");
    var s2, t2 := ReplaceChar(s1, LF, "\\n"), ReplaceChar(t1, LF, "\\n");
    var s3, t3 := ReplaceChar(s2, ',', "\\,"), ReplaceChar(t2, ',', "\\,");
    ReplaceCharConcat(s, t, '\\', "\\\\");
    ReplaceCharConcat(s1, t1, LF, "\\n");
    ReplaceCharConcat(s2, t2, ',', "\\,");
    ReplaceCharConcat(s3, t3, ';', "\\;");
  }

  lemma ReplaceOne(c: char, d: char, with: string)
    ensures ReplaceChar([c], d, with) == if c == d then with else [c]
  {
    assert [c][1..] == "";
  }

  lemma ReplaceTwo(b: char, c: char, d: char, with: string)
    requires b != d && c != d
    ensures ReplaceChar([b, c], d, with) == [b, c]
  {
    assert [b, c] == [b] + [c];
    ReplaceCharConcat([b], [c], d, with);
    ReplaceOne(b, d, with);
    ReplaceOne(c, d, with);
  }

  lemma EscapeOne(c: char)
    ensures EscapeText([c]) == Code(c)
  {
    ReplaceOne(c, '\\', "\\\\");
    if c == '\\' {
      ReplaceTwo('\\', '\\', LF, "\\n");
      ReplaceTwo('\\', '\\', ',', "\\,");
      ReplaceTwo('\\', '\\', ';', "\\;");
    } else {
      ReplaceOne(c, LF, "\\n");
      if c == LF {
        ReplaceTwo('\\', 'n', ',', "\\,");
        ReplaceTwo('\\', 'n', ';', "\\;");
      } else {
        ReplaceOne(c, ',', "\\,");
        if c == ',' {
          ReplaceTwo('\\', ',', ';', "\\;");
        } else {
          ReplaceOne(c, ';', "\\;");
        }
      }
    }
  }

  /** The four passes of the printer do not interfere. */
  lemma {:induction false} EscapeIsCoded(s: string)
    ensures EscapeText(s) == Coded(s)
  {
    if s != "" {
      assert s == [s[0]] + s[1..];
      EscapeConcat([s[0]], s[1..]);
      EscapeOne(s[0]);
      EscapeIsCoded(s[1..]);
    }
  }

  /** No line feed, and a comma or semicolon only after a backslash. */
  ghost predicate Safe(t: string)
  {
    && (forall i :: 0 <= i < |t| ==> t[i] != LF)
    && (t != "" ==> t[0] != ',' && t[0] != ';')
    && forall i, j :: 0 <= i && i + 1 == j < |t| && (t[j] == ',' || t[j] == ';') ==> t[i] == '\\'
  }

  /** A printed value can be told from the lines and the list items around it. */
  lemma EscapedIsSafe(s: string)
    ensures Safe(EscapeText(s))
  {
    EscapeIsCoded(s);
    CodedIsSafe(s);
  }

  lemma SafeAppends(s: string, t: string)
    requires Safe(s) && Safe(t)
    ensures Safe(s + t)
  {
    assert forall i :: 0 <= i < |s + t| ==> (s + t)[i] == if i < |s| then s[i] else t[i - |s|];
  }

  lemma {:induction false} CodedIsSafe(s: string)
    ensures Safe(Coded(s))
  {
    if s != "" {
      CodedIsSafe(s[1..]);
      assert Safe(Code(s[0]));
      SafeAppends(Code(s[0]), Coded(s[1..]));
    }
  }

  // The reader's four passes, one after the other.

  /** `s` after the printer and the reader's first pass: commas, semicolons and backslashes still escaped, a
      backslash before `n` or `N` left single with a line feed after it. */
  function PassOne(s: string): string
  {
    if s == "" then ""
    else if BackslashN(s, 0) then ['\\', LF] + PassOne(s[2..])
    else (if s[0] == LF then [LF] else Code(s[0])) + PassOne(s[1..])
  }

  function PassTwo(s: string): string
  {
    if s == "" then ""
    else if BackslashN(s, 0) then ['\\', LF] + PassTwo(s[2..])
    else (if s[0] == LF || s[0] == ',' then [s[0]] else Code(s[0])) + PassTwo(s[1..])
  }

  function PassThree(s: string): string
  {
    if s == "" then ""
    else if BackslashN(s, 0) then ['\\', LF] + PassThree(s[2..])
    else (if s[0] == '\\' then Code(s[0]) else [s[0]]) + PassThree(s[1..])
  }

  lemma ReplaceEscapeSkips(c: char, t: string, second: set<char>, out: char)
    requires c != '\\' || t == "" || t[0] !in second
    ensures ReplaceEscape([c] + t, second, out) == [c] + ReplaceEscape(t, second, out)
  {
    assert ([c] + t)[1..] == t;
  }

  lemma ReplaceEscapeTakes(c: char, t: string, second: set<char>, out: char)
    requires c in second
    ensures ReplaceEscape(['\\', c] + t, second, out) == [out] + ReplaceEscape(t, second, out)
  {
    assert (['\\', c] + t)[2..] == t;
  }

  /** A doubled backslash stays as it is when what follows it is not an escape's second character. */
  lemma ReplaceEscapeSkipsTwo(b: char, c: char, t: string, second: set<char>, out: char)
    requires c !in second && (c != '\\' || t == "" || t[0] !in second)
    ensures ReplaceEscape([b, c] + t, second, out) == [b, c] + ReplaceEscape(t, second, out)
  {
    assert [b, c] + t == [b] + ([c] + t);
    ReplaceEscapeSkips(b, [c] + t, second, out);
    ReplaceEscapeSkips(c, t, second, out);
    assert [b] + ([c] + ReplaceEscape(t, second, out)) == [b, c] + ReplaceEscape(t, second, out);
  }

  lemma Regroup(a: char, b: char, c: char, t: string)
    ensures [a, b] + ([c] + t) == [a] + ([b, c] + t)
  {
  }

  lemma CodedPair(s: string)
    requires BackslashN(s, 0)
    ensures Coded(s) == ['\\'] + (['\\', s[1]] + Coded(s[2..]))
  {
    var t := Coded(s[2..]);
    assert Coded(s[1..]) == [s[1]] + t by {
      assert s[1..][1..] == s[2..];
    }
    Regroup('\\', '\\', s[1], t);
    hide Coded;
    assert Code(s[0]) == ['\\', '\\'];
  }

  lemma {:induction false} FirstPass(s: string)
    ensures ReplaceEscape(Coded(s), {'n', 'N'}, LF) == PassOne(s)
    decreases |s|
  {
    var second := {'n', 'N'};
    if s == "" {
    } else if BackslashN(s, 0) {
      FirstPass(s[2..]);
      CodedPair(s);
      ReplaceEscapeSkips('\\', ['\\', s[1]] + Coded(s[2..]), second, LF);
      ReplaceEscapeTakes(s[1], Coded(s[2..]), second, LF);
    } else {
      FirstPass(s[1..]);
      var c, t := s[0], Coded(s[1..]);
      if c == '\\' {
        ReplaceEscapeSkipsTwo('\\', '\\', t, second, LF);
      } else if c == LF {
        ReplaceEscapeTakes('n', t, second, LF);
      } else if c == ',' || c == ';' {
        ReplaceEscapeSkipsTwo('\\', c, t, second, LF);
      } else {
        ReplaceEscapeSkips(c, t, second, LF);
      }
    }
  }

  lemma {:induction false} SecondPass(s: string)
    ensures ReplaceEscape(PassOne(s), {','}, ',') == PassTwo(s)
    decreases |s|
  {
    if s == "" {
    } else if BackslashN(s, 0) {
      SecondPass(s[2..]);
      ReplaceEscapeSkipsTwo('\\', LF, PassOne(s[2..]), {','}, ',');
    } else {
      SecondPass(s[1..]);
      var c, t := s[0], PassOne(s[1..]);
      if c == ',' {
        ReplaceEscapeTakes(',', t, {','}, ',');
      } else if c == '\\' || c == ';' {
        ReplaceEscapeSkipsTwo('\\', c, t, {','}, ',');
      } else {
        ReplaceEscapeSkips(c, t, {','}, ',');
      }
    }
  }

  lemma {:induction false} ThirdPass(s: string)
    ensures ReplaceEscape(PassTwo(s), {';'}, ';') == PassThree(s)
    decreases |s|
  {
    if s == "" {
    } else if BackslashN(s, 0) {
      ThirdPass(s[2..]);
      ReplaceEscapeSkipsTwo('\\', LF, PassTwo(s[2..]), {';'}, ';');
    } else {
      ThirdPass(s[1..]);
      var c, t := s[0], PassTwo(s[1..]);
      if c == ';' {
        ReplaceEscapeTakes(';', t, {';'}, ';');
      } else if c == '\\' {
        ReplaceEscapeSkipsTwo('\\', '\\', t, {';'}, ';');
      } else {
        ReplaceEscapeSkips(c, t, {';'}, ';');
      }
    }
  }

  /** Past position `from`, the text without its first `from` characters is read back alike. */
  lemma ReadBackTail(s: string, from: nat, i: nat)
    requires from <= i < |s| && (i == from ==> !BackslashN(s, i - 1))
    ensures ReadBack(s)[i] == ReadBack(s[from..])[i - from]
  {
    hide ReadBack;
    assert s[from..][i - from] == s[i];
    if i > from {
      assert s[from..][i - 1 - from] == s[i - 1];
      assert BackslashN(s, i - 1) == BackslashN(s[from..], i - 1 - from);
    }
  }

  lemma ReadBackPair(s: string)
    requires BackslashN(s, 0)
    ensures ReadBack(s) == ['\\', LF] + ReadBack(s[2..])
  {
    hide ReadBack;
    forall i | 2 <= i < |s| ensures ReadBack(s)[i] == ReadBack(s[2..])[i - 2] {
      ReadBackTail(s, 2, i);
    }
  }

  lemma ReadBackOne(s: string)
    requires s != "" && !BackslashN(s, 0)
    ensures ReadBack(s) == [s[0]] + ReadBack(s[1..])
  {
    hide ReadBack;
    forall i | 1 <= i < |s| ensures ReadBack(s)[i] == ReadBack(s[1..])[i - 1] {
      ReadBackTail(s, 1, i);
    }
  }

  lemma {:induction false} FourthPass(s: string)
    ensures ReplaceEscape(PassThree(s), {'\\'}, '\\') == ReadBack(s)
    decreases |s|
  {
    if s == "" {
    } else if BackslashN(s, 0) {
      FourthPass(s[2..]);
      var t := PassThree(s[2..]);
      ReplaceEscapeSkipsTwo('\\', LF, t, {'\\'}, '\\');
      ReadBackPair(s);
    } else {
      FourthPass(s[1..]);
      var c, t := s[0], PassThree(s[1..]);
      if c == '\\' {
        ReplaceEscapeTakes('\\', t, {'\\'}, '\\');
      } else {
        ReplaceEscapeSkips(c, t, {'\\'}, '\\');
      }
      ReadBackOne(s);
    }
  }

  /** For every value, what comes back is the value with `n` and `N` after a backslash turned into line feeds. */
  lemma UnescapeEscape(s: string)
    ensures UnescapeText(EscapeText(s)) == ReadBack(s)
  {
    EscapeIsCoded(s);
    FirstPass(s);
    SecondPass(s);
    ThirdPass(s);
    FourthPass(s);
  }

  /** A value survives printing and reading exactly when it has no backslash right before `n` or `N`. */
  lemma TextRoundTripsIff(s: string)
    ensures UnescapeText(EscapeText(s)) == s <==> forall i :: !BackslashN(s, i)
  {
    UnescapeEscape(s);
    forall i | BackslashN(s, i) ensures ReadBack(s)[i + 1] != s[i + 1] {
    }
    if forall i :: !BackslashN(s, i) {
      assert ReadBack(s) == s;
    }
  }
}
