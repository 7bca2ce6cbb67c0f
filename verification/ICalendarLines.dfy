/** Content lines of calendar documents, section 3.1 of RFC 5545: the printer folds the lines of a document into physical
    lines of at most 75 octets, and the parser unfolds them. */
module ICalendarLines {

  const LIMIT := 75

  /** Octets of a character in UTF-8. */
  function Octets(c: char): nat
  {
    if c as int < 0x80 then 1 else if c as int < 0x800 then 2 else if c as int < 0x10000 then 3 else 4
  }

  function Size(s: string): nat
  {
    if s == "" then 0 else Octets(s[0]) + Size(s[1..])
  }

  function Join(lines: seq<string>): string
  {
    if lines == [] then ""
    else if |lines| == 1 then lines[0]
    else lines[0] + "\r\n" + Join(lines[1..])
  }

  // The printer.

  /** The physical lines still to come when `current` is the one being filled. */
  function ChunksFrom(current: string, rest: string): seq<string>
    decreases |rest|
  {
    if rest == "" then [current]
    else if Size(current + [rest[0]]) > LIMIT then [current] + ChunksFrom([' ', rest[0]], rest[1..])
    else ChunksFrom(current + [rest[0]], rest[1..])
  }

  function FoldLine(line: string): string
  {
    Join(ChunksFrom("", line))
  }

  function FoldedLines(lines: seq<string>): seq<string>
  {
    if lines == [] then [] else [FoldLine(lines[0])] + FoldedLines(lines[1..])
  }

  /** The folded lines, joined by CRLF and followed by one. */
  function Document(lines: seq<string>): string
  {
    Join(FoldedLines(lines)) + "\r\n"
  }

  /** Folded lines, each followed by CRLF. */
  function Body(lines: seq<string>): string
  {
    if lines == [] then "" else FoldLine(lines[0]) + "\r\n" + Body(lines[1..])
  }

  // The parser.

  predicate Blank(c: char)
  {
    c == ' ' || c == '\t'
  }

  /** `text.replace(/\r?\n[ \t]/g, "")` */
  function Unfolded(text: string): string
  {
    if text == "" then ""
    else if |text| >= 3 && text[0] == '\r' && text[1] == '\n' && Blank(text[2]) then Unfolded(text[3..])
    else if |text| >= 2 && text[0] == '\n' && Blank(text[1]) then Unfolded(text[2..])
    else [text[0]] + Unfolded(text[1..])
  }

  /** `text.split(/\r?\n/)`, `piece` being what the current piece holds so far. */
  function SplitFrom(piece: string, text: string): seq<string>
    decreases |text|
  {
    if text == "" then [piece]
    else if |text| >= 2 && text[0] == '\r' && text[1] == '\n' then [piece] + SplitFrom("", text[2..])
    else if text[0] == '\n' then [piece] + SplitFrom("", text[1..])
    else SplitFrom(piece + [text[0]], text[1..])
  }

  function Unfold(text: string): seq<string>
  {
    SplitFrom("", Unfolded(text))
  }

  // The printer's loop, over the characters of the line.

  method FoldLineInPlace(line: string) returns (folded: string)
    ensures folded == FoldLine(line)
  {
    var chunks: seq<string>, current := [], "";
    var i := 0;
    while i < |line|
      invariant 0 <= i <= |line|
      invariant chunks + ChunksFrom(current, line[i..]) == ChunksFrom("", line)
    {
      assert line[i..][1..] == line[i + 1..];
      if Size(current + [line[i]]) > LIMIT {
        assert chunks + ChunksFrom(current, line[i..]) == (chunks + [current]) + ChunksFrom([' ', line[i]], line[i + 1..]);
        chunks, current := chunks + [current], [' ', line[i]];
      } else {
        current := current + [line[i]];
      }
      i := i + 1;
    }
    chunks := chunks + [current];
    folded := Join(chunks);
  }

  // No physical line is too long.

  lemma {:induction false} SizeAppend(s: string, c: char)
    ensures Size(s + [c]) == Size(s) + Octets(c)
  {
    if s == "" {
      assert s + [c] == [c] && [c][1..] == "";
    } else {
      assert (s + [c])[1..] == s[1..] + [c];
      SizeAppend(s[1..], c);
    }
  }

  /** Every physical line of a folded line is at most 75 octets, whatever its characters. */
  lemma {:induction false} ChunksFit(current: string, rest: string)
    requires Size(current) <= LIMIT
    ensures forall chunk :: chunk in ChunksFrom(current, rest) ==> Size(chunk) <= LIMIT
    decreases |rest|
  {
    if rest != "" {
      if Size(current + [rest[0]]) > LIMIT {
        SizeAppend([' '], rest[0]);
        assert [' '] + [rest[0]] == [' ', rest[0]] && [' '][1..] == "";
        ChunksFit([' ', rest[0]], rest[1..]);
      } else {
        ChunksFit(current + [rest[0]], rest[1..]);
      }
    }
  }

  lemma PhysicalLinesFit(line: string)
    ensures forall chunk :: chunk in ChunksFrom("", line) ==> Size(chunk) <= 75
  {
    ChunksFit("", line);
  }

  /** A line is broken only where one character more would not fit, and goes on after a blank. */
  lemma {:induction false} BrokenWhenFull(current: string, rest: string, i: nat)
    requires i + 1 < |ChunksFrom(current, rest)|
    ensures var chunk, next := ChunksFrom(current, rest)[i], ChunksFrom(current, rest)[i + 1];
            |next| >= 2 && next[0] == ' ' && Size(chunk + [next[1]]) > 75
    decreases |rest|
  {
    if Size(current + [rest[0]]) <= LIMIT {
      BrokenWhenFull(current + [rest[0]], rest[1..], i);
    } else if i > 0 {
      BrokenWhenFull([' ', rest[0]], rest[1..], i - 1);
    } else {
      FirstChunk([' ', rest[0]], rest[1..]);
    }
  }

  lemma {:induction false} FirstChunk(current: string, rest: string)
    ensures ChunksFrom(current, rest) != [] && current <= ChunksFrom(current, rest)[0]
    decreases |rest|
  {
    if rest != "" && Size(current + [rest[0]]) <= LIMIT {
      FirstChunk(current + [rest[0]], rest[1..]);
    }
  }

  // Unfolding undoes folding.

  ghost predicate NoFeed(s: string)
  {
    '\n' !in s
  }

  predicate StartsWithFeed(s: string)
  {
    s != "" && s[0] == '\n'
  }

  /** Text without line feeds passes through unfolding, up to what follows it. */
  lemma {:induction false} UnfoldedPasses(s: string, t: string)
    requires NoFeed(s) && !StartsWithFeed(t)
    ensures Unfolded(s + t) == s + Unfolded(t)
  {
    if s == "" {
      assert s + t == t;
    } else {
      assert (s + t)[1..] == s[1..] + t;
      assert s[0] in s && (|s| >= 2 ==> s[1] in s);
      assert forall c :: c in s[1..] ==> c in s;
      UnfoldedPasses(s[1..], t);
    }
  }

  /** A line break and the blank after it are dropped. */
  lemma UnfoldedFold(t: string)
    requires t != "" && Blank(t[0])
    ensures Unfolded(t) == [t[0]] + Unfolded(t[1..])
    ensures Unfolded("\r\n" + t) == Unfolded(t[1..])
  {
    assert ("\r\n" + t)[3..] == t[1..];
  }

  lemma UnfoldedFeed(t: string)
    requires t == "" || !Blank(t[0])
    ensures Unfolded("\n" + t) == "\n" + Unfolded(t)
  {
    assert ("\n" + t)[1..] == t;
  }

  lemma UnfoldedBreak(t: string)
    requires t == "" || !Blank(t[0])
    ensures Unfolded("\r\n" + t) == "\r\n" + Unfolded(t)
  {
    UnfoldedFeed(t);
    var whole := "\r\n" + t;
    assert whole[1..] == "\n" + t;
    assert Unfolded(whole) == ['\r'] + Unfolded(whole[1..]);
    hide Unfolded;
    assert ['\r'] + ("\n" + Unfolded(t)) == "\r\n" + Unfolded(t);
  }

  lemma {:induction false} ChunksStart(current: string, rest: string)
    requires current != ""
    ensures Join(ChunksFrom(current, rest)) != "" && Join(ChunksFrom(current, rest))[0] == current[0]
    decreases |rest|
  {
    if rest != "" {
      if Size(current + [rest[0]]) <= LIMIT {
        ChunksStart(current + [rest[0]], rest[1..]);
      }
    }
  }

  lemma {:induction false} ChunksNonEmpty(current: string, rest: string)
    ensures ChunksFrom(current, rest) != []
    decreases |rest|
  {
    if rest != "" && Size(current + [rest[0]]) <= LIMIT {
      ChunksNonEmpty(current + [rest[0]], rest[1..]);
    }
  }

  lemma JoinCons(chunk: string, chunks: seq<string>)
    requires chunks != []
    ensures Join([chunk] + chunks) == chunk + "\r\n" + Join(chunks)
  {
    assert ([chunk] + chunks)[1..] == chunks;
  }

  /** Joined chunks unfold to the characters they were cut from. */
  lemma {:induction false} ChunksUnfold(current: string, rest: string, t: string)
    requires NoFeed(current) && NoFeed(rest) && !StartsWithFeed(t)
    ensures Unfolded(Join(ChunksFrom(current, rest)) + t) == current + rest + Unfolded(t)
    decreases |rest|, 0
  {
    if rest == "" {
      UnfoldedPasses(current, t);
      assert current + rest == current;
    } else {
      var c, more := rest[0], rest[1..];
      assert rest == [c] + more && c in rest;
      assert NoFeed(more) by {
        assert forall x :: x in more ==> x in rest;
      }
      if Size(current + [c]) > LIMIT {
        ChunkBreakUnfolds(current, c, more, t);
      } else {
        ChunksUnfold(current + [c], more, t);
        assert current + [c] + more == current + rest;
      }
    }
  }

  lemma {:induction false} ChunkBreakUnfolds(current: string, c: char, more: string, t: string)
    requires NoFeed(current) && NoFeed(more) && c != '\n' && !StartsWithFeed(t)
    requires Size(current + [c]) > LIMIT
    ensures Unfolded(Join([current] + ChunksFrom([' ', c], more)) + t) == current + ([c] + more) + Unfolded(t)
    decreases |more|, 1
  {
    var chunks := ChunksFrom([' ', c], more);
    var joined := Join(chunks) + t;
    ChunksStart([' ', c], more);
    ChunksNonEmpty([' ', c], more);
    JoinCons(current, chunks);
    assert current + "\r\n" + Join(chunks) + t == current + ("\r\n" + joined);
    UnfoldedPasses(current, "\r\n" + joined);
    UnfoldedFold(joined);
    ChunksUnfold([' ', c], more, t);
    assert Unfolded(joined[1..]) == Unfolded(joined)[1..];
    hide Unfolded;
    assert ([' ', c] + more + Unfolded(t))[1..] == [c] + more + Unfolded(t);
    assert current + ([c] + more + Unfolded(t)) == current + ([c] + more) + Unfolded(t);
  }

  // Whole documents.

  predicate StartsBlank(s: string)
  {
    s != "" && Blank(s[0])
  }

  /** Lines the format can carry: no line feed inside, and no line after the first starting with a blank. */
  ghost predicate Printable(lines: seq<string>)
  {
    && (forall line :: line in lines ==> NoFeed(line))
    && forall i :: 0 < i < |lines| ==> !StartsBlank(lines[i])
  }

  /** What is read back: a later line that starts with a blank reads as the continuation of the line before. */
  function Glued(lines: seq<string>): (g: seq<string>)
    ensures |g| <= |lines|
    ensures lines != [] ==> g != [] && lines[0] <= g[0]
  {
    if lines == [] then []
    else
      var g := Glued(lines[1..]);
      if |lines| > 1 && StartsBlank(lines[1]) then [lines[0] + g[0][1..]] + g[1..] else [lines[0]] + g
  }

  /** The lines, each with its line break. */
  function Terminated(lines: seq<string>): string
  {
    if lines == [] then "" else lines[0] + "\r\n" + Terminated(lines[1..])
  }

  lemma BodyStart(lines: seq<string>)
    requires lines != [] && NoFeed(lines[0])
    ensures Body(lines) != "" && !StartsWithFeed(Body(lines)) && StartsBlank(Body(lines)) == StartsBlank(lines[0])
  {
    var line := lines[0];
    if line != "" {
      assert line[0] in line;
      assert "" + [line[0]] == [line[0]] && [line[0]][1..] == "";
      assert Size([line[0]]) == Octets(line[0]);
      assert FoldLine(line) == Join(ChunksFrom([line[0]], line[1..]));
      ChunksStart([line[0]], line[1..]);
      assert Body(lines)[0] == FoldLine(line)[0];
    } else {
      assert FoldLine("") == "";
      assert Body(lines)[0] == '\r' && !Blank('\r');
    }
  }

  lemma BodyCons(lines: seq<string>)
    requires lines != [] && NoFeed(lines[0])
    ensures Unfolded(Body(lines)) == lines[0] + Unfolded("\r\n" + Body(lines[1..]))
  {
    hide Unfolded, ChunksFrom, NoFeed;
    ChunksUnfold("", lines[0], "\r\n" + Body(lines[1..]));
    assert FoldLine(lines[0]) + "\r\n" + Body(lines[1..]) == FoldLine(lines[0]) + ("\r\n" + Body(lines[1..]));
    assert "" + lines[0] == lines[0];
  }

  lemma TerminatedTail(lines: seq<string>)
    requires lines != [] && lines[0] != ""
    ensures Terminated(lines)[1..] == lines[0][1..] + "\r\n" + Terminated(lines[1..])
  {
  }

  lemma {:induction false} BodyUnfolds(lines: seq<string>)
    requires forall line :: line in lines ==> NoFeed(line)
    ensures Unfolded(Body(lines)) == Terminated(Glued(lines))
  {
    if lines != [] {
      var line, rest := lines[0], lines[1..];
      var g := Glued(rest);
      assert line in lines;
      BodyUnfolds(rest);
      BodyCons(lines);
      if rest != [] {
        assert rest[0] in lines;
        BodyStart(rest);
      }
      if rest != [] && StartsBlank(rest[0]) {
        UnfoldedFold(Body(rest));
        assert Unfolded(Body(rest)[1..]) == Terminated(g)[1..];
        TerminatedTail(g);
        var glued := [line + g[0][1..]] + g[1..];
        assert glued[1..] == g[1..];
        assert line + (g[0][1..] + "\r\n" + Terminated(g[1..])) == line + g[0][1..] + "\r\n" + Terminated(g[1..]);
      } else {
        UnfoldedBreak(Body(rest));
        assert ([line] + g)[1..] == g;
        assert line + ("\r\n" + Terminated(g)) == line + "\r\n" + Terminated(g);
      }
    }
  }

  /** Splitting finds the end of a line without line feeds at the break after it. */
  lemma {:induction false} SplitLine(piece: string, line: string, t: string)
    requires NoFeed(line)
    ensures SplitFrom(piece, line + "\r\n" + t) == [piece + line] + SplitFrom("", t)
    decreases |line|
  {
    var whole := line + "\r\n" + t;
    if line == "" {
      assert whole[2..] == t;
      assert piece + line == piece;
    } else {
      assert line[0] in line;
      if |line| > 1 {
        assert line[1] in line;
      }
      assert whole[1..] == line[1..] + "\r\n" + t;
      assert NoFeed(line[1..]) by {
        assert forall x :: x in line[1..] ==> x in line;
      }
      SplitLine(piece + [line[0]], line[1..], t);
      assert piece + [line[0]] + line[1..] == piece + line;
    }
  }

  lemma {:induction false} SplitTerminated(lines: seq<string>)
    requires forall line :: line in lines ==> NoFeed(line)
    ensures SplitFrom("", Terminated(lines)) == lines + [""]
  {
    if lines != [] {
      assert lines[0] in lines;
      SplitLine("", lines[0], Terminated(lines[1..]));
      SplitTerminated(lines[1..]);
      assert "" + lines[0] == lines[0];
      assert [lines[0]] + (lines[1..] + [""]) == lines + [""];
    }
  }

  lemma {:induction false} GluedNoFeed(lines: seq<string>)
    requires forall line :: line in lines ==> NoFeed(line)
    ensures forall line :: line in Glued(lines) ==> NoFeed(line)
  {
    if lines != [] {
      var g := Glued(lines[1..]);
      GluedNoFeed(lines[1..]);
      assert lines[0] in lines;
      if |lines| > 1 && StartsBlank(lines[1]) {
        assert g[0] in g;
        assert forall x :: x in g[0][1..] ==> x in g[0];
        assert forall line :: line in g[1..] ==> line in g;
      }
    }
  }

  lemma {:induction false} DocumentIsBody(lines: seq<string>)
    requires lines != []
    ensures Document(lines) == Body(lines)
  {
    var folded := FoldedLines(lines);
    assert folded[1..] == FoldedLines(lines[1..]);
    if |lines| > 1 {
      DocumentIsBody(lines[1..]);
      hide FoldLine;
      assert Join(folded) == folded[0] + "\r\n" + Join(folded[1..]);
      assert folded[0] + "\r\n" + Join(folded[1..]) + "\r\n" == folded[0] + "\r\n" + (Join(folded[1..]) + "\r\n");
    } else {
      assert Body(lines[1..]) == "";
    }
  }

  /** No lines print as one empty line. */
  lemma NoLinesReadAsOne()
    ensures Unfold(Document([])) == ["", ""]
  {
    assert Document([]) == "\r\n";
    assert "\r\n"[1..] == "\n" && "\r\n"[2..] == "";
    assert Unfolded("\r\n") == "\r\n";
  }

  /** Reading a printed document gives its lines, continuations glued on, and a last empty one. */
  lemma DocumentReads(lines: seq<string>)
    requires lines != [] && forall line :: line in lines ==> NoFeed(line)
    ensures Unfold(Document(lines)) == Glued(lines) + [""]
  {
    DocumentIsBody(lines);
    BodyUnfolds(lines);
    GluedNoFeed(lines);
    SplitTerminated(Glued(lines));
  }

  lemma {:induction false} SplitPieces(piece: string, text: string)
    requires NoFeed(piece)
    ensures forall p :: p in SplitFrom(piece, text) ==> NoFeed(p)
    decreases |text|
  {
    if text == "" {
    } else if |text| >= 2 && text[0] == '\r' && text[1] == '\n' {
      SplitPieces("", text[2..]);
    } else if text[0] == '\n' {
      SplitPieces("", text[1..]);
    } else {
      SplitPieces(piece + [text[0]], text[1..]);
    }
  }

  lemma {:induction false} GluedShrinks(lines: seq<string>)
    ensures (|Glued(lines)| == |lines|) <==> forall i :: 0 < i < |lines| ==> !StartsBlank(lines[i])
    ensures (forall i :: 0 < i < |lines| ==> !StartsBlank(lines[i])) ==> Glued(lines) == lines
  {
    if lines != [] {
      GluedShrinks(lines[1..]);
      assert forall i :: 0 < i < |lines| ==> lines[i] == lines[1..][i - 1];
      if exists i :: 0 < i < |lines[1..]| && StartsBlank(lines[1..][i]) {
        var i :| 0 < i < |lines[1..]| && StartsBlank(lines[1..][i]);
        assert StartsBlank(lines[i + 1]);
      }
    }
  }

  /** A document is read back as it was printed exactly when it has lines and they are ones the format can carry. */
  lemma DocumentRoundTripsIff(lines: seq<string>)
    ensures Unfold(Document(lines)) == lines + [""] <==> lines != [] && Printable(lines)
  {
    GluedShrinks(lines);
    if lines == [] {
      NoLinesReadAsOne();
    } else if forall line :: line in lines ==> NoFeed(line) {
      DocumentReads(lines);
    } else {
      var line :| line in lines && !NoFeed(line);
      SplitPieces("", Unfolded(Document(lines)));
      assert line in lines + [""];
    }
  }
}
