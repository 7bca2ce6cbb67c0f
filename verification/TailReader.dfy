/** Reading an append-only file of records a build at a time: complete lines only, each once. */
module TailReader {
  import opened Basics

  type Bytes = seq<bv8>

  const LF: bv8 := 10

  /** Where the first line of `s` ends, its line feed included; the end of `s` when it has none. */
  function LineEnd(s: Bytes): (e: nat)
    ensures e <= |s| && (s != [] ==> e > 0)
    ensures LF !in s ==> e == |s|
    ensures LF in s ==> e > 0 && s[e - 1] == LF && LF !in s[..e - 1]
  {
    if s == [] then 0
    else if s[0] == LF then 1
    else
      assert s == [s[0]] + s[1..];
      1 + LineEnd(s[1..])
  }

  /** The lines of `s` that a line feed ends. */
  function CompleteLines(s: Bytes): seq<Bytes>
    decreases |s|
  {
    if LF !in s then [] else [s[..LineEnd(s)]] + CompleteLines(s[LineEnd(s)..])
  }

  /** How much of `s` its complete lines take. */
  function Committed(s: Bytes): (n: nat)
    ensures n <= |s|
    decreases |s|
  {
    if LF !in s then 0 else LineEnd(s) + Committed(s[LineEnd(s)..])
  }

  /** What parses among the complete lines. */
  function Records<R>(parse: Bytes -> Option<R>, s: Bytes): seq<R>
  {
    FilterMap(parse, CompleteLines(s))
  }

  // What complete lines are.

  function Joined(lines: seq<Bytes>): Bytes
  {
    if lines == [] then [] else lines[0] + Joined(lines[1..])
  }

  /** The first complete line, and the rest. */
  lemma FirstLine(s: Bytes)
    requires LF in s
    ensures var e := LineEnd(s);
            && CompleteLines(s) == [s[..e]] + CompleteLines(s[e..])
            && Committed(s) == e + Committed(s[e..])
            && s[..e] != [] && s[..e][e - 1] == LF && s[..e][..e - 1] == s[..e - 1] && LF !in s[..e - 1]
  {
  }

  /** The complete lines make up what is committed. */
  lemma {:induction false} LinesAreCommitted(s: Bytes)
    ensures Joined(CompleteLines(s)) == s[..Committed(s)]
    decreases |s|
  {
    if LF in s {
      var e := LineEnd(s);
      FirstLine(s);
      LinesAreCommitted(s[e..]);
      hide CompleteLines, Committed, LineEnd;
      JoinedCons(s[..e], CompleteLines(s[e..]));
      hide Joined;
      TakeSplits(s, e, Committed(s[e..]));
    }
  }

  lemma JoinedCons(line: Bytes, lines: seq<Bytes>)
    ensures Joined([line] + lines) == line + Joined(lines)
  {
    assert ([line] + lines)[1..] == lines;
  }

  lemma TakeSplits(s: Bytes, e: nat, m: nat)
    requires e + m <= |s|
    ensures s[..e + m] == s[..e] + s[e..][..m]
  {
  }

  /** What is committed ends with a line feed, and no line feed comes after it. */
  lemma {:induction false} CommittedAtLineEnd(s: Bytes)
    ensures Committed(s) > 0 ==> s[Committed(s) - 1] == LF
    ensures LF !in s[Committed(s)..]
    decreases |s|
  {
    if LF in s {
      var e := LineEnd(s);
      FirstLine(s);
      CommittedAtLineEnd(s[e..]);
      hide CompleteLines, Committed, LineEnd;
      assert s[Committed(s)..] == s[e..][Committed(s[e..])..];
    } else {
      assert s[0..] == s;
    }
  }

  /** Each complete line ends with its only line feed. */
  lemma {:induction false} LinesEndOnce(s: Bytes)
    ensures forall line :: line in CompleteLines(s) ==> line != [] && line[|line| - 1] == LF && LF !in line[..|line| - 1]
    decreases |s|
  {
    if LF in s {
      FirstLine(s);
      LinesEndOnce(s[LineEnd(s)..]);
    }
  }

  lemma {:induction false} LineEndStays(s: Bytes, more: Bytes)
    requires LF in s
    ensures LineEnd(s + more) == LineEnd(s)
  {
    if s[0] != LF {
      assert (s + more)[1..] == s[1..] + more;
      LineEndStays(s[1..], more);
    }
  }

  /** Appended bytes leave the complete lines in place and continue from the end of the last. */
  lemma {:induction false} LinesContinue(s: Bytes, more: Bytes)
    ensures CompleteLines(s + more) == CompleteLines(s) + CompleteLines((s + more)[Committed(s)..])
    ensures Committed(s + more) == Committed(s) + Committed((s + more)[Committed(s)..])
    decreases |s|
  {
    if LF in s {
      var e := LineEnd(s);
      LineEndStays(s, more);
      assert LF in s + more by { assert (s + more)[e - 1] == LF; }
      assert (s + more)[e..] == s[e..] + more && (s + more)[..e] == s[..e];
      FirstLine(s);
      FirstLine(s + more);
      hide CompleteLines, Committed, LineEnd;
      LinesContinue(s[e..], more);
      assert (s + more)[Committed(s)..] == (s[e..] + more)[Committed(s[e..])..];
    } else {
      assert (s + more)[0..] == s + more;
    }
  }

  // The reader.

  lemma NoLine<R>(parse: Bytes -> Option<R>, s: Bytes)
    requires s == [] || s[LineEnd(s) - 1] != LF
    ensures Records(parse, s) == [] && Committed(s) == 0
  {
  }

  lemma NextRecord<R>(parse: Bytes -> Option<R>, s: Bytes)
    requires s != [] && s[LineEnd(s) - 1] == LF
    ensures var e := LineEnd(s);
            && Committed(s) == e + Committed(s[e..])
            && Records(parse, s) == (match parse(s[..e]) case Some(r) => [r] case None => []) + Records(parse, s[e..])
  {
    assert LF in s;
    FirstLine(s);
    hide CompleteLines, Committed, LineEnd;
    assert CompleteLines(s)[1..] == CompleteLines(s[LineEnd(s)..]);
  }

  /** The records after an offset, and where the reading stopped: before a last line that is still incomplete. */
  method EachNewRecord<R>(file: Bytes, offset: nat, parse: Bytes -> Option<R>) returns (records: seq<R>, stop: nat)
    requires offset <= |file|
    ensures records == Records(parse, file[offset..])
    ensures stop == offset + Committed(file[offset..])
  {
    hide Records, Committed, LineEnd;
    records, stop := [], offset;
    NoLine(parse, []);
    while stop < |file|
      invariant offset <= stop <= |file|
      invariant Records(parse, file[offset..]) == records + Records(parse, file[stop..])
      invariant offset + Committed(file[offset..]) == stop + Committed(file[stop..])
      decreases |file| - stop
    {
      var rest := file[stop..];
      var line := rest[..LineEnd(rest)];
      if line[|line| - 1] != LF {
        NoLine(parse, rest);
        return;
      }
      NextRecord(parse, rest);
      assert rest[|line|..] == file[stop + |line|..];
      var record := parse(line);
      if record.Some? {
        records := records + [record.value];
      }
      stop := stop + |line|;
    }
  }

  /** The separate pass that finds the offset to keep. */
  method CommittedOffset(file: Bytes, offset: nat) returns (committed: nat)
    requires offset <= |file|
    ensures committed == offset + Committed(file[offset..])
  {
    hide Committed, LineEnd;
    committed := offset;
    var position := offset;
    NoLine<Bytes>(line => Some(line), []);
    while position < |file|
      invariant offset <= position == committed <= |file|
      invariant offset + Committed(file[offset..]) == committed + Committed(file[committed..])
      decreases |file| - position
    {
      var rest := file[position..];
      var line := rest[..LineEnd(rest)];
      if line[|line| - 1] != LF {
        NoLine<Bytes>(l => Some(l), rest);
        break;
      }
      NextRecord<Bytes>(l => Some(l), rest);
      assert rest[|line|..] == file[position + |line|..];
      position := position + |line|;
      committed := committed + |line|;
    }
  }

  datatype Source = Source(inode: nat, offset: nat)

  /** Where a build resumes: from the start when the file is another, or has shrunk below the offset kept. */
  function Resumed(known: Option<Source>, file: Bytes, inode: nat): (offset: nat)
    ensures offset <= |file|
  {
    if known.None? || known.value.inode != inode || |file| < known.value.offset then 0 else known.value.offset
  }

  class Tail<R> {
    const parse: Bytes -> Option<R>
    var source: Option<Source>

    constructor (parse: Bytes -> Option<R>)
      ensures this.parse == parse && source == None
    {
      this.parse := parse;
      source := None;
    }

    /** One build: the new records, with the offset to resume from kept for the next. */
    method Build(file: Bytes, inode: nat) returns (records: seq<R>)
      modifies this
      ensures var offset := Resumed(old(source), file, inode);
              && records == Records(parse, file[offset..])
              && source == Some(Source(inode, offset + Committed(file[offset..])))
    {
      var offset := 0;
      if source.Some? {
        offset := source.value.offset;
        if source.value.inode != inode || |file| < offset {
          offset := 0;
        }
      }
      var stop;
      records, stop := EachNewRecord(file, offset, parse);
      var committed := CommittedOffset(file, offset);
      assert committed == stop;
      source := Some(Source(inode, committed));
    }
  }

  // Whole runs of builds.

  datatype Snapshot = Snapshot(file: Bytes, inode: nat)

  function SourceAfter(builds: seq<Snapshot>): Option<Source>
  {
    if builds == [] then None
    else
      var last := builds[|builds| - 1];
      var offset := Resumed(SourceAfter(builds[..|builds| - 1]), last.file, last.inode);
      Some(Source(last.inode, offset + Committed(last.file[offset..])))
  }

  function Yielded<R>(parse: Bytes -> Option<R>, builds: seq<Snapshot>): seq<R>
  {
    if builds == [] then []
    else
      var init, last := builds[..|builds| - 1], builds[|builds| - 1];
      Yielded(parse, init) + Records(parse, last.file[Resumed(SourceAfter(init), last.file, last.inode)..])
  }

  /** One file that only grows, by any number of bytes between builds. */
  ghost predicate Growing(builds: seq<Snapshot>)
  {
    forall i :: 0 < i < |builds| ==> builds[i].inode == builds[i - 1].inode && builds[i - 1].file <= builds[i].file
  }

  lemma GrowingPrefix(builds: seq<Snapshot>)
    requires Growing(builds) && |builds| > 1
    ensures Growing(builds[..|builds| - 1])
    ensures var before, last := builds[..|builds| - 1][|builds| - 2], builds[|builds| - 1];
            last.inode == before.inode && before.file <= last.file
  {
    var init := builds[..|builds| - 1];
    forall i | 0 < i < |init| ensures init[i].inode == init[i - 1].inode && init[i - 1].file <= init[i].file {
      assert builds[i].inode == builds[i - 1].inode;
    }
  }

  /** Reading what was appended, from where the complete lines ended, completes the records. */
  lemma RecordsContinue<R>(parse: Bytes -> Option<R>, before: Bytes, after: Bytes)
    requires before <= after
    ensures Records(parse, after) == Records(parse, before) + Records(parse, after[Committed(before)..])
    ensures Committed(after) == Committed(before) + Committed(after[Committed(before)..])
  {
    hide CompleteLines, Committed, FilterMap;
    var more := after[|before|..];
    assert after == before + more;
    LinesContinue(before, more);
    FilterAppend(parse, CompleteLines(before), CompleteLines(after[Committed(before)..]));
  }

  /** Over all builds, exactly the records on the file's complete lines are yielded: each once, and in order. */
  lemma {:induction false} ExactlyOnce<R>(parse: Bytes -> Option<R>, builds: seq<Snapshot>)
    requires Growing(builds) && builds != []
    ensures var last := builds[|builds| - 1];
            && Yielded(parse, builds) == Records(parse, last.file)
            && SourceAfter(builds) == Some(Source(last.inode, Committed(last.file)))
    decreases |builds|
  {
    hide Records, Committed, Growing;
    var init, last := builds[..|builds| - 1], builds[|builds| - 1];
    if init == [] {
      assert last.file[0..] == last.file;
    } else {
      GrowingPrefix(builds);
      ExactlyOnce(parse, init);
      RecordsContinue(parse, init[|init| - 1].file, last.file);
    }
  }

  /** A file that is another one, or shorter than what was read of it, is read from its start. */
  lemma ReplacedFileReadWhole<R>(parse: Bytes -> Option<R>, builds: seq<Snapshot>, next: Snapshot)
    requires Growing(builds) && builds != []
    requires var last := builds[|builds| - 1];
             next.inode != last.inode || |next.file| < Committed(last.file)
    ensures Yielded(parse, builds + [next]) == Yielded(parse, builds) + Records(parse, next.file)
    ensures SourceAfter(builds + [next]) == Some(Source(next.inode, Committed(next.file)))
  {
    hide Records, Committed, Growing;
    ExactlyOnce(parse, builds);
    hide Yielded, SourceAfter;
    OneMoreBuild(parse, builds, next);
    assert next.file[0..] == next.file;
  }

  lemma OneMoreBuild<R>(parse: Bytes -> Option<R>, builds: seq<Snapshot>, next: Snapshot)
    ensures var offset := Resumed(SourceAfter(builds), next.file, next.inode);
            && Yielded(parse, builds + [next]) == Yielded(parse, builds) + Records(parse, next.file[offset..])
            && SourceAfter(builds + [next]) == Some(Source(next.inode, offset + Committed(next.file[offset..])))
  {
    hide Records, Committed;
    assert (builds + [next])[..|builds|] == builds;
  }

  /** The offset kept is the start of the file or just past a line feed. */
  lemma OffsetAtLineStart(builds: seq<Snapshot>)
    requires Growing(builds) && builds != []
    ensures var file, offset := builds[|builds| - 1].file, SourceAfter(builds).value.offset;
            offset <= |file| && (offset == 0 || file[offset - 1] == LF) && LF !in file[offset..]
  {
    ExactlyOnce<Bytes>(line => Some(line), builds);
    CommittedAtLineEnd(builds[|builds| - 1].file);
  }
}
