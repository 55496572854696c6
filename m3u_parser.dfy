/**
 * The M3U playlist reader: the content resolver's stream is a sequence of
 * lines, BufferedReader.readLine a cursor over it that answers None (null)
 * past the end, and the read loop of getFileURLsFromFile is a method proved
 * against the function Urls.
 *
 * The loop reads a second line after every line that starts with '#' and
 * discards it unexamined; the model keeps that behaviour.
 */
module M3UParser {
  import opened Wrappers

  /** What ContentResolver.openInputStream gave for the playlist's URI. */
  datatype OpenResult =
    | NotFound                    // FileNotFoundException
    | NullStream                  // the resolver returned null
    | Opened(lines: seq<string>)  // a readable stream, already split into lines

  /** A directive or comment line: String.startsWith("#"). */
  predicate IsDirective(line: string) {
    |line| > 0 && line[0] == '#'
  }

  predicate NoDirectives(lines: seq<string>) {
    forall i :: 0 <= i < |lines| ==> !IsDirective(lines[i])
  }

  /** A BufferedReader over the stream: the lines and how many have been read. */
  class LineReader {
    const lines: seq<string>
    var pos: nat

    predicate Valid()
      reads this
    {
      pos <= |lines|
    }

    constructor (lines: seq<string>)
      ensures Valid() && this.lines == lines && pos == 0
    {
      this.lines := lines;
      pos := 0;
    }

    /** readLine(): the next line, or None (null) once the stream is exhausted. */
    method ReadLine() returns (line: Option<string>)
      requires Valid()
      modifies this`pos
      ensures Valid()
      ensures old(pos) < |lines| ==> line == Some(lines[old(pos)]) && pos == old(pos) + 1
      ensures old(pos) == |lines| ==> line == None && pos == old(pos)
    {
      if pos < |lines| {
        line := Some(lines[pos]);
        pos := pos + 1;
      } else {
        line := None;
      }
    }
  }

  /**
   * The entries the read loop collects from the given lines, starting at a
   * line it examines: a directive line is dropped together with the line
   * after it, any other line (blank ones included) is kept.
   */
  function Urls(lines: seq<string>): (urls: seq<string>)
    ensures |urls| <= |lines|
    ensures NoDirectives(urls)
  {
    if lines == [] then []
    else if IsDirective(lines[0]) then (if |lines| == 1 then [] else Urls(lines[2..]))
    else [lines[0]] + Urls(lines[1..])
  }

  /**
   * getFileURLsFromFile: an empty list when the stream cannot be opened,
   * otherwise what the do-while loop collects. The loop stops once readLine
   * has returned null.
   */
  method GetFileUrlsFromFile(source: OpenResult) returns (urls: seq<string>)
    ensures source.Opened? ==> urls == Urls(source.lines)
    ensures !source.Opened? ==> urls == []
  {
    match source
    case NotFound =>
      return [];
    case NullStream =>
      return [];
    case Opened(lines) =>
      var reader := new LineReader(lines);
      var line: Option<string> := Some("");
      urls := [];
      while line.Some?
        invariant reader.Valid() && reader.lines == lines
        invariant line.Some? ==> urls + Urls(lines[reader.pos..]) == Urls(lines)
        invariant line.None? ==> urls == Urls(lines)
        decreases |lines| - reader.pos + (if line.Some? then 1 else 0)
      {
        ghost var at := reader.pos;
        line := reader.ReadLine();
        if line.None? || IsDirective(line.value) {
          line := reader.ReadLine();
          if line.Some? {
            assert lines[at..][2..] == lines[reader.pos..];
          }
          continue;
        }
        assert lines[at..][1..] == lines[reader.pos..];
        urls := urls + [line.value];
      }
  }

  /** Positions the loop examines (its first readLine of an iteration), from position `from` on. */
  function Examined(lines: seq<string>, from: nat): (idx: seq<nat>)
    ensures forall j :: 0 <= j < |idx| ==> from <= idx[j] < |lines|
    decreases |lines| - from
  {
    if from >= |lines| then []
    else [from] + Examined(lines, if IsDirective(lines[from]) then from + 2 else from + 1)
  }

  /** Positions whose line the loop adds to the result, from position `from` on. */
  function Kept(lines: seq<string>, from: nat): (idx: seq<nat>)
    ensures forall j :: 0 <= j < |idx| ==> from <= idx[j] < |lines|
    decreases |lines| - from
  {
    if from >= |lines| then []
    else if IsDirective(lines[from]) then Kept(lines, from + 2)
    else [from] + Kept(lines, from + 1)
  }

  /**
   * The result is a subsequence of the input: entry j is the line at
   * position Kept[j], and those positions strictly increase, so file order
   * is kept and no line contributes twice.
   */
  lemma {:induction false} UrlsAreKeptLines(lines: seq<string>, from: nat)
    requires from <= |lines|
    ensures var ks := Kept(lines, from);
      && |Urls(lines[from..])| == |ks|
      && (forall j :: 0 <= j < |ks| ==> Urls(lines[from..])[j] == lines[ks[j]])
      && (forall j, k :: 0 <= j < k < |ks| ==> ks[j] < ks[k])
    decreases |lines| - from
  {
    if from < |lines| {
      var rest := lines[from..];
      if IsDirective(lines[from]) {
        if from + 1 < |lines| {
          assert rest[2..] == lines[from + 2..];
          UrlsAreKeptLines(lines, from + 2);
        }
      } else {
        assert rest[1..] == lines[from + 1..];
        UrlsAreKeptLines(lines, from + 1);
      }
    }
  }

  /** A position is kept exactly when the loop examines it and it is not a directive. */
  lemma {:induction false} KeptIffExaminedPlain(lines: seq<string>, from: nat, i: nat)
    requires i < |lines|
    ensures i in Kept(lines, from) <==> i in Examined(lines, from) && !IsDirective(lines[i])
    decreases |lines| - from
  {
    if from < |lines| {
      var next := if IsDirective(lines[from]) then from + 2 else from + 1;
      KeptIffExaminedPlain(lines, next, i);
    }
  }

  /**
   * How the loop moves: after an examined directive the next line is skipped
   * and the one after it examined; after any other examined line the next one
   * is examined.
   */
  lemma {:induction false} ExaminedStep(lines: seq<string>, from: nat, i: nat)
    requires i in Examined(lines, from)
    ensures IsDirective(lines[i]) ==> i + 1 !in Examined(lines, from)
    ensures IsDirective(lines[i]) && i + 2 < |lines| ==> i + 2 in Examined(lines, from)
    ensures !IsDirective(lines[i]) && i + 1 < |lines| ==> i + 1 in Examined(lines, from)
    decreases |lines| - from
  {
    var next := if IsDirective(lines[from]) then from + 2 else from + 1;
    if i != from {
      ExaminedStep(lines, next, i);
    } else {
      var tail := Examined(lines, next);
      assert forall j :: 0 <= j < |tail| ==> next <= tail[j];
      if next < |lines| {
        assert tail[0] == next;
      }
    }
  }

  /** The line right after an examined directive never reaches the result, even when it is a URL. */
  lemma LineAfterDirectiveDropped(lines: seq<string>, i: nat)
    requires i in Examined(lines, 0) && IsDirective(lines[i]) && i + 1 < |lines|
    ensures i + 1 !in Kept(lines, 0)
  {
    ExaminedStep(lines, 0, i);
    KeptIffExaminedPlain(lines, 0, i + 1);
  }

  /** An empty line the loop examines is kept: blank lines are not filtered. */
  lemma EmptyLineKept(lines: seq<string>, i: nat)
    requires i in Examined(lines, 0) && lines[i] == ""
    ensures i in Kept(lines, 0)
  {
    KeptIffExaminedPlain(lines, 0, i);
  }

  /**
   * Nothing else is skipped: a position the loop does not examine is the line
   * right after an examined directive.
   */
  lemma {:induction false} SkippedOnlyAfterDirective(lines: seq<string>, from: nat, i: nat)
    requires from <= i < |lines| && i !in Examined(lines, from)
    ensures i > from && i - 1 in Examined(lines, from) && IsDirective(lines[i - 1])
    decreases |lines| - from
  {
    var next := if IsDirective(lines[from]) then from + 2 else from + 1;
    if i > next {
      SkippedOnlyAfterDirective(lines, next, i);
    }
  }

  /**
   * An empty line at the start of the file, or after a line that does not
   * start with '#', reaches the result.
   */
  lemma EmptyLineAfterPlainLineKept(lines: seq<string>, i: nat)
    requires i < |lines| && lines[i] == "" && (i == 0 || !IsDirective(lines[i - 1]))
    ensures i in Kept(lines, 0)
  {
    if i !in Examined(lines, 0) {
      SkippedOnlyAfterDirective(lines, 0, i);
      assert false;
    }
    EmptyLineKept(lines, i);
  }

  /** Lines before the first directive all pass through unchanged. */
  lemma {:induction false} PlainPrefix(before: seq<string>, after: seq<string>)
    requires NoDirectives(before)
    ensures Urls(before + after) == before + Urls(after)
  {
    if before == [] {
      assert before + after == after;
    } else {
      var all := before + after;
      assert all[0] == before[0] && !IsDirective(all[0]);
      assert all[1..] == before[1..] + after;
      PlainPrefix(before[1..], after);
      assert before == [before[0]] + before[1..];
    }
  }

  /** With no directive in the file the result is the file's lines exactly. */
  lemma NoDirectivesIdentity(lines: seq<string>)
    requires NoDirectives(lines)
    ensures Urls(lines) == lines
  {
    PlainPrefix(lines, []);
    assert lines + [] == lines;
  }

  /**
   * The first directive swallows the line after it, whatever that line is:
   * the result continues with the lines after the pair.
   */
  lemma DirectiveSwallowsNext(before: seq<string>, directive: string, next: string, after: seq<string>)
    requires NoDirectives(before) && IsDirective(directive)
    ensures Urls(before + [directive, next] + after) == before + Urls(after)
  {
    PlainPrefix(before, [directive, next] + after);
    assert before + [directive, next] + after == before + ([directive, next] + after);
    assert ([directive, next] + after)[2..] == after;
  }

  /**
   * An extended M3U file, where every entry is an #EXTINF line followed by its
   * location, yields nothing: every line at an even position is a directive,
   * so every location is swallowed.
   */
  lemma {:induction false} ExtendedM3UYieldsNothing(lines: seq<string>)
    requires forall i :: 0 <= i < |lines| && i % 2 == 0 ==> IsDirective(lines[i])
    ensures Urls(lines) == []
  {
    if |lines| >= 2 {
      var rest := lines[2..];
      forall i | 0 <= i < |rest| && i % 2 == 0
        ensures IsDirective(rest[i])
      {
        assert rest[i] == lines[i + 2];
      }
      ExtendedM3UYieldsNothing(rest);
    }
  }

  /**
   * An extended M3U file that opens with its #EXTM3U header yields only its
   * first location: the header swallows the first #EXTINF line, so the first
   * location is examined and kept, and every later location is swallowed by
   * the #EXTINF line before it.
   */
  lemma ExtendedM3UWithHeaderYieldsFirstOnly(header: string, extinf: string, first: string, rest: seq<string>)
    requires IsDirective(header) && IsDirective(extinf) && !IsDirective(first)
    requires forall i :: 0 <= i < |rest| && i % 2 == 0 ==> IsDirective(rest[i])
    ensures Urls([header, extinf, first] + rest) == [first]
  {
    var tail := [first] + rest;
    var lines := [header, extinf, first] + rest;
    assert lines == [] + [header, extinf] + tail;
    DirectiveSwallowsNext([], header, extinf, tail);
    assert Urls(lines) == Urls(tail);
    PlainPrefix([first], rest);
    ExtendedM3UYieldsNothing(rest);
    assert Urls(tail) == [first] + [];
  }

  /** A file made only of directive lines yields an empty result. */
  lemma OnlyDirectivesYieldNothing(lines: seq<string>)
    requires forall i :: 0 <= i < |lines| ==> IsDirective(lines[i])
    ensures Urls(lines) == []
  {
    ExtendedM3UYieldsNothing(lines);
  }
}
