/** Reading a JSONL file from its end, and the early-stopping range scan
    (core/_conversation_store_cache.py). */
module JsonlReader {
  import opened Basics

  newtype Byte = x: int | 0 <= x < 256

  const NEWLINE: Byte := 10

  /** The lines of a file, as splitting on newlines gives them. */
  function Split(s: seq<Byte>): (lines: seq<seq<Byte>>)
    ensures lines != []
  {
    if s == [] then [[]]
    else
      var rest := Split(s[1..]);
      if s[0] == NEWLINE then [[]] + rest else [[s[0]] + rest[0]] + rest[1..]
  }

  /** The lines with a newline between each two. */
  function Joined(lines: seq<seq<Byte>>): seq<Byte>
    decreases |lines|
  {
    if lines == [] then [] else if |lines| == 1 then lines[0]
    else Joined(lines[..|lines| - 1]) + [10] + lines[|lines| - 1]
  }

  lemma {:induction false} JoinedFront(first: seq<Byte>, lines: seq<seq<Byte>>)
    requires lines != []
    ensures Joined([first] + lines) == first + [10] + Joined(lines)
    decreases |lines|
  {
    var n := |lines| - 1;
    assert ([first] + lines)[..|lines|] == [first] + lines[..n];
    if n == 0 {
      assert [first] + lines[..0] == [first] && lines == [lines[0]];
    } else {
      JoinedFront(first, lines[..n]);
    }
  }

  lemma {:induction false} JoinedByte(c: Byte, lines: seq<seq<Byte>>)
    requires lines != []
    ensures Joined([[c] + lines[0]] + lines[1..]) == [c] + Joined(lines)
  {
    if |lines| == 1 {
      assert lines == [lines[0]];
    } else {
      JoinedFront([c] + lines[0], lines[1..]);
      JoinedFront(lines[0], lines[1..]);
      assert [lines[0]] + lines[1..] == lines;
    }
  }

  /** The lines of a file are free of newlines, and with newlines between them they are the file. */
  lemma {:induction false} SplitLaw(s: seq<Byte>)
    ensures Joined(Split(s)) == s
    ensures forall i :: 0 <= i < |Split(s)| ==> 10 !in Split(s)[i]
  {
    if s != [] {
      SplitLaw(s[1..]);
      if s[0] == NEWLINE { JoinedFront([], Split(s[1..])); } else { JoinedByte(s[0], Split(s[1..])); }
    }
  }

  /** The rows of the lines that parse; a blank or malformed line parses to nothing. */
  function Parsed<T>(lines: seq<seq<Byte>>, parse: seq<Byte> -> Option<T>): seq<T> {
    if lines == [] then []
    else (match parse(lines[0]) case Some(row) => [row] case None => []) + Parsed(lines[1..], parse)
  }

  function Reversed<T>(s: seq<T>): (r: seq<T>)
    ensures |r| == |s| && forall i :: 0 <= i < |s| ==> r[i] == s[|s| - 1 - i]
  {
    if s == [] then [] else Reversed(s[1..]) + [s[0]]
  }

  /** Two runs of lines whose meeting lines are one. */
  function Glued(x: seq<seq<Byte>>, y: seq<seq<Byte>>): seq<seq<Byte>>
    requires x != [] && y != []
  {
    x[..|x| - 1] + [x[|x| - 1] + y[0]] + y[1..]
  }

  lemma GluedLine(x: seq<seq<Byte>>, y: seq<seq<Byte>>)
    requires x != [] && y != []
    ensures Glued([[]] + x, y) == [[]] + Glued(x, y)
  {
    assert ([[]] + x)[..|x|] == [[]] + x[..|x| - 1];
  }

  lemma GluedByte(c: Byte, x: seq<seq<Byte>>, y: seq<seq<Byte>>)
    requires x != [] && y != []
    ensures var g := Glued(x, y); Glued([[c] + x[0]] + x[1..], y) == [[c] + g[0]] + g[1..]
  {
    var g := Glued(x, y);
    var longer := [[c] + x[0]] + x[1..];
    if |x| == 1 {
      assert [c] + (x[0] + y[0]) == ([c] + x[0]) + y[0];
      assert longer == [[c] + x[0]];
    } else {
      assert longer[..|x| - 1] == [[c] + x[0]] + x[1..|x| - 1];
      assert g[1..] == x[1..|x| - 1] + [x[|x| - 1] + y[0]] + y[1..];
    }
  }

  /** Splitting a file in two cuts at most one line. */
  lemma {:induction false} SplitTwo(a: seq<Byte>, b: seq<Byte>)
    ensures Split(a + b) == Glued(Split(a), Split(b))
  {
    if a == [] {
      assert a + b == b && [] + Split(b)[0] == Split(b)[0];
    } else {
      SplitTwo(a[1..], b);
      assert (a + b)[1..] == a[1..] + b && (a + b)[0] == a[0];
      hide Glued;
      GluedLine(Split(a[1..]), Split(b));
      GluedByte(a[0], Split(a[1..]), Split(b));
    }
  }

  /** A line has no newline in it. */
  lemma {:induction false} FirstLine(s: seq<Byte>)
    ensures Split(Split(s)[0]) == [Split(s)[0]]
  {
    if s != [] && s[0] != NEWLINE {
      FirstLine(s[1..]);
      var line := Split(s[1..])[0];
      assert ([s[0]] + line)[1..] == line;
    }
  }

  /** What stays in front of a chunk keeps its first line. */
  lemma SplitChunk(front: seq<Byte>, chunk: seq<Byte>)
    ensures Split(front + chunk) == Split(front + Split(chunk)[0]) + Split(chunk)[1..]
  {
    SplitTwo(front, chunk);
    SplitTwo(front, Split(chunk)[0]);
    FirstLine(chunk);
  }

  lemma {:induction false} ParsedTwo<T>(a: seq<seq<Byte>>, b: seq<seq<Byte>>, parse: seq<Byte> -> Option<T>)
    ensures Parsed(a + b, parse) == Parsed(a, parse) + Parsed(b, parse)
  {
    if a == [] {
      assert a + b == b;
    } else {
      var first := match parse(a[0]) case Some(row) => [row] case None => [];
      ParsedTwo(a[1..], b, parse);
      assert (a + b)[1..] == a[1..] + b;
      assert Parsed(a + b, parse) == first + (Parsed(a[1..], parse) + Parsed(b, parse));
    }
  }

  lemma ReversedTwo<T>(a: seq<T>, b: seq<T>)
    ensures Reversed(a + b) == Reversed(b) + Reversed(a)
  {
  }

  /** Everything still to come once the file is read down to `front` with `buffer` in hand. */
  function Rest<T>(front: seq<Byte>, buffer: seq<Byte>, parse: seq<Byte> -> Option<T>): seq<T> {
    Reversed(Parsed(Split(front + buffer), parse))
  }

  lemma ChunkRest<T>(front: seq<Byte>, chunk: seq<Byte>, parse: seq<Byte> -> Option<T>)
    ensures var lines := Split(chunk);
            Rest(front, chunk, parse) == Reversed(Parsed(lines[1..], parse)) + Rest(front, lines[0], parse)
  {
    var lines := Split(chunk);
    SplitChunk(front, chunk);
    ParsedTwo(Split(front + lines[0]), lines[1..], parse);
    ReversedTwo(Parsed(Split(front + lines[0]), parse), Parsed(lines[1..], parse));
  }

  /** Read the file backwards in chunks: for every chunk size the rows are exactly the reverse of
      parsing the lines from the front. */
  method ReadReverse<T>(file: seq<Byte>, chunkSize: nat, parse: seq<Byte> -> Option<T>) returns (rows: seq<T>)
    requires chunkSize >= 1
    ensures rows == Reversed(Parsed(Split(file), parse))
  {
    hide Rest, Split, Parsed, Reversed;
    rows := [];
    var pos := |file|;
    var buffer: seq<Byte> := [];
    StartRest(file, parse);
    while pos > 0
      invariant 0 <= pos <= |file|
      invariant rows + Rest(file[..pos], buffer, parse) == Rest(file, [], parse)
      invariant Split(buffer) == [buffer]
    {
      var n := if chunkSize < pos then chunkSize else pos;
      pos := pos - n;
      var chunk := file[pos..pos + n] + buffer;
      FrontChunk(file, pos, n, buffer, parse);
      ChunkRest(file[..pos], chunk, parse);
      FirstLine(chunk);
      var lines := Split(chunk);
      buffer := lines[0];
      var more := ParseBackwards(lines[1..], parse);
      assert rows + (more + Rest(file[..pos], buffer, parse)) == (rows + more) + Rest(file[..pos], buffer, parse);
      rows := rows + more;
    }
    LastRest(file, pos, buffer, parse);
    match parse(buffer) {
      case Some(row) => rows := rows + [row];
      case None => assert rows + [] == rows;
    }
  }

  lemma StartRest<T>(file: seq<Byte>, parse: seq<Byte> -> Option<T>)
    ensures [] + Rest(file[..|file|], [], parse) == Rest(file, [], parse) == Reversed(Parsed(Split(file), parse))
    ensures Split([]) == [[]]
  {
    assert file[..|file|] == file && file + [] == file;
  }

  lemma FrontChunk<T>(file: seq<Byte>, pos: nat, n: nat, buffer: seq<Byte>, parse: seq<Byte> -> Option<T>)
    requires pos + n <= |file|
    ensures Rest(file[..pos + n], buffer, parse) == Rest(file[..pos], file[pos..pos + n] + buffer, parse)
  {
    assert file[..pos + n] + buffer == file[..pos] + (file[pos..pos + n] + buffer);
  }

  lemma LastRest<T>(file: seq<Byte>, pos: nat, buffer: seq<Byte>, parse: seq<Byte> -> Option<T>)
    requires pos == 0 && Split(buffer) == [buffer]
    ensures Rest(file[..pos], buffer, parse) == match parse(buffer) case Some(row) => [row] case None => []
  {
    assert file[..0] + buffer == buffer;
    assert [buffer][1..] == [];
    var only := match parse(buffer) case Some(row) => [row] case None => [];
    assert Parsed([buffer], parse) == only + Parsed([], parse) == only;
  }

  method ParseBackwards<T>(lines: seq<seq<Byte>>, parse: seq<Byte> -> Option<T>) returns (rows: seq<T>)
    ensures rows == Reversed(Parsed(lines, parse))
  {
    rows := [];
    var i := |lines|;
    while i > 0
      invariant 0 <= i <= |lines|
      invariant rows == Reversed(Parsed(lines[i..], parse))
    {
      i := i - 1;
      assert lines[i..][1..] == lines[i + 1..] && lines[i..][0] == lines[i];
      var rest := Parsed(lines[i + 1..], parse);
      match parse(lines[i]) {
        case Some(row) => ReversedTwo([row], rest); rows := rows + [row];
        case None => assert [] + rest == rest;
      }
    }
    assert lines[0..] == lines;
  }

  // ---- the range scan ----

  datatype Line = Line(number: nat, payload: Id)

  function InRange(lines: seq<Line>, first: int, last: int): seq<Line> {
    if lines == [] then []
    else
      var n := |lines| - 1;
      InRange(lines[..n], first, last) + if first <= lines[n].number <= last then [lines[n]] else []
  }

  /** One past the last line numbered below the range. */
  function AfterLow(lines: seq<Line>, first: int): (k: nat)
    ensures k <= |lines|
    ensures forall i :: k <= i < |lines| ==> lines[i].number >= first
    ensures k > 0 ==> lines[k - 1].number < first
  {
    if lines == [] then 0
    else if lines[|lines| - 1].number < first then |lines| else AfterLow(lines[..|lines| - 1], first)
  }

  /** Scan from the end and stop at the first line below the range. */
  method LoadRange(lines: seq<Line>, first: int, last: int) returns (rows: seq<Line>)
    ensures rows == if first <= 0 || last < first then [] else InRange(lines[AfterLow(lines, first)..], first, last)
    ensures Sorted(lines) && 0 < first <= last ==> rows == InRange(lines, first, last)
  {
    rows := [];
    if first <= 0 || last < first { return; }
    var i := |lines|;
    while i > 0
      invariant 0 <= i <= |lines|
      invariant forall j :: i <= j < |lines| ==> lines[j].number >= first
      invariant Reversed(rows) == InRange(lines[i..], first, last)
    {
      if lines[i - 1].number <= last {
        if lines[i - 1].number < first { break; }
        ReversedTwo(rows, [lines[i - 1]]);
        rows := rows + [lines[i - 1]];
      }
      RangeFront(lines, i - 1, first, last);
      i := i - 1;
    }
    AfterLowIs(lines, first, i);
    rows := Reversed(rows);
    if Sorted(lines) { SortedRange(lines, first, last); }
  }

  lemma {:induction false} AfterLowIs(lines: seq<Line>, first: int, k: nat)
    requires k <= |lines| && (forall j :: k <= j < |lines| ==> lines[j].number >= first)
    requires k > 0 ==> lines[k - 1].number < first
    ensures AfterLow(lines, first) == k
  {
    if k < |lines| { AfterLowIs(lines[..|lines| - 1], first, k); }
  }

  predicate Sorted(lines: seq<Line>) {
    forall i, j :: 0 <= i < j < |lines| ==> lines[i].number <= lines[j].number
  }

  lemma {:induction false} RangeTwo(a: seq<Line>, b: seq<Line>, first: int, last: int)
    ensures InRange(a + b, first, last) == InRange(a, first, last) + InRange(b, first, last)
    decreases |b|
  {
    if b == [] {
      assert a + b == a;
    } else {
      assert (a + b)[..|a + b| - 1] == a + b[..|b| - 1];
      RangeTwo(a, b[..|b| - 1], first, last);
    }
  }

  lemma RangeFront(lines: seq<Line>, i: nat, first: int, last: int)
    requires i < |lines| && lines[i].number >= first
    ensures InRange(lines[i..], first, last)
            == (if lines[i].number <= last then [lines[i]] else []) + InRange(lines[i + 1..], first, last)
  {
    assert lines[i..] == [lines[i]] + lines[i + 1..];
    RangeTwo([lines[i]], lines[i + 1..], first, last);
    assert [lines[i]][..0] == [];
  }

  lemma {:induction false} NoneInRange(lines: seq<Line>, first: int, last: int)
    ensures InRange(lines, first, last) == [] <==> forall i :: 0 <= i < |lines| ==> !(first <= lines[i].number <= last)
    decreases |lines|
  {
    if lines != [] {
      var n := |lines| - 1;
      NoneInRange(lines[..n], first, last);
      assert forall i :: 0 <= i < n ==> lines[..n][i] == lines[i];
    }
  }

  lemma SortedRange(lines: seq<Line>, first: int, last: int)
    requires Sorted(lines)
    ensures InRange(lines[AfterLow(lines, first)..], first, last) == InRange(lines, first, last)
  {
    var k := AfterLow(lines, first);
    assert lines == lines[..k] + lines[k..];
    RangeTwo(lines[..k], lines[k..], first, last);
    NoneInRange(lines[..k], first, last);
  }

  /** For any numbering, stopping early loses nothing exactly when no line of the range stands before
      the last line below it. */
  lemma EarlyStopExact(lines: seq<Line>, first: int, last: int)
    ensures InRange(lines[AfterLow(lines, first)..], first, last) == InRange(lines, first, last)
            <==> forall i :: 0 <= i < AfterLow(lines, first) ==> !(first <= lines[i].number <= last)
  {
    var k := AfterLow(lines, first);
    assert lines == lines[..k] + lines[k..];
    RangeTwo(lines[..k], lines[k..], first, last);
    NoneInRange(lines[..k], first, last);
    var low, high := InRange(lines[..k], first, last), InRange(lines[k..], first, last);
    assert |low + high| == |low| + |high|;
    assert forall i :: 0 <= i < k ==> lines[..k][i] == lines[i];
  }
}
