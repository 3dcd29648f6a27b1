/** How one file's lines and symbols are cut into overlapping chunks. */
module Windows {

  const CHUNK_SIZE: nat := 50
  const CHUNK_OVERLAP: nat := 5

  datatype Symbol = Symbol(name: string, kind: string, line: int, children: seq<Symbol>)

  /** A chunk before it is stored; its text is kept as the lines it joins. */
  datatype Chunk = Chunk(startLine: nat, endLine: nat, lines: seq<string>, symbols: seq<Symbol>, totalLines: nat)

  function Min(a: nat, b: nat): nat { if a < b then a else b }

  // ----- symbols -----

  function SymbolsInRange(symbols: seq<Symbol>, first: int, last: int): seq<Symbol>
    decreases symbols
  {
    if symbols == [] then []
    else
      var inner := SymbolsInRange(symbols[0].children, first, last);
      (if first <= symbols[0].line <= last then [symbols[0].(children := inner)] else inner)
      + SymbolsInRange(symbols[1..], first, last)
  }

  datatype SymbolLine = SymbolLine(name: string, kind: string, line: int)

  /** Every symbol of a forest, parents before children. */
  function Flatten(symbols: seq<Symbol>): seq<SymbolLine>
    decreases symbols
  {
    if symbols == [] then []
    else [SymbolLine(symbols[0].name, symbols[0].kind, symbols[0].line)] + Flatten(symbols[0].children) + Flatten(symbols[1..])
  }

  function Within(entries: seq<SymbolLine>, first: int, last: int): seq<SymbolLine> {
    if entries == [] then []
    else (if first <= entries[0].line <= last then [entries[0]] else []) + Within(entries[1..], first, last)
  }

  lemma {:induction false} FlattenAppend(a: seq<Symbol>, b: seq<Symbol>)
    ensures Flatten(a + b) == Flatten(a) + Flatten(b)
    decreases |a|
  {
    if a == [] {
      assert a + b == b;
    } else {
      assert (a + b)[1..] == a[1..] + b;
      FlattenAppend(a[1..], b);
    }
  }

  lemma {:induction false} WithinAppend(a: seq<SymbolLine>, b: seq<SymbolLine>, first: int, last: int)
    ensures Within(a + b, first, last) == Within(a, first, last) + Within(b, first, last)
    decreases |a|
  {
    if a == [] {
      assert a + b == b;
    } else {
      assert (a + b)[1..] == a[1..] + b;
      WithinAppend(a[1..], b, first, last);
    }
  }

  /** Cutting the tree keeps exactly the symbols on the window's lines, in their order. */
  lemma {:induction false} RangeKeepsOrder(symbols: seq<Symbol>, first: int, last: int)
    ensures Flatten(SymbolsInRange(symbols, first, last)) == Within(Flatten(symbols), first, last)
    decreases symbols
  {
    if symbols != [] {
      var s := symbols[0];
      var inner, rest := SymbolsInRange(s.children, first, last), SymbolsInRange(symbols[1..], first, last);
      RangeKeepsOrder(s.children, first, last);
      RangeKeepsOrder(symbols[1..], first, last);
      var e := SymbolLine(s.name, s.kind, s.line);
      WithinAppend([e] + Flatten(s.children), Flatten(symbols[1..]), first, last);
      var head := if first <= s.line <= last then [s.(children := inner)] else inner;
      assert Flatten(head) == Within([e] + Flatten(s.children), first, last) by {
        WithinAppend([e], Flatten(s.children), first, last);
        assert Within([e], first, last) == if first <= s.line <= last then [e] else [];
      }
      FlattenAppend(head, rest);
    }
  }

  lemma {:induction false} WithinCount(entries: seq<SymbolLine>, first: int, last: int, e: SymbolLine)
    ensures multiset(Within(entries, first, last))[e] == if first <= e.line <= last then multiset(entries)[e] else 0
    decreases |entries|
  {
    if entries != [] {
      WithinCount(entries[1..], first, last, e);
      assert entries == [entries[0]] + entries[1..];
    }
  }

  /** A symbol and the ancestors it hangs under, outermost first. */
  datatype Placed = Placed(above: seq<SymbolLine>, entry: SymbolLine)

  /** Every symbol of a forest with its ancestors, where the forest itself hangs under `above`. */
  function Places(symbols: seq<Symbol>, above: seq<SymbolLine>): seq<Placed>
    decreases symbols
  {
    if symbols == [] then []
    else
      var e := SymbolLine(symbols[0].name, symbols[0].kind, symbols[0].line);
      [Placed(above, e)] + Places(symbols[0].children, above + [e]) + Places(symbols[1..], above)
  }

  /** The symbols on the lines, each under those of its ancestors that are on the lines too. */
  function PlacesWithin(places: seq<Placed>, first: int, last: int): seq<Placed> {
    if places == [] then []
    else
      (if first <= places[0].entry.line <= last then [Placed(Within(places[0].above, first, last), places[0].entry)] else [])
      + PlacesWithin(places[1..], first, last)
  }

  lemma {:induction false} PlacesAppend(a: seq<Symbol>, b: seq<Symbol>, above: seq<SymbolLine>)
    ensures Places(a + b, above) == Places(a, above) + Places(b, above)
    decreases |a|
  {
    if a == [] {
      assert a + b == b;
    } else {
      assert (a + b)[1..] == a[1..] + b;
      PlacesAppend(a[1..], b, above);
    }
  }

  lemma {:induction false} PlacesWithinAppend(a: seq<Placed>, b: seq<Placed>, first: int, last: int)
    ensures PlacesWithin(a + b, first, last) == PlacesWithin(a, first, last) + PlacesWithin(b, first, last)
    decreases |a|
  {
    if a == [] {
      assert a + b == b;
    } else {
      assert (a + b)[1..] == a[1..] + b;
      PlacesWithinAppend(a[1..], b, first, last);
    }
  }

  /**
    The cut keeps the nesting: a symbol of the window hangs under exactly those of its ancestors
    that are on the window's lines too, in the same order, and under nothing else.
  */
  lemma {:induction false} RangeKeepsNesting(symbols: seq<Symbol>, above: seq<SymbolLine>, first: int, last: int)
    ensures Places(SymbolsInRange(symbols, first, last), Within(above, first, last))
         == PlacesWithin(Places(symbols, above), first, last)
    decreases symbols
  {
    if symbols != [] {
      var s, rest := symbols[0], symbols[1..];
      var e := SymbolLine(s.name, s.kind, s.line);
      RangeKeepsNesting(s.children, above + [e], first, last);
      RangeKeepsNesting(rest, above, first, last);
      TreeKeepsNesting(s, above, first, last);
      var head := InRange(s, first, last);
      assert SymbolsInRange(symbols, first, last) == head + SymbolsInRange(rest, first, last);
      var tree := [Placed(above, e)] + Places(s.children, above + [e]);
      assert Places(symbols, above) == tree + Places(rest, above);
      hide Places, PlacesWithin, SymbolsInRange, Within;
      PlacesAppend(head, SymbolsInRange(rest, first, last), Within(above, first, last));
      PlacesWithinAppend(tree, Places(rest, above), first, last);
    }
  }

  /** What the cut makes of one tree: the tree if its root is on the lines, what is left of its children if not. */
  function InRange(s: Symbol, first: int, last: int): seq<Symbol> {
    var inner := SymbolsInRange(s.children, first, last);
    if first <= s.line <= last then [s.(children := inner)] else inner
  }

  lemma TreeKeepsNesting(s: Symbol, above: seq<SymbolLine>, first: int, last: int)
    requires var e := SymbolLine(s.name, s.kind, s.line);
             Places(SymbolsInRange(s.children, first, last), Within(above + [e], first, last))
             == PlacesWithin(Places(s.children, above + [e]), first, last)
    ensures var e := SymbolLine(s.name, s.kind, s.line);
            Places(InRange(s, first, last), Within(above, first, last))
            == PlacesWithin([Placed(above, e)] + Places(s.children, above + [e]), first, last)
  {
    var e := SymbolLine(s.name, s.kind, s.line);
    var below := Places(s.children, above + [e]);
    assert ([Placed(above, e)] + below)[1..] == below;
    OneWithin(above, e, first, last);
    if first <= s.line <= last {
      RootPlaces(s.(children := SymbolsInRange(s.children, first, last)), Within(above, first, last));
    } else {
      assert Within(above, first, last) + [] == Within(above, first, last);
    }
  }

  lemma OneWithin(above: seq<SymbolLine>, e: SymbolLine, first: int, last: int)
    ensures Within(above + [e], first, last) == Within(above, first, last) + if first <= e.line <= last then [e] else []
  {
    WithinAppend(above, [e], first, last);
    assert [e][1..] == [];
    assert Within([e][1..], first, last) == [];
  }

  lemma RootPlaces(s: Symbol, above: seq<SymbolLine>)
    ensures var e := SymbolLine(s.name, s.kind, s.line); Places([s], above) == [Placed(above, e)] + Places(s.children, above + [e])
  {
    assert [s][1..] == [];
    assert Places([s][1..], above) == [];
  }

  // ----- windows -----

  function WindowCount(total: nat): nat { (total + CHUNK_SIZE - 1) / CHUNK_SIZE }

  function WindowEnd(total: nat, k: nat): nat { Min(CHUNK_SIZE * k + CHUNK_SIZE + CHUNK_OVERLAP, total) }

  function WindowAt(lines: seq<string>, symbols: seq<Symbol>, k: nat): Chunk
    requires k < WindowCount(|lines|)
  {
    var first, end := CHUNK_SIZE * k, WindowEnd(|lines|, k);
    Chunk(first + 1, end, lines[first..end], SymbolsInRange(symbols, first + 1, end), |lines|)
  }

  function FileChunks(lines: seq<string>, symbols: seq<Symbol>): (r: seq<Chunk>)
    ensures |r| == WindowCount(|lines|)
    ensures forall k :: 0 <= k < |r| ==> r[k] == WindowAt(lines, symbols, k)
  {
    seq(WindowCount(|lines|), k requires 0 <= k < WindowCount(|lines|) => WindowAt(lines, symbols, k))
  }

  /** The lines a chunk adds to those before it. */
  function Own(c: Chunk): seq<string> { c.lines[..Min(CHUNK_SIZE, |c.lines|)] }

  function Concat(chunks: seq<Chunk>): seq<string> {
    if chunks == [] then [] else Concat(chunks[..|chunks| - 1]) + Own(chunks[|chunks| - 1])
  }

  lemma OwnLines(lines: seq<string>, symbols: seq<Symbol>, k: nat)
    requires k < WindowCount(|lines|)
    ensures CHUNK_SIZE * k <= Min(CHUNK_SIZE * (k + 1), |lines|)
    ensures Own(WindowAt(lines, symbols, k)) == lines[CHUNK_SIZE * k..Min(CHUNK_SIZE * (k + 1), |lines|)]
  {
    var first, end, next := CHUNK_SIZE * k, WindowEnd(|lines|, k), Min(CHUNK_SIZE * (k + 1), |lines|);
    assert lines[first..end][..next - first] == lines[first..next];
  }

  lemma {:induction false} ConcatPrefix(lines: seq<string>, symbols: seq<Symbol>, k: nat)
    requires k <= WindowCount(|lines|)
    ensures Concat(FileChunks(lines, symbols)[..k]) == lines[..Min(CHUNK_SIZE * k, |lines|)]
    decreases k
  {
    var chunks := FileChunks(lines, symbols);
    if k > 0 {
      ConcatPrefix(lines, symbols, k - 1);
      assert chunks[..k][..k - 1] == chunks[..k - 1];
      OwnLines(lines, symbols, k - 1);
      var first, next := CHUNK_SIZE * (k - 1), Min(CHUNK_SIZE * k, |lines|);
      assert lines[..first] + lines[first..next] == lines[..next];
    }
  }

  /** The chunks less their overlaps are the file, line for line. */
  lemma ChunksTileFile(lines: seq<string>, symbols: seq<Symbol>)
    ensures Concat(FileChunks(lines, symbols)) == lines
  {
    var n := WindowCount(|lines|);
    ConcatPrefix(lines, symbols, n);
    assert FileChunks(lines, symbols)[..n] == FileChunks(lines, symbols);
    assert lines[..|lines|] == lines;
  }

  /**
    A chunk says truly where it is: its lines are the file's lines of the numbers it gives, the
    first starts at line 1, the next starts fifty lines on, and the last ends with the file.
  */
  lemma ChunksAreWhereTheySay(lines: seq<string>, symbols: seq<Symbol>, k: nat)
    requires k < WindowCount(|lines|)
    ensures var chunks := FileChunks(lines, symbols); var c := chunks[k];
            && 1 <= c.startLine <= c.endLine <= c.totalLines == |lines| && |c.lines| == c.endLine - c.startLine + 1
            && (forall i :: 0 <= i < |c.lines| ==> c.lines[i] == lines[c.startLine + i - 1])
            && chunks[0].startLine == 1 && (k > 0 ==> c.startLine == chunks[k - 1].startLine + 50)
            && (c.endLine == |lines| || c.endLine == c.startLine + 54) && (k == |chunks| - 1 ==> c.endLine == |lines|)
  {
    var first, end := CHUNK_SIZE * k, WindowEnd(|lines|, k);
    assert first < |lines|;
    forall i | 0 <= i < end - first ensures lines[first..end][i] == lines[first + i] {}
  }

  /** Neighbours share the first lines of the later one: five of them, or what is left of the file. */
  lemma NeighboursOverlap(lines: seq<string>, symbols: seq<Symbol>, k: nat)
    requires k + 1 < WindowCount(|lines|)
    ensures var a, b := FileChunks(lines, symbols)[k], FileChunks(lines, symbols)[k + 1];
            var shared := Min(CHUNK_OVERLAP, |lines| - CHUNK_SIZE * (k + 1));
            && a.endLine - b.startLine + 1 == shared > 0
            && |a.lines| == CHUNK_SIZE + shared && shared <= |b.lines|
            && a.lines[CHUNK_SIZE..] == b.lines[..shared]
  {
    var a, b := FileChunks(lines, symbols)[k], FileChunks(lines, symbols)[k + 1];
    var mid := CHUNK_SIZE * (k + 1);
    assert mid < |lines|;
    var end := WindowEnd(|lines|, k);
    assert end == mid + Min(CHUNK_OVERLAP, |lines| - mid);
    assert a.lines[CHUNK_SIZE..] == lines[mid..end];
    assert b.lines[..end - mid] == lines[mid..end];
  }

  predicate InWindow(total: nat, line: int, k: nat) { CHUNK_SIZE * k + 1 <= line <= WindowEnd(total, k) }

  /** A real line lies in its own window and, if among the first five of it, in the one before: nowhere else. */
  lemma LineInOneOrTwo(total: nat, line: int, k: nat)
    requires 1 <= line <= total && k < WindowCount(total)
    ensures InWindow(total, line, k) <==>
      k == (line - 1) / CHUNK_SIZE || (k + 1 == (line - 1) / CHUNK_SIZE && (line - 1) % CHUNK_SIZE < CHUNK_OVERLAP)
    ensures (line - 1) / CHUNK_SIZE < WindowCount(total)
  {
  }

  /**
    A symbol on a real line turns up in the chunk of its own window, in the one before if it is
    among the first five lines, and in no other, as often as the file has it.
  */
  lemma SymbolInOneOrTwo(lines: seq<string>, symbols: seq<Symbol>, e: SymbolLine, k: nat)
    requires 1 <= e.line <= |lines| && k < WindowCount(|lines|)
    ensures var own := (e.line - 1) / CHUNK_SIZE;
            && own < WindowCount(|lines|)
            && multiset(Flatten(FileChunks(lines, symbols)[k].symbols))[e]
               == if k == own || (k + 1 == own && (e.line - 1) % CHUNK_SIZE < CHUNK_OVERLAP) then multiset(Flatten(symbols))[e] else 0
  {
    LineInOneOrTwo(|lines|, e.line, k);
    var c := FileChunks(lines, symbols)[k];
    RangeKeepsOrder(symbols, c.startLine, c.endLine);
    WithinCount(Flatten(symbols), c.startLine, c.endLine, e);
  }
}
