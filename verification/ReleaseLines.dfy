/**
 * The current release of every line among rows of many lines (currentAmong, src/db/releases.ts). The
 * final sort by release time is left out: the result is by line.
 */
module ReleaseLines {
  import opened Wrappers
  import opened ReleaseChain

  /** A row with the key of its line. */
  datatype Release = Release(line: string, row: Row)

  /** One line's rows, in the order they are listed among all. */
  function OfLine(releases: seq<Release>, line: string): seq<Row> {
    if releases == [] then []
    else
      var last := releases[|releases| - 1];
      OfLine(releases[..|releases| - 1], line) + if last.line == line then [last.row] else []
  }

  ghost predicate Grouped(releases: seq<Release>, byLine: map<string, seq<Row>>) {
    forall line :: (if line in byLine then byLine[line] else []) == OfLine(releases, line)
  }

  lemma GroupedOneMore(releases: seq<Release>, i: nat, byLine: map<string, seq<Row>>)
    requires i < |releases| && Grouped(releases[..i], byLine)
    ensures var key := releases[i].line;
            Grouped(releases[..i + 1], byLine[key := (if key in byLine then byLine[key] else []) + [releases[i].row]])
  {
    assert releases[..i + 1][..i] == releases[..i];
  }

  method ByLine(releases: seq<Release>) returns (byLine: map<string, seq<Row>>)
    ensures Grouped(releases, byLine)
  {
    byLine := map[];
    for i := 0 to |releases|
      invariant Grouped(releases[..i], byLine)
    {
      GroupedOneMore(releases, i, byLine);
      var key := releases[i].line;
      byLine := byLine[key := (if key in byLine then byLine[key] else []) + [releases[i].row]];
    }
    assert releases[..|releases|] == releases;
  }

  /** What the public sees of a line: nothing if all its rows are withdrawn, or it has none. */
  function CurrentIn(releases: seq<Release>, line: string): Option<Row> {
    CurrentOf(ChainOrder(OfLine(releases, line)))
  }

  method CurrentAmong(releases: seq<Release>) returns (current: map<string, Row>)
    ensures forall line :: (if line in current then Some(current[line]) else None) == CurrentIn(releases, line)
  {
    var byLine := ByLine(releases);
    current := map[];
    var left := byLine.Keys;
    while left != {}
      invariant left <= byLine.Keys
      invariant forall line :: line in current ==> line in byLine && line !in left
      invariant forall line :: line in byLine && line !in left ==>
                  (if line in current then Some(current[line]) else None) == CurrentOf(ChainOrder(byLine[line]))
      decreases left
    {
      var line :| line in left;
      left := left - {line};
      var ordered := ChainOrderOf(byLine[line]);
      var row := CurrentOf(ordered);
      if row.Some? {
        current := current[line := row.value];
      }
    }
    forall line
      ensures (if line in current then Some(current[line]) else None) == CurrentIn(releases, line)
    {
      if line !in byLine {
        assert OfLine(releases, line) == [];
        assert ChainOrder([]) == [];
      }
    }
  }

  /** Each line shows the newest of its own rows not withdrawn, however other lines' rows lie between. */
  lemma EachLineShowsItsNewest(releases: seq<Release>, line: string, order: seq<Row>, k: nat)
    requires Chained(order) && Holds(OfLine(releases, line), order) && NewestKept(order, k)
    ensures CurrentIn(releases, line) == Some(order[k])
  {
    ChainOrderIsNewestFirst(OfLine(releases, line), order);
    CurrentIsNewestKept(order, k);
  }

  /** A row written to one line changes nothing another line shows. */
  lemma LinesDoNotMix(releases: seq<Release>, more: Release, line: string)
    requires more.line != line
    ensures CurrentIn(releases + [more], line) == CurrentIn(releases, line)
  {
    assert (releases + [more])[..|releases|] == releases;
    assert OfLine(releases, line) + [] == OfLine(releases, line);
  }
}
