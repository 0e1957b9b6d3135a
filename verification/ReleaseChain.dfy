/**
 * An append-only line of releases: chainOrder (src/db/release-chain.ts) and the statements that
 * write its rows (src/db/releases.ts) under the unique constraint of src/db/schema.ts.
 */
module ReleaseChain {
  import opened Wrappers

  datatype Row = Row(id: string, predecessor: Option<string>, withdrawnAt: Option<int>)

  /** `row.predecessorId ?? ""`. */
  function Key(row: Row): string {
    if row.predecessor.Some? then row.predecessor.value else ""
  }

  // ---- chainOrder ----

  /** Rows by what they were written after; the last listed wins. */
  function NextMap(rows: seq<Row>): map<string, Row> {
    if rows == [] then map[] else NextMap(rows[..|rows| - 1])[Key(rows[|rows| - 1]) := rows[|rows| - 1]]
  }

  /** At most `n` rows from the one written after `at` on, oldest first. */
  function Walk(next: map<string, Row>, at: string, n: nat): seq<Row>
    decreases n
  {
    if n == 0 || at !in next then [] else [next[at]] + Walk(next, next[at].id, n - 1)
  }

  function Reversed(rows: seq<Row>): (reversed: seq<Row>)
    ensures |reversed| == |rows|
    ensures forall i :: 0 <= i < |rows| ==> reversed[i] == rows[|rows| - 1 - i]
  {
    if rows == [] then [] else Reversed(rows[1..]) + [rows[0]]
  }

  function Ids(rows: seq<Row>): set<string> {
    set i | 0 <= i < |rows| :: rows[i].id
  }

  /** The rows whose id is not among `ids`, in their order. */
  function Strays(rows: seq<Row>, ids: set<string>): seq<Row> {
    if rows == [] then []
    else Strays(rows[..|rows| - 1], ids) + (if rows[|rows| - 1].id in ids then [] else [rows[|rows| - 1]])
  }

  function ChainOrder(rows: seq<Row>): seq<Row> {
    var chain := Walk(NextMap(rows), "", |rows|);
    Reversed(chain) + Strays(rows, Ids(chain))
  }

  method MapNext(rows: seq<Row>) returns (next: map<string, Row>)
    ensures next == NextMap(rows)
  {
    next := map[];
    var i := 0;
    while i < |rows|
      invariant 0 <= i <= |rows| && next == NextMap(rows[..i])
    {
      assert rows[..i + 1][..i] == rows[..i];
      next := next[Key(rows[i]) := rows[i]];
      i := i + 1;
    }
    assert rows[..i] == rows;
  }

  method WalkFrom(next: map<string, Row>, n: nat) returns (chain: seq<Row>)
    ensures chain == Walk(next, "", n)
  {
    chain := [];
    var at := "";
    while at in next && |chain| < n
      invariant |chain| <= n
      invariant Walk(next, "", n) == chain + Walk(next, at, n - |chain|)
      decreases n - |chain|
    {
      chain := chain + [next[at]];
      at := next[at].id;
    }
    assert Walk(next, at, n - |chain|) == [];
  }

  method NotOn(onChain: set<string>, rows: seq<Row>) returns (strays: seq<Row>)
    ensures strays == Strays(rows, onChain)
  {
    strays := [];
    var i := 0;
    while i < |rows|
      invariant 0 <= i <= |rows| && strays == Strays(rows[..i], onChain)
    {
      assert rows[..i + 1][..i] == rows[..i];
      if rows[i].id !in onChain { strays := strays + [rows[i]]; }
      i := i + 1;
    }
    assert rows[..i] == rows;
  }

  method ChainOrderOf(rows: seq<Row>) returns (ordered: seq<Row>)
    ensures ordered == ChainOrder(rows)
  {
    var next := MapNext(rows);
    var chain := WalkFrom(next, |rows|);
    var onChain := Ids(chain);
    var strays := NotOn(onChain, rows);
    ordered := Reversed(chain) + strays;
  }

  // ---- For arbitrary rows: a permutation ----

  /** Ids are unique and not empty. */
  predicate DistinctIds(rows: seq<Row>) {
    && (forall i :: 0 <= i < |rows| ==> rows[i].id != "")
    && (forall i, j :: 0 <= i < j < |rows| ==> rows[i].id != rows[j].id)
  }

  lemma {:induction false} NextMapHolds(rows: seq<Row>, key: string)
    ensures key in NextMap(rows) ==> NextMap(rows)[key] in rows && Key(NextMap(rows)[key]) == key
    ensures key in NextMap(rows) <==> exists i :: 0 <= i < |rows| && Key(rows[i]) == key
  {
    if rows != [] {
      var n := |rows| - 1;
      NextMapHolds(rows[..n], key);
      if Key(rows[n]) != key {
        assert forall i :: 0 <= i < n ==> rows[..n][i] == rows[i];
      }
    }
  }

  /** A walk goes from each row to one written after it. */
  lemma {:induction false} WalkLinks(rows: seq<Row>, at: string, n: nat)
    ensures var w := Walk(NextMap(rows), at, n);
            && |w| <= n
            && (forall i :: 0 <= i < |w| ==> w[i] in rows)
            && (|w| > 0 ==> Key(w[0]) == at)
            && (forall i :: 0 < i < |w| ==> Key(w[i]) == w[i - 1].id)
    decreases n
  {
    var next := NextMap(rows);
    if n > 0 && at in next {
      NextMapHolds(rows, at);
      WalkLinks(rows, next[at].id, n - 1);
      var w := Walk(next, at, n);
      assert w[1..] == Walk(next, next[at].id, n - 1);
      forall i | 0 < i < |w| ensures Key(w[i]) == w[i - 1].id {
        assert w[i] == w[1..][i - 1];
        if i > 1 {
          assert w[i - 1] == w[1..][i - 2];
        }
      }
    }
  }

  /** A walk from the start never meets a row twice: each row was written after only one. */
  lemma {:induction false} WalkNeverRepeats(rows: seq<Row>, n: nat, i: nat, j: nat)
    requires DistinctIds(rows)
    requires i < j < |Walk(NextMap(rows), "", n)|
    ensures Walk(NextMap(rows), "", n)[i].id != Walk(NextMap(rows), "", n)[j].id
    decreases i
  {
    var w := Walk(NextMap(rows), "", n);
    WalkLinks(rows, "", n);
    assert w[i] in rows && w[j] in rows && w[j - 1] in rows;
    if i > 0 {
      WalkNeverRepeats(rows, n, i - 1, j - 1);
    }
  }

  predicate NoRepeats(rows: seq<Row>) {
    forall i, j :: 0 <= i < j < |rows| ==> rows[i] != rows[j]
  }

  lemma {:induction false} CountedOnce(rows: seq<Row>, row: Row)
    requires NoRepeats(rows)
    ensures multiset(rows)[row] == if row in rows then 1 else 0
  {
    if rows != [] {
      var n := |rows| - 1;
      CountedOnce(rows[..n], row);
      assert rows == rows[..n] + [rows[n]];
      assert row in rows[..n] ==> row != rows[n];
    }
  }

  lemma {:induction false} StraysAre(rows: seq<Row>, ids: set<string>)
    requires DistinctIds(rows)
    ensures forall row :: row in Strays(rows, ids) <==> row in rows && row.id !in ids
    ensures NoRepeats(Strays(rows, ids))
  {
    if rows != [] {
      var n := |rows| - 1;
      StraysAre(rows[..n], ids);
      assert rows == rows[..n] + [rows[n]];
      assert rows[n] !in rows[..n];
    }
  }

  lemma SameRowsOnce(a: seq<Row>, b: seq<Row>)
    requires NoRepeats(a) && NoRepeats(b)
    requires forall row :: row in a <==> row in b
    ensures multiset(a) == multiset(b)
  {
    forall row ensures multiset(a)[row] == multiset(b)[row] {
      CountedOnce(a, row);
      CountedOnce(b, row);
    }
  }

  /** For any rows with unique non-empty ids, chained or not, chainOrder loses and repeats none. */
  lemma ChainOrderIsPermutation(rows: seq<Row>)
    requires DistinctIds(rows)
    ensures multiset(ChainOrder(rows)) == multiset(rows)
  {
    var w := Walk(NextMap(rows), "", |rows|);
    WalkLinks(rows, "", |rows|);
    StraysAre(rows, Ids(w));
    forall i, j | 0 <= i < j < |w| ensures w[i] != w[j] {
      WalkNeverRepeats(rows, |rows|, i, j);
    }
    forall row ensures row in ChainOrder(rows) <==> row in rows {
      SameRow(rows, w, row);
    }
    SameRowsOnce(ChainOrder(rows), rows);
  }

  lemma ReversedHolds(rows: seq<Row>)
    ensures forall row :: row in Reversed(rows) <==> row in rows
  {
    forall row | row in rows ensures row in Reversed(rows) {
      var i :| 0 <= i < |rows| && rows[i] == row;
      assert Reversed(rows)[|rows| - 1 - i] == row;
    }
  }

  /** Among rows with unique ids, a row is on the chain when its id is. */
  lemma SameRow(rows: seq<Row>, w: seq<Row>, row: Row)
    requires DistinctIds(rows) && forall i :: 0 <= i < |w| ==> w[i] in rows
    ensures row in Reversed(w) + Strays(rows, Ids(w)) <==> row in rows
  {
    ReversedHolds(w);
    StraysAre(rows, Ids(w));
    if row in rows && row.id in Ids(w) {
      var i :| 0 <= i < |w| && w[i].id == row.id;
      assert w[i] in rows;
    }
  }

  // ---- ... the walk, then the rest ----

  /** Row `p` is the last listed of those written after what it was written after. */
  predicate LastAfter(rows: seq<Row>, p: nat) {
    p < |rows| && forall q :: p < q < |rows| ==> Key(rows[q]) != Key(rows[p])
  }

  lemma {:induction false} NextMapIsLast(rows: seq<Row>, key: string) returns (p: nat)
    requires key in NextMap(rows)
    ensures LastAfter(rows, p) && rows[p] == NextMap(rows)[key] && Key(rows[p]) == key
  {
    var n := |rows| - 1;
    if Key(rows[n]) == key {
      p := n;
    } else {
      p := NextMapIsLast(rows[..n], key);
    }
  }

  lemma {:induction false} WalkIsOfLast(rows: seq<Row>, at: string, n: nat, i: nat)
    requires i < |Walk(NextMap(rows), at, n)|
    ensures IsLastAfter(rows, Walk(NextMap(rows), at, n)[i])
    decreases n
  {
    if i == 0 {
      var p := NextMapIsLast(rows, at);
    } else {
      WalkIsOfLast(rows, NextMap(rows)[at].id, n - 1, i - 1);
    }
  }

  /** A walk stops early only where nothing was written after its last row. */
  lemma {:induction false} WalkStops(next: map<string, Row>, at: string, n: nat)
    ensures var w := Walk(next, at, n);
            |w| < n ==> (if w == [] then at else w[|w| - 1].id) !in next
    decreases n
  {
    if n > 0 && at in next {
      WalkStops(next, next[at].id, n - 1);
    }
  }

  predicate Rising(at: seq<nat>, n: nat) {
    (forall k :: 0 <= k < |at| ==> at[k] < n) && forall j, k :: 0 <= j < k < |at| ==> at[j] < at[k]
  }

  /** `at` are the places in `rows` of `strays`, none of them with an id among `ids`. */
  predicate StrayAt(rows: seq<Row>, strays: seq<Row>, ids: set<string>, at: seq<nat>) {
    && |at| == |strays| && Rising(at, |rows|)
    && forall k :: 0 <= k < |at| ==> strays[k] == rows[at[k]] && strays[k].id !in ids
  }

  lemma StrayOneMore(rows: seq<Row>, last: Row, strays: seq<Row>, ids: set<string>, at: seq<nat>)
    requires StrayAt(rows, strays, ids, at)
    ensures StrayAt(rows + [last], strays, ids, at)
    ensures last.id !in ids ==> StrayAt(rows + [last], strays + [last], ids, at + [|rows|])
  {
  }

  /** Where in `rows` the strays are. */
  lemma {:induction false} StraysAt(rows: seq<Row>, ids: set<string>) returns (at: seq<nat>)
    ensures StrayAt(rows, Strays(rows, ids), ids, at)
  {
    if rows == [] {
      at := [];
    } else {
      var n := |rows| - 1;
      at := StraysAt(rows[..n], ids);
      StrayOneMore(rows[..n], rows[n], Strays(rows[..n], ids), ids, at);
      assert rows == rows[..n] + [rows[n]] && Strays(rows[..n], ids) + [] == Strays(rows[..n], ids);
      if rows[n].id !in ids {
        at := at + [n];
      }
    }
  }

  /** `chain` runs from the newest row, after which nothing was written, back to a first one, each
      directly before the one it was written after; of rows written after one it has the last listed. */
  ghost predicate IsChainOf(chain: seq<Row>, rows: seq<Row>) {
    && RunsBack(chain)
    && (forall i :: 0 <= i < |chain| ==> IsLastAfter(rows, chain[i]))
    && (|chain| == |rows| || forall row :: row in rows ==> Key(row) != if chain == [] then "" else chain[0].id)
  }

  predicate RunsBack(chain: seq<Row>) {
    && (forall i :: 0 < i < |chain| ==> Key(chain[i - 1]) == chain[i].id)
    && (chain != [] ==> Key(chain[|chain| - 1]) == "")
  }

  ghost predicate IsLastAfter(rows: seq<Row>, row: Row) {
    exists p: nat :: LastAfter(rows, p) && rows[p] == row
  }

  lemma WalkRunsBack(rows: seq<Row>, w: seq<Row>)
    requires w == Walk(NextMap(rows), "", |rows|)
    ensures RunsBack(Reversed(w))
  {
    var chain := Reversed(w);
    WalkLinks(rows, "", |rows|);
    forall i | 0 < i < |chain|
      ensures Key(chain[i - 1]) == chain[i].id
    {
      assert Key(w[|w| - i]) == w[|w| - i - 1].id;
    }
  }

  lemma NothingAfterWalk(rows: seq<Row>, w: seq<Row>, row: Row)
    requires w == Walk(NextMap(rows), "", |rows|) && |w| < |rows| && row in rows
    ensures Key(row) != if w == [] then "" else w[|w| - 1].id
  {
    WalkStops(NextMap(rows), "", |rows|);
    NextMapHolds(rows, Key(row));
    var i :| 0 <= i < |rows| && rows[i] == row;
  }

  lemma WalkHasLast(rows: seq<Row>, w: seq<Row>, i: nat)
    requires w == Walk(NextMap(rows), "", |rows|) && i < |w|
    ensures IsLastAfter(rows, Reversed(w)[i])
  {
    WalkIsOfLast(rows, "", |rows|, |w| - 1 - i);
  }

  lemma WalkIsChain(rows: seq<Row>, w: seq<Row>)
    requires w == Walk(NextMap(rows), "", |rows|)
    ensures IsChainOf(Reversed(w), rows)
  {
    WalkRunsBack(rows, w);
    WalkLinks(rows, "", |rows|);
    forall i | 0 <= i < |w|
      ensures IsLastAfter(rows, Reversed(w)[i])
    {
      WalkHasLast(rows, w, i);
    }
    if |w| < |rows| {
      forall row | row in rows
        ensures Key(row) != if w == [] then "" else w[|w| - 1].id
      {
        NothingAfterWalk(rows, w, row);
      }
    }
  }

  lemma IdIsOnWalk(w: seq<Row>, row: Row)
    ensures row in Reversed(w) ==> row.id in Ids(w)
  {
    ReversedHolds(w);
    if row in w {
      var i :| 0 <= i < |w| && w[i] == row;
      assert w[i].id in Ids(w);
    }
  }

  /** The chain comes first, newest first; the rows left over follow in the order they came in. */
  lemma ChainThenStrays(rows: seq<Row>) returns (chain: seq<Row>, strays: seq<Row>, at: seq<nat>)
    ensures ChainOrder(rows) == chain + strays && IsChainOf(chain, rows)
    ensures |at| == |strays| && Rising(at, |rows|)
    ensures forall k :: 0 <= k < |at| ==> strays[k] == rows[at[k]] && strays[k] !in chain
  {
    var w := Walk(NextMap(rows), "", |rows|);
    chain, strays := Reversed(w), Strays(rows, Ids(w));
    WalkIsChain(rows, w);
    at := StraysAt(rows, Ids(w));
    forall k | 0 <= k < |at|
      ensures strays[k] !in chain
    {
      IdIsOnWalk(w, strays[k]);
    }
  }

  // ---- For rows that form a chain ----

  /** `order` is a line from its first release on, each written after the one before. */
  predicate Chained(order: seq<Row>) {
    && DistinctIds(order)
    && (|order| > 0 ==> order[0].predecessor.None?)
    && (forall i :: 0 < i < |order| ==> order[i].predecessor == Some(order[i - 1].id))
  }

  /** The rows, as the database returns them in any order, are those of `order`. */
  predicate Holds(rows: seq<Row>, order: seq<Row>) {
    multiset(rows) == multiset(order)
  }

  lemma KeyFindsRow(rows: seq<Row>, order: seq<Row>, i: nat)
    requires Chained(order) && Holds(rows, order) && i < |order|
    ensures Key(order[i]) in NextMap(rows) && NextMap(rows)[Key(order[i])] == order[i]
  {
    var key := Key(order[i]);
    NextMapHolds(rows, key);
    assert order[i] in multiset(order) && order[i] in rows;
    var k :| 0 <= k < |rows| && rows[k] == order[i];
    var found := NextMap(rows)[key];
    assert found in multiset(rows) && found in order;
    var j :| 0 <= j < |order| && order[j] == found;
    assert j > 0 ==> Key(order[j]) == order[j - 1].id != "";
    assert i > 0 ==> Key(order[i]) == order[i - 1].id != "";
    if j > 0 && i > 0 {
      SameId(order, i - 1, j - 1);
    }
  }

  lemma SameId(rows: seq<Row>, i: nat, j: nat)
    requires DistinctIds(rows) && i < |rows| && j < |rows|
    ensures rows[i].id == rows[j].id ==> i == j
  {
  }

  lemma {:induction false} WalkFollowsChain(rows: seq<Row>, order: seq<Row>, i: nat)
    requires Chained(order) && Holds(rows, order) && i <= |order|
    ensures Walk(NextMap(rows), if i == 0 then "" else order[i - 1].id, |order| - i) == order[i..]
    decreases |order| - i
  {
    if i < |order| {
      KeyFindsRow(rows, order, i);
      WalkFollowsChain(rows, order, i + 1);
    }
  }

  /** chainOrder lists a chain newest first, each row directly before the one it was written after,
      whatever order its rows come in. */
  lemma ChainOrderIsNewestFirst(rows: seq<Row>, order: seq<Row>)
    requires Chained(order) && Holds(rows, order)
    ensures ChainOrder(rows) == Reversed(order)
    ensures forall i :: 0 <= i < |order| - 1 ==> ChainOrder(rows)[i].predecessor == Some(ChainOrder(rows)[i + 1].id)
  {
    SameLength(rows, order);
    WalkFollowsChain(rows, order, 0);
    assert order[0..] == order;
    NoStrays(rows, order);
  }

  lemma SameLength(rows: seq<Row>, order: seq<Row>)
    requires Holds(rows, order)
    ensures |rows| == |order|
  {
    assert |multiset(rows)| == |rows| && |multiset(order)| == |order|;
  }

  lemma {:induction false} NoStraysAmong(rows: seq<Row>, ids: set<string>)
    requires forall i :: 0 <= i < |rows| ==> rows[i].id in ids
    ensures Strays(rows, ids) == []
  {
    if rows != [] {
      NoStraysAmong(rows[..|rows| - 1], ids);
    }
  }

  lemma NoStrays(rows: seq<Row>, order: seq<Row>)
    requires Holds(rows, order)
    ensures Strays(rows, Ids(order)) == []
  {
    forall i | 0 <= i < |rows| ensures rows[i].id in Ids(order) {
      assert rows[i] in multiset(rows) && rows[i] in order;
    }
    NoStraysAmong(rows, Ids(order));
  }

  // ---- headOf and currentOf ----

  function HeadOf(rows: seq<Row>): Option<Row> {
    if rows == [] then None else Some(rows[0])
  }

  /** The first row listed that is not withdrawn. */
  function CurrentOf(rows: seq<Row>): (current: Option<Row>)
    ensures current.None? <==> forall i :: 0 <= i < |rows| ==> rows[i].withdrawnAt.Some?
    ensures current.Some? ==>
              exists i :: 0 <= i < |rows| && rows[i] == current.value && current.value.withdrawnAt.None?
                          && forall k :: 0 <= k < i ==> rows[k].withdrawnAt.Some?
  {
    if rows == [] then None
    else if rows[0].withdrawnAt.None? then Some(rows[0])
    else
      var rest := CurrentOf(rows[1..]);
      assert rest.None? ==> forall i :: 0 < i < |rows| ==> rows[i] == rows[1..][i - 1];
      assert rest.Some? ==> forall i :: 0 <= i < |rows| - 1 ==> rows[1..][i] == rows[i + 1];
      rest
  }

  function HeadId(order: seq<Row>): Option<string> {
    if order == [] then None else Some(order[|order| - 1].id)
  }

  lemma NewestIsHead(order: seq<Row>)
    ensures HeadOf(Reversed(order)) == if order == [] then None else Some(order[|order| - 1])
  {
  }

  /** The rows the public can see. */
  function Public(rows: seq<Row>): set<Row> {
    set row | row in rows && row.withdrawnAt.None?
  }

  lemma SamePublic(rows: seq<Row>, order: seq<Row>)
    requires Holds(rows, order)
    ensures Public(rows) == Public(order)
  {
    forall row
      ensures row in rows <==> row in order
    {
      assert row in multiset(rows) <==> row in multiset(order);
    }
  }

  /** `order` with the row of this id withdrawn, if it was not. */
  function Withdrawn(rows: seq<Row>, id: string, at: int): (after: seq<Row>)
    ensures |after| == |rows|
    ensures forall i :: 0 <= i < |rows| ==>
              after[i] == if rows[i].id == id && rows[i].withdrawnAt.None? then rows[i].(withdrawnAt := Some(at)) else rows[i]
  {
    seq(|rows|, i requires 0 <= i < |rows| =>
      if rows[i].id == id && rows[i].withdrawnAt.None? then rows[i].(withdrawnAt := Some(at)) else rows[i])
  }

  function AllWithdrawn(rows: seq<Row>, at: int): (after: seq<Row>)
    ensures |after| == |rows|
    ensures forall i :: 0 <= i < |rows| ==>
              after[i] == if rows[i].withdrawnAt.None? then rows[i].(withdrawnAt := Some(at)) else rows[i]
  {
    seq(|rows|, i requires 0 <= i < |rows| =>
      if rows[i].withdrawnAt.None? then rows[i].(withdrawnAt := Some(at)) else rows[i])
  }

  /** One line's rows and what each publisher last read as its head. Each method is one statement,
      so every order of calls is an interleaving of publishers. */
  class Line {
    var rows: seq<Row>
    var heads: map<nat, Option<string>>
    /** The rows in the order they were written. */
    ghost var order: seq<Row>

    ghost predicate Valid()
      reads this
    {
      && Chained(order) && Holds(rows, order)
      && forall p :: p in heads && heads[p].Some? ==> exists i :: 0 <= i < |order| && order[i].id == heads[p].value
    }

    constructor ()
      ensures Valid() && order == [] && heads == map[]
    {
      rows, heads, order := [], map[], [];
    }

    /** A publisher lists the line, newest first, and remembers its head. */
    method ReadHead(publisher: nat) returns (listed: seq<Row>)
      requires Valid()
      modifies this`heads
      ensures Valid() && listed == Reversed(order)
      ensures heads == old(heads)[publisher := HeadId(order)]
    {
      listed := ChainOrderOf(rows);
      ChainOrderIsNewestFirst(rows, order);
      NewestIsHead(order);
      var head := HeadOf(listed);
      heads := heads[publisher := if head.Some? then Some(head.value.id) else None];
    }

    /** Inserts a release naming the head its publisher read: it is written exactly when that is
        still the line's head, and then becomes it; else the unique constraint refuses it. */
    method Insert(publisher: nat, id: string) returns (written: bool)
      requires Valid() && publisher in heads
      requires id != "" && forall i :: 0 <= i < |order| ==> order[i].id != id
      modifies this`rows, this`order
      ensures Valid()
      ensures written <==> heads[publisher] == HeadId(old(order))
      ensures order == if written then old(order) + [Row(id, heads[publisher], None)] else old(order)
      ensures !written ==> rows == old(rows)
    {
      var row := Row(id, heads[publisher], None);
      var i := 0;
      while i < |rows| && rows[i].predecessor != row.predecessor
        invariant 0 <= i <= |rows|
        invariant forall k :: 0 <= k < i ==> rows[k].predecessor != row.predecessor
      {
        i := i + 1;
      }
      OneSuccessorEach(rows, order, row.predecessor);
      if i < |rows| { return false; }
      InsertedChained(rows, order, row);
      rows := rows + [row];
      order := order + [row];
      return true;
    }

    /** Hides one release and returns it, unless it is hidden or not there; the rows stay where they
        are in the line. */
    method Withdraw(id: string, at: int) returns (withdrawn: Option<Row>)
      requires Valid()
      modifies this`rows, this`order
      ensures Valid() && order == Withdrawn(old(order), id, at)
      ensures withdrawn.None? <==> forall row :: row in Public(old(order)) ==> row.id != id
      ensures withdrawn.Some? ==>
                exists row :: row in Public(old(order)) && row.id == id && withdrawn.value == row.(withdrawnAt := Some(at))
    {
      SamePublic(rows, order);
      withdrawn := None;
      if row :| row in Public(rows) && row.id == id {
        withdrawn := Some(row.(withdrawnAt := Some(at)));
      }
      WithdrawnHolds(rows, order, id, at);
      rows, order := Withdrawn(rows, id, at), Withdrawn(order, id, at);
    }

    /** Hides every release of the line, and counts those that were not hidden: no two rows are one. */
    method WithdrawLine(at: int) returns (marked: nat)
      requires Valid()
      modifies this`rows, this`order
      ensures Valid() && order == AllWithdrawn(old(order), at)
      ensures marked == |Public(old(order))| && Public(order) == {}
    {
      SamePublic(rows, order);
      marked := |Public(rows)|;
      AllWithdrawnHolds(rows, order, at);
      rows, order := AllWithdrawn(rows, at), AllWithdrawn(order, at);
    }
  }

  /** A release written after the head goes on the chain. */
  lemma InsertedChained(rows: seq<Row>, order: seq<Row>, row: Row)
    requires Chained(order) && Holds(rows, order) && row.predecessor == HeadId(order)
    requires row.id != "" && forall i :: 0 <= i < |order| ==> order[i].id != row.id
    ensures Chained(order + [row]) && Holds(rows + [row], order + [row])
    ensures forall i :: 0 <= i < |order| ==> (order + [row])[i] == order[i]
  {
  }

  /** In a chain every row but the newest has its successor, and the start has its first release. */
  lemma OneSuccessorEach(rows: seq<Row>, order: seq<Row>, predecessor: Option<string>)
    requires Chained(order) && Holds(rows, order)
    requires predecessor.Some? ==> exists i :: 0 <= i < |order| && order[i].id == predecessor.value
    ensures (exists i :: 0 <= i < |rows| && rows[i].predecessor == predecessor) <==> predecessor != HeadId(order)
  {
    if i :| 0 <= i < |rows| && rows[i].predecessor == predecessor {
      assert rows[i] in multiset(rows) && rows[i] in order;
      var j :| 0 <= j < |order| && order[j] == rows[i];
      if j > 0 {
        SameId(order, j - 1, |order| - 1);
      }
    }
    if predecessor != HeadId(order) {
      var j := 0;
      if predecessor.Some? {
        var i :| 0 <= i < |order| && order[i].id == predecessor.value;
        j := i + 1;
      }
      assert order[j].predecessor == predecessor;
      assert order[j] in multiset(order) && order[j] in rows;
    }
  }

  function Without(rows: seq<Row>, at: nat): seq<Row>
    requires at < |rows|
  {
    rows[..at] + rows[at + 1..]
  }

  lemma MapsWithout(mapped: seq<Row>, rows: seq<Row>, f: Row -> Row, at: nat)
    requires Maps(mapped, rows, f) && at < |rows|
    ensures Maps(Without(mapped, at), Without(rows, at), f)
  {
  }

  lemma OneTaken(rows: seq<Row>, at: nat)
    requires at < |rows|
    ensures multiset(rows) == multiset(Without(rows, at)) + multiset{rows[at]}
  {
    assert rows == rows[..at] + [rows[at]] + rows[at + 1..];
  }

  predicate Maps(mapped: seq<Row>, rows: seq<Row>, f: Row -> Row) {
    |mapped| == |rows| && forall i :: 0 <= i < |rows| ==> mapped[i] == f(rows[i])
  }

  /** `f` applied to every row keeps which rows there are. */
  lemma {:induction false} MappedHolds(rows: seq<Row>, order: seq<Row>, mapped: seq<Row>, mappedOrder: seq<Row>, f: Row -> Row)
    requires Holds(rows, order) && Maps(mapped, rows, f) && Maps(mappedOrder, order, f)
    ensures Holds(mapped, mappedOrder)
    decreases |rows|
  {
    SameLength(rows, order);
    if rows == [] {
      return;
    }
    assert rows[0] in multiset(rows) && rows[0] in order;
    var at :| 0 <= at < |order| && order[at] == rows[0];
    OneTaken(rows, 0);
    OneTaken(order, at);
    assert multiset(Without(rows, 0)) == multiset(rows) - multiset{rows[0]};
    assert multiset(Without(order, at)) == multiset(order) - multiset{order[at]};
    MapsWithout(mapped, rows, f, 0);
    MapsWithout(mappedOrder, order, f, at);
    MappedHolds(Without(rows, 0), Without(order, at), Without(mapped, 0), Without(mappedOrder, at), f);
    OneTaken(mapped, 0);
    OneTaken(mappedOrder, at);
  }

  lemma WithdrawnHolds(rows: seq<Row>, order: seq<Row>, id: string, at: int)
    requires Chained(order) && Holds(rows, order)
    ensures Chained(Withdrawn(order, id, at)) && Holds(Withdrawn(rows, id, at), Withdrawn(order, id, at))
  {
    MappedHolds(rows, order, Withdrawn(rows, id, at), Withdrawn(order, id, at),
                (row: Row) => if row.id == id && row.withdrawnAt.None? then row.(withdrawnAt := Some(at)) else row);
  }

  lemma AllWithdrawnHolds(rows: seq<Row>, order: seq<Row>, at: int)
    requires Chained(order) && Holds(rows, order)
    ensures Chained(AllWithdrawn(order, at)) && Holds(AllWithdrawn(rows, at), AllWithdrawn(order, at))
  {
    MappedHolds(rows, order, AllWithdrawn(rows, at), AllWithdrawn(order, at),
                (row: Row) => if row.withdrawnAt.None? then row.(withdrawnAt := Some(at)) else row);
  }

  /** `k` is where the newest release not withdrawn is: the one the public sees. */
  predicate NewestKept(order: seq<Row>, k: nat) {
    k < |order| && order[k].withdrawnAt.None? && forall i :: k < i < |order| ==> order[i].withdrawnAt.Some?
  }

  /** Withdrawing the current release falls back to the newest written before it that is not
      withdrawn. */
  lemma WithdrawFallsBack(rows: seq<Row>, order: seq<Row>, k: nat, at: int)
    requires Chained(order) && Holds(rows, order) && NewestKept(order, k)
    ensures CurrentOf(ChainOrder(rows)) == Some(order[k])
    ensures CurrentOf(ChainOrder(Withdrawn(rows, order[k].id, at))) == CurrentOf(Reversed(order[..k]))
  {
    ChainOrderIsNewestFirst(rows, order);
    CurrentIsNewestKept(order, k);
    WithdrawnHolds(rows, order, order[k].id, at);
    ChainOrderIsNewestFirst(Withdrawn(rows, order[k].id, at), Withdrawn(order, order[k].id, at));
    FallsBackAlong(order, k, at);
  }

  lemma FallsBackAlong(order: seq<Row>, k: nat, at: int)
    requires DistinctIds(order) && NewestKept(order, k)
    ensures CurrentOf(Reversed(Withdrawn(order, order[k].id, at))) == CurrentOf(Reversed(order[..k]))
  {
    var after := Withdrawn(order, order[k].id, at);
    PastWithdrawn(after, k);
    forall i | 0 <= i < k ensures after[i] == order[i] {
      SameId(order, i, k);
    }
    assert after[..k] == order[..k];
  }

  /** Withdrawing any other release changes nothing the public sees. */
  lemma WithdrawOtherKeepsCurrent(rows: seq<Row>, order: seq<Row>, k: nat, id: string, at: int)
    requires Chained(order) && Holds(rows, order) && NewestKept(order, k) && id != order[k].id
    ensures CurrentOf(ChainOrder(Withdrawn(rows, id, at))) == Some(order[k])
  {
    WithdrawnHolds(rows, order, id, at);
    ChainOrderIsNewestFirst(Withdrawn(rows, id, at), Withdrawn(order, id, at));
    CurrentIsNewestKept(Withdrawn(order, id, at), k);
  }

  lemma CurrentIsNewestKept(order: seq<Row>, k: nat)
    requires NewestKept(order, k)
    ensures CurrentOf(Reversed(order)) == Some(order[k])
  {
    var listed := Reversed(order);
    assert listed[|order| - 1 - k] == order[k];
    var current := CurrentOf(listed);
    var i :| 0 <= i < |listed| && listed[i] == current.value && current.value.withdrawnAt.None?
             && forall j :: 0 <= j < i ==> listed[j].withdrawnAt.Some?;
    assert listed[i] == order[|order| - 1 - i];
  }

  lemma {:induction false} PastWithdrawn(order: seq<Row>, k: nat)
    requires k <= |order| && forall i :: k <= i < |order| ==> order[i].withdrawnAt.Some?
    ensures CurrentOf(Reversed(order)) == CurrentOf(Reversed(order[..k]))
    decreases |order|
  {
    if k < |order| {
      var n := |order| - 1;
      assert Reversed(order)[0] == order[n];
      assert Reversed(order)[1..] == Reversed(order[..n]);
      PastWithdrawn(order[..n], k);
      assert order[..n][..k] == order[..k];
    } else {
      assert order[..k] == order;
    }
  }
}
