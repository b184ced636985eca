/** The realized P&L of the trade journal: backend/journal.py. */
module Journal {
  import opened BotTypes

  datatype RowSide = BuyRow | SellRow | ShortRow | CoverRow | OtherRow

  /** A journal row.  byBot: its source is "bot". */
  datatype Row = Row(
    byBot: bool, bot: Option<string>, symbol: string, at: Option<nat>, side: RowSide, price: Option<real>, qty: Option<real>)

  /** What is asked for: a symbol and direction, perhaps one bot's, perhaps only from a time on. */
  datatype Query = Query(symbol: string, direction: Side, bot: Option<string>, since: Option<nat>)

  datatype Fill = Fill(price: real, qty: real)

  predicate IsEntry(side: RowSide) {
    side == BuyRow || side == ShortRow
  }

  /** Any side but buy and sell counts as short. */
  function RowDirection(side: RowSide): Side {
    if side == BuyRow || side == SellRow then Long else Short
  }

  /** The row counts for the query. */
  predicate Counts(t: Row, q: Query) {
    && (t.byBot || (q.bot.Some? && t.bot == q.bot))
    && t.symbol == q.symbol
    && (q.bot.Some? ==> t.bot == q.bot)
    && (q.since.Some? ==> t.at.Some? && t.at.value >= q.since.value)
    && t.price.Some? && t.qty.Some? && t.qty.value != 0.0
    && RowDirection(t.side) == q.direction
  }

  function Min(a: real, b: real): real {
    if a <= b then a else b
  }

  /** What an exit at the price earns on the entry. */
  function Earned(direction: Side, entry: Fill, exit: Fill): real {
    if direction == Short then (entry.price - exit.price) * Min(entry.qty, exit.qty)
    else (exit.price - entry.price) * Min(entry.qty, exit.qty)
  }

  /** The sum so far and the open entry. */
  datatype Book = Book(total: real, open: Option<Fill>)

  function FillOf(t: Row): Fill
    requires t.price.Some? && t.qty.Some?
  {
    Fill(t.price.value, t.qty.value)
  }

  function Step(b: Book, t: Row, q: Query): Book {
    if !Counts(t, q) then b
    else if IsEntry(t.side) then b.(open := Some(FillOf(t)))
    else if b.open.Some? then Book(b.total + Earned(q.direction, b.open.value, FillOf(t)), None)
    else b
  }

  function Walk(b: Book, rows: seq<Row>, q: Query): Book {
    if rows == [] then b else Step(Walk(b, rows[..|rows| - 1], q), rows[|rows| - 1], q)
  }

  function Pnl(rows: seq<Row>, q: Query): real {
    Walk(Book(0.0, None), rows, q).total
  }

  /** compute_realized_pnl. */
  method RealizedPnl(rows: seq<Row>, q: Query) returns (total: real)
    ensures total == Pnl(rows, q)
  {
    hide Earned, Counts;
    total := 0.0;
    var open: Option<Fill> := None;
    var k := 0;
    while k < |rows|
      invariant 0 <= k <= |rows| && Book(total, open) == Walk(Book(0.0, None), rows[..k], q)
    {
      var t := rows[k];
      assert rows[..k + 1][..k] == rows[..k];
      k := k + 1;
      if !Counts(t, q) { continue; }
      CountsHasFill(t, q);
      if IsEntry(t.side) {
        open := Some(FillOf(t));
      } else if open.Some? {
        total := total + Earned(q.direction, open.value, FillOf(t));
        open := None;
      }
    }
    assert rows[..|rows|] == rows;
  }

  lemma CountsHasFill(t: Row, q: Query)
    requires Counts(t, q)
    ensures t.price.Some? && t.qty.Some?
  {
  }

  /** compute_bidirectional_pnl. */
  method BidirectionalPnl(rows: seq<Row>, q: Query) returns (total: real)
    ensures total == Pnl(rows, q.(direction := Long)) + Pnl(rows, q.(direction := Short))
  {
    var long := RealizedPnl(rows, q.(direction := Long));
    var short := RealizedPnl(rows, q.(direction := Short));
    total := long + short;
  }

  // ---- what one row more adds ----

  /** The row is one of the bot asked for, whoever wrote it, or without one of any bot; of the symbol and
      the direction, late enough, with a price and a quantity that is not 0. */
  predicate Belongs(t: Row, q: Query) {
    && (if q.bot.Some? then t.bot == q.bot else t.byBot)
    && t.symbol == q.symbol
    && (match q.since case None => true case Some(from) => t.at.Some? && from <= t.at.value)
    && t.price.Some? && t.qty.Some? && t.qty != Some(0.0)
    && ((t.side == BuyRow || t.side == SellRow) <==> q.direction == Long)
  }

  /** Row k is the last that belongs, and it opens a position. */
  predicate OpenAt(rows: seq<Row>, k: nat, q: Query)
    requires k < |rows|
  {
    && Belongs(rows[k], q) && (rows[k].side == BuyRow || rows[k].side == ShortRow)
    && forall j | k < j < |rows| :: !Belongs(rows[j], q)
  }

  /** gain is what an exit earns on an entry: the quantity both have, times the difference won. */
  predicate Wins(q: Query, entry: Row, exit: Row, gain: real)
    requires Belongs(entry, q) && Belongs(exit, q)
  {
    var x := if exit.qty.value < entry.qty.value then exit.qty.value else entry.qty.value;
    && (q.direction == Long ==> gain == (exit.price.value - entry.price.value) * x)
    && (q.direction == Short ==> gain == (entry.price.value - exit.price.value) * x)
  }

  /** The rows that count are those that belong to the query. */
  lemma CountsIffBelongs(t: Row, q: Query)
    ensures Counts(t, q) <==> Belongs(t, q)
  {
  }

  /** The entry left open is the last row that belongs, when that opens. */
  lemma {:induction false} OpenIs(rows: seq<Row>, q: Query)
    ensures match Walk(Book(0.0, None), rows, q).open
            case None => forall k: nat | k < |rows| :: !OpenAt(rows, k, q)
            case Some(f) => exists k: nat | k < |rows| :: OpenAt(rows, k, q) && f == FillOf(rows[k])
  {
    hide Counts, Earned;
    if rows != [] {
      var n := |rows| - 1;
      var before, t := rows[..n], rows[n];
      OpenIs(before, q);
      CountsIffBelongs(t, q);
      if Belongs(t, q) {
        forall k: nat | k < n ensures !OpenAt(rows, k, q) { assert rows[n] == t; }
        if IsEntry(t.side) { assert OpenAt(rows, n, q); }
      } else {
        forall k: nat | k < n ensures OpenAt(rows, k, q) <==> OpenAt(before, k, q) {
          OpenStays(rows, k, q);
        }
        var w := Walk(Book(0.0, None), before, q);
        if w.open.Some? {
          var k: nat :| k < n && OpenAt(before, k, q) && w.open.value == FillOf(before[k]);
          assert OpenAt(rows, k, q);
        }
      }
    }
  }

  lemma OpenStays(rows: seq<Row>, k: nat, q: Query)
    requires k + 1 < |rows| && !Belongs(rows[|rows| - 1], q)
    ensures OpenAt(rows, k, q) <==> OpenAt(rows[..|rows| - 1], k, q)
  {
    hide Belongs;
    var before := rows[..|rows| - 1];
    if OpenAt(before, k, q) {
      forall j | k < j < |rows| ensures !Belongs(rows[j], q) {
        if j < |rows| - 1 { assert before[j] == rows[j]; }
      }
    }
  }

  /** What an exit earns on an entry. */
  lemma EarnedWins(q: Query, entry: Row, exit: Row)
    requires Belongs(entry, q) && Belongs(exit, q)
    ensures Wins(q, entry, exit, Earned(q.direction, FillOf(entry), FillOf(exit)))
  {
  }

  /** One row more adds nothing, unless it closes what the last row that belongs opened: then it adds what
      that exit earns on that entry, whatever their quantities.  With no rows the P&L is 0. */
  lemma OneRowMore(rows: seq<Row>, t: Row, q: Query)
    ensures Pnl([], q) == 0.0
    ensures var gain := Pnl(rows + [t], q) - Pnl(rows, q);
            var closes := Belongs(t, q) && t.side != BuyRow && t.side != ShortRow;
            && (forall k: nat | k < |rows| && OpenAt(rows, k, q) && closes :: Wins(q, rows[k], t, gain))
            && (!closes || (forall k: nat | k < |rows| :: !OpenAt(rows, k, q)) ==> gain == 0.0)
  {
    hide Counts, Earned, Wins;
    assert (rows + [t])[..|rows|] == rows;
    OpenIs(rows, q);
    CountsIffBelongs(t, q);
    var b := Walk(Book(0.0, None), rows, q);
    forall k: nat | k < |rows| && OpenAt(rows, k, q) && Belongs(t, q) && t.side != BuyRow && t.side != ShortRow
      ensures Wins(q, rows[k], t, Pnl(rows + [t], q) - Pnl(rows, q))
    {
      var m: nat :| m < |rows| && OpenAt(rows, m, q) && b.open == Some(FillOf(rows[m]));
      assert m == k;
      EarnedWins(q, rows[k], t);
      var g := Earned(q.direction, FillOf(rows[k]), FillOf(t));
      assert Pnl(rows + [t], q) == Pnl(rows, q) + g;
      assert g == Pnl(rows + [t], q) - Pnl(rows, q);
    }
  }

  // ---- only the counting rows matter ----

  function Counting(rows: seq<Row>, q: Query): seq<Row> {
    if rows == [] then []
    else Counting(rows[..|rows| - 1], q) + if Counts(rows[|rows| - 1], q) then [rows[|rows| - 1]] else []
  }

  lemma {:induction false} WalkConcat(b: Book, a: seq<Row>, c: seq<Row>, q: Query)
    ensures Walk(b, a + c, q) == Walk(Walk(b, a, q), c, q)
  {
    hide Step;
    if c == [] {
      assert a + c == a;
    } else {
      var n := |c| - 1;
      WalkConcat(b, a, c[..n], q);
      assert (a + c)[..|a| + n] == a + c[..n];
    }
  }

  lemma {:induction false} WalkCounting(b: Book, rows: seq<Row>, q: Query)
    ensures Walk(b, rows, q) == Walk(b, Counting(rows, q), q)
  {
    hide Counts, Earned;
    if rows != [] {
      var n := |rows| - 1;
      WalkCounting(b, rows[..n], q);
      if Counts(rows[n], q) {
        var kept := Counting(rows[..n], q) + [rows[n]];
        assert kept[..|kept| - 1] == Counting(rows[..n], q);
      } else {
        assert Counting(rows[..n], q) + [] == Counting(rows[..n], q);
      }
    }
  }

  /** Rows of other bots or symbols, before the time asked for, or of the other direction change
      nothing, wherever they stand. */
  lemma OtherRowsDoNotMatter(a: seq<Row>, b: seq<Row>, q: Query)
    requires Counting(a, q) == Counting(b, q)
    ensures Pnl(a, q) == Pnl(b, q)
  {
    WalkCounting(Book(0.0, None), a, q);
    WalkCounting(Book(0.0, None), b, q);
  }

  // ---- additive at a flat point ----

  lemma {:induction false} WalkShifts(b: Book, rows: seq<Row>, q: Query, more: real)
    ensures Walk(b.(total := b.total + more), rows, q)
         == Walk(b, rows, q).(total := Walk(b, rows, q).total + more)
  {
    hide Counts, Earned;
    if rows != [] { WalkShifts(b, rows[..|rows| - 1], q, more); }
  }

  predicate FlatAfter(rows: seq<Row>, q: Query) {
    Walk(Book(0.0, None), rows, q).open.None?
  }

  lemma AdditiveWhenFlat(a: seq<Row>, b: seq<Row>, q: Query)
    requires FlatAfter(a, q)
    ensures Pnl(a + b, q) == Pnl(a, q) + Pnl(b, q)
    ensures FlatAfter(a + b, q) <==> FlatAfter(b, q)
  {
    hide Step;
    var start := Book(0.0, None);
    WalkConcat(start, a, b, q);
    WalkShifts(start, b, q, Pnl(a, q));
    assert Walk(start, a, q) == start.(total := start.total + Pnl(a, q));
  }

  // ---- cash in and cash out ----

  /** Entry, exit, entry, exit, ..., each exit for the quantity of its entry. */
  predicate Alternates(rows: seq<Row>, q: Query) {
    if rows == [] then true
    else
      && |rows| >= 2
      && var entry, exit := rows[|rows| - 2], rows[|rows| - 1];
         && Counts(entry, q) && Counts(exit, q) && IsEntry(entry.side) && !IsEntry(exit.side)
         && entry.qty == exit.qty && Alternates(rows[..|rows| - 2], q)
  }

  /** The cash of the entries, or of the exits. */
  function Cash(rows: seq<Row>, entries: bool): real {
    if rows == [] then 0.0
    else
      var t := rows[|rows| - 1];
      Cash(rows[..|rows| - 1], entries)
      + if IsEntry(t.side) == entries && t.price.Some? && t.qty.Some? then t.price.value * t.qty.value else 0.0
  }

  /** On alternating rows the P&L is the exits' cash less the entries' cash, negated for a short. */
  lemma {:induction false} CashDifference(rows: seq<Row>, q: Query)
    requires Alternates(rows, q)
    ensures FlatAfter(rows, q)
    ensures Pnl(rows, q) == if q.direction == Short then Cash(rows, true) - Cash(rows, false)
                            else Cash(rows, false) - Cash(rows, true)
  {
    if rows != [] {
      var n := |rows| - 2;
      var entry, exit := rows[n], rows[n + 1];
      CashDifference(rows[..n], q);
      assert rows[..n + 1][..n] == rows[..n];
      assert rows[..n + 1][n] == entry;
      assert Min(entry.qty.value, exit.qty.value) == entry.qty.value;
      EarnedIsCash(q.direction, FillOf(entry), FillOf(exit));
    }
  }

  lemma EarnedIsCash(direction: Side, entry: Fill, exit: Fill)
    requires entry.qty == exit.qty
    ensures Earned(direction, entry, exit)
         == if direction == Short then entry.price * entry.qty - exit.price * exit.qty
            else exit.price * exit.qty - entry.price * entry.qty
  {
  }

  // ---- both directions in one pass ----

  /** One pass that keeps an open entry per direction. */
  datatype TwoSided = TwoSided(total: real, long: Option<Fill>, short: Option<Fill>)

  function StepBoth(b: TwoSided, t: Row, q: Query): TwoSided {
    var l := Step(Book(0.0, b.long), t, q.(direction := Long));
    var s := Step(Book(0.0, b.short), t, q.(direction := Short));
    TwoSided(b.total + l.total + s.total, l.open, s.open)
  }

  function WalkBoth(rows: seq<Row>, q: Query): TwoSided {
    if rows == [] then TwoSided(0.0, None, None) else StepBoth(WalkBoth(rows[..|rows| - 1], q), rows[|rows| - 1], q)
  }

  lemma StepShifts(b: Book, t: Row, q: Query)
    ensures Step(b, t, q) == Book(b.total + Step(Book(0.0, b.open), t, q).total, Step(Book(0.0, b.open), t, q).open)
  {
    hide Counts, Earned;
  }

  lemma {:induction false} BothSidesInOnePass(rows: seq<Row>, q: Query)
    ensures var l, s := Walk(Book(0.0, None), rows, q.(direction := Long)), Walk(Book(0.0, None), rows, q.(direction := Short));
            WalkBoth(rows, q) == TwoSided(l.total + s.total, l.open, s.open)
  {
    hide Step;
    if rows != [] {
      var n := |rows| - 1;
      BothSidesInOnePass(rows[..n], q);
      StepShifts(Walk(Book(0.0, None), rows[..n], q.(direction := Long)), rows[n], q.(direction := Long));
      StepShifts(Walk(Book(0.0, None), rows[..n], q.(direction := Short)), rows[n], q.(direction := Short));
    }
  }

  // ---- one open entry is not last-in first-out ----

  /** The pairs of rows the loop makes, and those of a stack of open entries. */
  datatype Pairing = Pairing(open: Option<Row>, pairs: seq<(Row, Row)>)
  datatype Stacking = Stacking(stack: seq<Row>, pairs: seq<(Row, Row)>)

  function Pair(rows: seq<Row>): Pairing {
    if rows == [] then Pairing(None, [])
    else
      var b, t := Pair(rows[..|rows| - 1]), rows[|rows| - 1];
      if IsEntry(t.side) then b.(open := Some(t))
      else if b.open.Some? then Pairing(None, b.pairs + [(b.open.value, t)])
      else b
  }

  function Stack(rows: seq<Row>): Stacking {
    if rows == [] then Stacking([], [])
    else
      var b, t := Stack(rows[..|rows| - 1]), rows[|rows| - 1];
      if IsEntry(t.side) then b.(stack := b.stack + [t])
      else if b.stack == [] then b
      else Stacking(b.stack[..|b.stack| - 1], b.pairs + [(b.stack[|b.stack| - 1], t)])
  }

  /** What the pairs earn. */
  function Gain(direction: Side, entry: Row, exit: Row): real {
    if entry.price.Some? && entry.qty.Some? && exit.price.Some? && exit.qty.Some?
    then Earned(direction, FillOf(entry), FillOf(exit)) else 0.0
  }

  function Gains(direction: Side, pairs: seq<(Row, Row)>): real {
    if pairs == [] then 0.0
    else Gains(direction, pairs[..|pairs| - 1]) + Gain(direction, pairs[|pairs| - 1].0, pairs[|pairs| - 1].1)
  }

  predicate AllCount(rows: seq<Row>, q: Query) {
    forall t <- rows :: Counts(t, q)
  }

  lemma {:induction false} CountingCounts(rows: seq<Row>, q: Query)
    ensures AllCount(Counting(rows, q), q)
  {
    if rows != [] { CountingCounts(rows[..|rows| - 1], q); }
  }

  lemma GainIs(q: Query, entry: Row, exit: Row)
    requires Counts(entry, q) && Counts(exit, q)
    ensures Gain(q.direction, entry, exit) == Earned(q.direction, FillOf(entry), FillOf(exit))
  {
  }

  /** The walk over counting rows holds the open entry of the pairing, and what its pairs earn. */
  lemma {:induction false} WalkPairs(rows: seq<Row>, q: Query)
    requires AllCount(rows, q)
    ensures var w, p := Walk(Book(0.0, None), rows, q), Pair(rows);
            w.total == Gains(q.direction, p.pairs)
            && (p.open.Some? ==> p.open.value in rows && w.open == Some(FillOf(p.open.value))) && (p.open.None? ==> w.open.None?)
  {
    hide Earned, Gain;
    if rows != [] {
      var n := |rows| - 1;
      WalkPairs(rows[..n], q);
      var p, t := Pair(rows[..n]), rows[n];
      assert Counts(t, q) by { assert t in rows; }
      if !IsEntry(t.side) && p.open.Some? {
        assert p.open.value in rows && Counts(p.open.value, q);
        GainIs(q, p.open.value, t);
        assert Pair(rows).pairs[..|p.pairs|] == p.pairs;
      }
    }
  }

  /** Entries less exits. */
  function Net(rows: seq<Row>): int {
    if rows == [] then 0 else Net(rows[..|rows| - 1]) + if IsEntry(rows[|rows| - 1].side) then 1 else -1
  }

  /** An exit directly after another, when from some row on more entries than exits came before it. */
  predicate OlderLeftAt(rows: seq<Row>, i: nat, k: nat)
    requires i < k < |rows|
  {
    !IsEntry(rows[k].side) && !IsEntry(rows[k - 1].side) && Net(rows[i..k]) > 0
  }

  predicate OlderEntryLeft(rows: seq<Row>) {
    exists i: nat, k: nat | i < k < |rows| :: OlderLeftAt(rows, i, k)
  }

  /** The stack is as high as entries outnumber exits from the row where they do so most. */
  lemma {:induction false} HeightIsNet(rows: seq<Row>) returns (i: nat)
    ensures i <= |rows| && Net(rows[i..]) == |Stack(rows).stack|
  {
    hide Stack, Net;
    i := |rows|;
    assert rows[i..] == [];
    if rows == [] {
      EmptyStack();
    } else {
      var n := |rows| - 1;
      StackHeight(rows);
      if IsEntry(rows[n].side) || Stack(rows[..n]).stack != [] {
        i := HeightIsNet(rows[..n]);
        NetLast(rows, i);
      } else {
        EmptyStack();
      }
    }
  }

  lemma EmptyStack()
    ensures Stack([]).stack == [] && Net([]) == 0
  {
  }

  lemma StackHeight(rows: seq<Row>)
    requires rows != []
    ensures var n, before := |Stack(rows).stack|, |Stack(rows[..|rows| - 1]).stack|;
            n == if IsEntry(rows[|rows| - 1].side) then before + 1 else if before == 0 then 0 else before - 1
  {
  }

  lemma NetLast(rows: seq<Row>, i: nat)
    requires i < |rows|
    ensures Net(rows[i..]) == Net(rows[..|rows| - 1][i..]) + if IsEntry(rows[|rows| - 1].side) then 1 else -1
  {
    assert rows[i..][..|rows| - 1 - i] == rows[..|rows| - 1][i..];
  }

  lemma {:induction false} NetAtMostHeight(rows: seq<Row>, i: nat)
    requires i <= |rows|
    ensures Net(rows[i..]) <= |Stack(rows).stack|
  {
    hide Net, Stack;
    if i < |rows| {
      NetAtMostHeight(rows[..|rows| - 1], i);
      NetLast(rows, i);
      StackHeight(rows);
    } else {
      assert rows[i..] == [];
      EmptyStack();
    }
  }

  lemma {:induction false} PairOpen(rows: seq<Row>)
    ensures Pair(rows).open.Some? <==> rows != [] && IsEntry(rows[|rows| - 1].side)
  {
    if rows != [] { PairOpen(rows[..|rows| - 1]); }
  }

  lemma Older(rows: seq<Row>, i: nat, k: nat)
    requires i < k < |rows| && OlderLeftAt(rows, i, k)
    ensures OlderEntryLeft(rows)
  {
  }

  lemma OlderWitness(rows: seq<Row>) returns (i: nat, k: nat)
    requires OlderEntryLeft(rows)
    ensures i < k < |rows| && OlderLeftAt(rows, i, k)
  {
    i, k :| i < k < |rows| && OlderLeftAt(rows, i, k);
  }

  lemma OlderStays(rows: seq<Row>)
    requires rows != [] && OlderEntryLeft(rows[..|rows| - 1])
    ensures OlderEntryLeft(rows)
  {
    hide OlderEntryLeft, Net;
    var i, k := OlderWitness(rows[..|rows| - 1]);
    assert rows[i..k] == rows[..|rows| - 1][i..k];
    Older(rows, i, k);
  }

  lemma OlderNow(rows: seq<Row>)
    requires rows != [] && !IsEntry(rows[|rows| - 1].side)
    requires Pair(rows[..|rows| - 1]).open.None? && Stack(rows[..|rows| - 1]).stack != []
    ensures OlderEntryLeft(rows)
  {
    hide OlderEntryLeft, Pair;
    var n := |rows| - 1;
    PairOpen(rows[..n]);
    var i := HeightIsNet(rows[..n]);
    assert rows[i..n] == rows[..n][i..];
    Older(rows, i, n);
  }

  lemma OlderOnly(rows: seq<Row>)
    requires rows != [] && OlderEntryLeft(rows) && !OlderEntryLeft(rows[..|rows| - 1])
    ensures !IsEntry(rows[|rows| - 1].side)
    ensures Pair(rows[..|rows| - 1]).open.None? && Stack(rows[..|rows| - 1]).stack != []
  {
    hide OlderEntryLeft, Pair, Stack, Net;
    var n := |rows| - 1;
    var i, k := OlderWitness(rows);
    if k < n {
      assert rows[i..k] == rows[..n][i..k];
      Older(rows[..n], i, k);
    } else {
      PairOpen(rows[..n]);
      assert rows[i..n] == rows[..n][i..];
      NetAtMostHeight(rows[..n], i);
    }
  }

  /** One row more: it is the exit that finds an older entry left, or nothing changes. */
  lemma OlderStep(rows: seq<Row>)
    requires rows != []
    ensures var n := |rows| - 1;
            OlderEntryLeft(rows) <==>
              OlderEntryLeft(rows[..n])
              || (!IsEntry(rows[n].side) && Pair(rows[..n]).open.None? && Stack(rows[..n]).stack != [])
  {
    hide OlderEntryLeft, Pair, Stack;
    var n := |rows| - 1;
    if OlderEntryLeft(rows[..n]) {
      OlderStays(rows);
    } else if OlderEntryLeft(rows) {
      OlderOnly(rows);
    } else if !IsEntry(rows[n].side) && Pair(rows[..n]).open.None? && Stack(rows[..n]).stack != [] {
      OlderNow(rows);
    }
  }

  lemma {:induction false} PairsOrStacks(rows: seq<Row>)
    ensures Pair(rows).pairs == Stack(rows).pairs <==> !OlderEntryLeft(rows)
    ensures |Pair(rows).pairs| <= |Stack(rows).pairs|
    ensures OlderEntryLeft(rows) ==> |Pair(rows).pairs| < |Stack(rows).pairs|
    ensures Pair(rows).open.Some? ==> Stack(rows).stack != [] && Stack(rows).stack[|Stack(rows).stack| - 1] == Pair(rows).open.value
  {
    if rows != [] {
      PairsOrStacks(rows[..|rows| - 1]);
      OlderStep(rows);
    }
  }

  /** compute_realized_pnl is what the pairs of the loop earn; they are the last-in first-out pairs of
      the counting rows if and only if no exit comes directly after another while from some row on
      entries outnumber exits. */
  lemma LastInFirstOutIff(rows: seq<Row>, q: Query)
    ensures var c := Counting(rows, q);
            && Pnl(rows, q) == Gains(q.direction, Pair(c).pairs)
            && (Pair(c).pairs == Stack(c).pairs <==> !OlderEntryLeft(c))
            && (!OlderEntryLeft(c) ==> Pnl(rows, q) == Gains(q.direction, Stack(c).pairs))
  {
    WalkCounting(Book(0.0, None), rows, q);
    CountingCounts(rows, q);
    WalkPairs(Counting(rows, q), q);
    PairsOrStacks(Counting(rows, q));
  }
}
