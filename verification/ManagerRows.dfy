/** The rows of bots.json: backend/bot_manager.py `load` and `_rows_to_save`. */
module ManagerRows {
  import opened BotTypes
  import opened Seqs

  type Id = nat

  datatype Status = Stopped | Backtesting | Running | Errored

  /** error_message: none, the recovery note of run()'s backoff, or another one. */
  datatype Note = NoError | Recovering | OtherError

  /** What of a bot matters to the manager.  holds: entry_price or position_direction is set. */
  datatype Bot = Bot(
    symbol: string, side: Side, bothSides: bool, graph: bool, capital: real,
    status: Status, pause: bool, error: Note, wasRunning: bool, userStopped: bool, holds: bool, exitsOnly: bool)

  /** A bot's config and state, as far as a row carries them. */
  datatype Row = Readable(id: Id, bot: Bot) | Unreadable(raw: string)

  /** A row load() could not read, with the bot that loaded before it, if any. */
  datatype Kept = Kept(anchor: Option<Id>, raw: string)

  /** The manager's bots: a dictionary in insertion order. */
  datatype Table = Table(order: seq<Id>, bots: map<Id, Bot>)

  predicate Distinct<T(==)>(s: seq<T>) {
    forall i, j | 0 <= i < j < |s| :: s[i] != s[j]
  }

  predicate ValidTable(t: Table) {
    && Distinct(t.order)
    && (forall id <- t.order :: id in t.bots)
    && (forall id <- t.bots :: id in t.order)
  }

  /** self.bots[id] = bot: a new key goes last, a known one keeps its place. */
  function Put(t: Table, id: Id, bot: Bot): Table {
    Table(if id in t.bots then t.order else t.order + [id], t.bots[id := bot])
  }

  function Without(order: seq<Id>, id: Id): seq<Id> {
    if order == [] then [] else (if order[0] == id then [] else [order[0]]) + Without(order[1..], id)
  }

  function Remove(t: Table, id: Id): Table {
    Table(Without(t.order, id), t.bots - {id})
  }

  // ---- load ----

  datatype Loading = Loading(table: Table, kept: seq<Kept>, previous: Option<Id>)

  function LoadRow(l: Loading, row: Row): Loading {
    match row
    case Readable(id, bot) => Loading(Put(l.table, id, bot), l.kept, Some(id))
    case Unreadable(raw) => l.(kept := l.kept + [Kept(l.previous, raw)])
  }

  function LoadRows(rows: seq<Row>): Loading {
    if rows == [] then Loading(Table([], map[]), [], None)
    else LoadRow(LoadRows(rows[..|rows| - 1]), rows[|rows| - 1])
  }

  // ---- save ----

  /** The kept rows with this anchor, in their order. */
  function RawsOf(kept: seq<Kept>, anchor: Option<Id>): seq<Row> {
    if kept == [] then []
    else
      RawsOf(kept[..|kept| - 1], anchor)
      + if kept[|kept| - 1].anchor == anchor then [Unreadable(kept[|kept| - 1].raw)] else []
  }

  /** Every bot's row with the kept rows that followed it. */
  function Body(order: seq<Id>, bots: map<Id, Bot>, kept: seq<Kept>): seq<Row>
    requires forall id <- order :: id in bots
  {
    if order == [] then []
    else
      var id := order[|order| - 1];
      Body(order[..|order| - 1], bots, kept) + [Readable(id, bots[id])] + RawsOf(kept, Some(id))
  }

  /** The anchors in the order they are met first. */
  function Anchors(kept: seq<Kept>): seq<Option<Id>> {
    if kept == [] then []
    else
      var before := Anchors(kept[..|kept| - 1]);
      if kept[|kept| - 1].anchor in before then before else before + [kept[|kept| - 1].anchor]
  }

  /** The kept rows whose anchor is gone. */
  function Leftovers(anchors: seq<Option<Id>>, bots: map<Id, Bot>, kept: seq<Kept>): seq<Row> {
    if anchors == [] then []
    else
      var a := anchors[|anchors| - 1];
      Leftovers(anchors[..|anchors| - 1], bots, kept)
      + if a.None? || a.value in bots then [] else RawsOf(kept, a)
  }

  /** _rows_to_save. */
  function RowsToSave(t: Table, kept: seq<Kept>): seq<Row>
    requires forall id <- t.order :: id in t.bots
  {
    RawsOf(kept, None) + Body(t.order, t.bots, kept) + Leftovers(Anchors(kept), t.bots, kept)
  }

  // ---- load then save gives the rows back ----

  predicate DistinctIds(rows: seq<Row>) {
    forall i, j | 0 <= i < j < |rows| && rows[i].Readable? && rows[j].Readable? :: rows[i].id != rows[j].id
  }

  predicate Anchored(l: Loading) {
    && ValidTable(l.table)
    && (forall k <- l.kept :: k.anchor.Some? ==> k.anchor.value in l.table.bots)
    && (if l.table.order == [] then l.previous.None? else l.previous == Some(l.table.order[|l.table.order| - 1]))
  }

  lemma {:induction false} NoRaws(kept: seq<Kept>, anchor: Option<Id>)
    requires forall k <- kept :: k.anchor != anchor
    ensures RawsOf(kept, anchor) == []
  {
    if kept != [] { NoRaws(kept[..|kept| - 1], anchor); }
  }

  lemma {:induction false} NoLeftovers(anchors: seq<Option<Id>>, bots: map<Id, Bot>, kept: seq<Kept>)
    requires forall a <- anchors :: a.Some? ==> a.value in bots
    ensures Leftovers(anchors, bots, kept) == []
  {
    if anchors != [] { NoLeftovers(anchors[..|anchors| - 1], bots, kept); }
  }

  lemma {:induction false} AnchorsAreMet(kept: seq<Kept>)
    ensures forall a <- Anchors(kept) :: exists k <- kept :: k.anchor == a
    ensures forall k <- kept :: k.anchor in Anchors(kept)
    ensures Distinct(Anchors(kept))
  {
    if kept != [] {
      var n := |kept| - 1;
      AnchorsAreMet(kept[..n]);
      assert kept == kept[..n] + [kept[n]];
      forall a <- Anchors(kept) ensures exists k <- kept :: k.anchor == a {
        if a in Anchors(kept[..n]) {
          var k :| k in kept[..n] && k.anchor == a;
          assert k in kept;
        } else {
          assert kept[n] in kept;
        }
      }
    }
  }

  /** A bot that loads last only adds its row. */
  lemma {:induction false} BodyGrows(order: seq<Id>, bots: map<Id, Bot>, more: map<Id, Bot>, kept: seq<Kept>)
    requires forall id <- order :: id in bots && id in more && more[id] == bots[id]
    ensures Body(order, more, kept) == Body(order, bots, kept)
  {
    if order != [] { BodyGrows(order[..|order| - 1], bots, more, kept); }
  }

  /** A kept row with the last bot as its anchor only adds itself at the end. */
  lemma {:induction false} BodyKeeps(order: seq<Id>, bots: map<Id, Bot>, kept: seq<Kept>, k: Kept)
    requires forall id <- order :: id in bots && k.anchor != Some(id)
    ensures Body(order, bots, kept + [k]) == Body(order, bots, kept)
  {
    if order != [] {
      assert (kept + [k])[..|kept|] == kept;
      BodyKeeps(order[..|order| - 1], bots, kept, k);
    }
  }

  lemma RawsGrow(kept: seq<Kept>, k: Kept, anchor: Option<Id>)
    ensures RawsOf(kept + [k], anchor) == RawsOf(kept, anchor) + if k.anchor == anchor then [Unreadable(k.raw)] else []
  {
    assert (kept + [k])[..|kept|] == kept;
  }

  lemma SavedIs(l: Loading)
    requires Anchored(l)
    ensures RowsToSave(l.table, l.kept) == RawsOf(l.kept, None) + Body(l.table.order, l.table.bots, l.kept)
  {
    AnchorsAreMet(l.kept);
    NoLeftovers(Anchors(l.kept), l.table.bots, l.kept);
  }

  lemma BodyAppend(order: seq<Id>, id: Id, bots: map<Id, Bot>, kept: seq<Kept>)
    requires id in bots && forall x <- order :: x in bots
    ensures Body(order + [id], bots, kept) == Body(order, bots, kept) + [Readable(id, bots[id])] + RawsOf(kept, Some(id))
  {
    assert (order + [id])[..|order|] == order;
  }

  lemma ReadableSaves(l: Loading, id: Id, bot: Bot)
    requires Anchored(l) && id !in l.table.bots
    ensures var l1 := LoadRow(l, Readable(id, bot));
            Anchored(l1) && RowsToSave(l1.table, l1.kept) == RowsToSave(l.table, l.kept) + [Readable(id, bot)]
  {
    hide RowsToSave, RawsOf, Leftovers, Anchors, Body;
    var l1 := LoadRow(l, Readable(id, bot));
    assert Anchored(l1);
    SavedIs(l);
    SavedIs(l1);
    BodyGrows(l.table.order, l.table.bots, l1.table.bots, l.kept);
    NoRaws(l.kept, Some(id));
    BodyAppend(l.table.order, id, l1.table.bots, l.kept);
  }

  lemma UnreadableSaves(l: Loading, raw: string)
    requires Anchored(l)
    ensures var l1 := LoadRow(l, Unreadable(raw));
            Anchored(l1) && RowsToSave(l1.table, l1.kept) == RowsToSave(l.table, l.kept) + [Unreadable(raw)]
  {
    hide RowsToSave, RawsOf, Leftovers, Anchors;
    var k := Kept(l.previous, raw);
    assert Anchored(LoadRow(l, Unreadable(raw)));
    SavedIs(l);
    SavedIs(LoadRow(l, Unreadable(raw)));
    RawsGrow(l.kept, k, None);
    if l.table.order != [] {
      var n := |l.table.order| - 1;
      BodyKeeps(l.table.order[..n], l.table.bots, l.kept, k);
      RawsGrow(l.kept, k, l.previous);
    }
  }

  lemma {:induction false} LoadedIds(rows: seq<Row>, id: Id)
    ensures id in LoadRows(rows).table.bots ==> exists i | 0 <= i < |rows| :: rows[i].Readable? && rows[i].id == id
  {
    if rows != [] {
      var n := |rows| - 1;
      LoadedIds(rows[..n], id);
      if id in LoadRows(rows[..n]).table.bots {
        var i :| 0 <= i < n && rows[..n][i].Readable? && rows[..n][i].id == id;
        assert rows[i].Readable? && rows[i].id == id;
      }
    }
  }

  /** With distinct bot ids the rows are written back as they were, in their order. */
  lemma {:induction false} LoadThenSaveDistinct(rows: seq<Row>)
    requires DistinctIds(rows)
    ensures var l := LoadRows(rows); Anchored(l) && RowsToSave(l.table, l.kept) == rows
  {
    hide RowsToSave, RawsOf, Leftovers, Anchors, Body, DistinctIds, Anchored, LoadRows, LoadRow;
    if rows == [] {
      EmptySaves();
    } else {
      var n := |rows| - 1;
      DistinctBefore(rows);
      LoadThenSaveDistinct(rows[..n]);
      LoadsLast(rows);
      RowSaves(rows[..n], rows[n]);
      assert rows == rows[..n] + [rows[n]];
    }
  }

  lemma EmptySaves()
    ensures var l := LoadRows([]); Anchored(l) && RowsToSave(l.table, l.kept) == []
  {
  }

  lemma LoadsLast(rows: seq<Row>)
    requires rows != []
    ensures LoadRows(rows) == LoadRow(LoadRows(rows[..|rows| - 1]), rows[|rows| - 1])
  {
  }

  lemma DistinctBefore(rows: seq<Row>)
    requires DistinctIds(rows) && rows != []
    ensures var n := |rows| - 1;
            DistinctIds(rows[..n]) && (rows[n].Readable? ==> forall r <- rows[..n] :: r.Readable? ==> r.id != rows[n].id)
  {
  }

  lemma RowSaves(before: seq<Row>, row: Row)
    requires row.Readable? ==> forall r <- before :: r.Readable? ==> r.id != row.id
    requires Anchored(LoadRows(before))
    ensures var l := LoadRows(before);
            var l1 := LoadRow(l, row);
            Anchored(l1) && RowsToSave(l1.table, l1.kept) == RowsToSave(l.table, l.kept) + [row]
  {
    hide RowsToSave, Anchored, LoadRows, LoadRow;
    match row
    case Readable(id, bot) =>
      LoadedIds(before, id);
      ReadableSaves(LoadRows(before), id, bot);
    case Unreadable(raw) => UnreadableSaves(LoadRows(before), raw);
  }

  lemma {:induction false} LoadedValid(rows: seq<Row>)
    ensures ValidTable(LoadRows(rows).table)
  {
    if rows != [] { LoadedValid(rows[..|rows| - 1]); }
  }

  lemma {:induction false} RawsAreRaw(kept: seq<Kept>, anchor: Option<Id>)
    ensures forall r <- RawsOf(kept, anchor) :: r.Unreadable?
  {
    if kept != [] { RawsAreRaw(kept[..|kept| - 1], anchor); }
  }

  lemma {:induction false} LeftoversAreRaw(anchors: seq<Option<Id>>, bots: map<Id, Bot>, kept: seq<Kept>)
    ensures forall r <- Leftovers(anchors, bots, kept) :: r.Unreadable?
  {
    if anchors != [] {
      LeftoversAreRaw(anchors[..|anchors| - 1], bots, kept);
      RawsAreRaw(kept, anchors[|anchors| - 1]);
    }
  }

  /** The ids of the readable rows, in their order. */
  function Ids(rows: seq<Row>): seq<Id> {
    if rows == [] then []
    else Ids(rows[..|rows| - 1]) + if rows[|rows| - 1].Readable? then [rows[|rows| - 1].id] else []
  }

  lemma {:induction false} IdsConcat(a: seq<Row>, b: seq<Row>)
    ensures Ids(a + b) == Ids(a) + Ids(b)
  {
    if b == [] {
      assert a + b == a;
    } else {
      hide Ids;
      var n := |b| - 1;
      IdsConcat(a, b[..n]);
      SplitLast(a, b);
      IdsLast(a + b[..n], b[n]);
      IdsLast(b[..n], b[n]);
    }
  }

  lemma IdsLast(rows: seq<Row>, row: Row)
    ensures Ids(rows + [row]) == Ids(rows) + if row.Readable? then [row.id] else []
  {
    assert (rows + [row])[..|rows|] == rows;
  }

  lemma {:induction false} NoIds(rows: seq<Row>)
    requires forall r <- rows :: r.Unreadable?
    ensures Ids(rows) == []
  {
    if rows != [] {
      NoIds(rows[..|rows| - 1]);
      assert rows[|rows| - 1] in rows;
    }
  }

  lemma IdsOne(row: Row)
    ensures Ids([row]) == if row.Readable? then [row.id] else []
  {
    assert [row][..0] == [];
  }

  lemma {:induction false} BodyIds(order: seq<Id>, bots: map<Id, Bot>, kept: seq<Kept>)
    requires forall id <- order :: id in bots
    ensures Ids(Body(order, bots, kept)) == order
  {
    if order != [] {
      var n := |order| - 1;
      var row, raws := Readable(order[n], bots[order[n]]), RawsOf(kept, Some(order[n]));
      var before := Body(order[..n], bots, kept);
      assert Body(order, bots, kept) == before + [row] + raws;
      hide RawsOf, Ids, Body;
      BodyIds(order[..n], bots, kept);
      RawsAreRaw(kept, Some(order[n]));
      NoIds(raws);
      IdsOne(row);
      IdsConcat(before + [row], raws);
      IdsConcat(before, [row]);
      SplitLast([], order);
    }
  }

  /** The readable rows are the manager's bots, in its order. */
  lemma SavedInOrder(t: Table, kept: seq<Kept>)
    requires ValidTable(t)
    ensures Ids(RowsToSave(t, kept)) == t.order
  {
    hide Body, RawsOf, Leftovers, Anchors;
    var head, body, tail := RawsOf(kept, None), Body(t.order, t.bots, kept), Leftovers(Anchors(kept), t.bots, kept);
    RawsAreRaw(kept, None);
    NoIds(head);
    LeftoversAreRaw(Anchors(kept), t.bots, kept);
    NoIds(tail);
    BodyIds(t.order, t.bots, kept);
    IdsConcat(head, body);
    IdsConcat(head + body, tail);
  }

  /** No row is the bot's. */
  predicate NoRowOf(rows: seq<Row>, id: Id) {
    forall r <- rows :: r.Readable? ==> r.id != id
  }

  lemma {:induction false} IdIsIn(rows: seq<Row>, id: Id)
    ensures id in Ids(rows) <==> !NoRowOf(rows, id)
  {
    if rows != [] {
      var n := |rows| - 1;
      IdIsIn(rows[..n], id);
      assert rows == rows[..n] + [rows[n]];
    }
  }

  lemma {:induction false} DistinctIdsIff(rows: seq<Row>)
    ensures DistinctIds(rows) <==> Distinct(Ids(rows))
  {
    hide DistinctIds, Distinct, Ids, NoRowOf;
    if rows == [] {
      NoneDistinct();
    } else {
      var before, row := rows[..|rows| - 1], rows[|rows| - 1];
      assert rows == before + [row];
      DistinctIdsIff(before);
      DistinctAppend(before, row);
      IdsLast(before, row);
      if row.Readable? {
        IdIsIn(before, row.id);
        DistinctOneMore(Ids(before), row.id);
      } else {
        assert Ids(before) + [] == Ids(before);
      }
    }
  }

  lemma NoneDistinct()
    ensures DistinctIds([]) && Distinct(Ids([]))
  {
  }

  lemma DistinctAppend(before: seq<Row>, row: Row)
    ensures DistinctIds(before + [row]) <==> DistinctIds(before) && (row.Readable? ==> NoRowOf(before, row.id))
  {
    var rows := before + [row];
    if DistinctIds(rows) {
      forall i, j | 0 <= i < j < |before| && before[i].Readable? && before[j].Readable? ensures before[i].id != before[j].id {
        assert rows[i] == before[i] && rows[j] == before[j];
      }
      if row.Readable? {
        forall r <- before | r.Readable? ensures r.id != row.id {
          var i :| 0 <= i < |before| && before[i] == r;
          assert rows[i] == r && rows[|before|] == row;
        }
      }
    }
  }

  lemma DistinctOneMore<T>(s: seq<T>, x: T)
    ensures Distinct(s + [x]) <==> Distinct(s) && x !in s
  {
    var more := s + [x];
    if Distinct(more) {
      forall i, j | 0 <= i < j < |s| ensures s[i] != s[j] { assert more[i] == s[i] && more[j] == s[j]; }
      forall i | 0 <= i < |s| ensures s[i] != x { assert more[i] == s[i] && more[|s|] == x; }
    }
  }

  /** ... and only then: a second row with the same id takes the place of the first. */
  lemma LoadThenSaveIff(rows: seq<Row>)
    ensures ValidTable(LoadRows(rows).table)
    ensures RowsToSave(LoadRows(rows).table, LoadRows(rows).kept) == rows <==> DistinctIds(rows)
  {
    LoadedValid(rows);
    if DistinctIds(rows) {
      LoadThenSaveDistinct(rows);
    } else {
      var l := LoadRows(rows);
      if RowsToSave(l.table, l.kept) == rows {
        SavedInOrder(l.table, l.kept);
        DistinctIdsIff(rows);
        assert false;
      }
    }
  }


  // ---- no unreadable row is lost ----

  /** The unreadable rows. */
  function Raws(rows: seq<Row>): multiset<string> {
    if rows == [] then multiset{}
    else Raws(rows[..|rows| - 1]) + if rows[|rows| - 1].Unreadable? then multiset{rows[|rows| - 1].raw} else multiset{}
  }

  function KeptRaws(kept: seq<Kept>): multiset<string> {
    if kept == [] then multiset{} else KeptRaws(kept[..|kept| - 1]) + multiset{kept[|kept| - 1].raw}
  }

  lemma RawsLast(rows: seq<Row>, row: Row)
    ensures Raws(rows + [row]) == Raws(rows) + if row.Unreadable? then multiset{row.raw} else multiset{}
  {
    assert (rows + [row])[..|rows|] == rows;
  }

  lemma {:induction false} RawsConcat(a: seq<Row>, b: seq<Row>)
    ensures Raws(a + b) == Raws(a) + Raws(b)
  {
    if b == [] {
      assert a + b == a;
    } else {
      hide Raws;
      var n := |b| - 1;
      RawsConcat(a, b[..n]);
      SplitLast(a, b);
      RawsLast(a + b[..n], b[n]);
      RawsLast(b[..n], b[n]);
    }
  }

  lemma RawsOne(row: Row)
    ensures Raws([row]) == if row.Unreadable? then multiset{row.raw} else multiset{}
  {
    assert [row][..0] == [];
  }

  lemma RawsAdd(kept: seq<Kept>, k: Kept, anchor: Option<Id>)
    ensures Raws(RawsOf(kept + [k], anchor))
         == Raws(RawsOf(kept, anchor)) + if k.anchor == anchor then multiset{k.raw} else multiset{}
  {
    hide Raws, RawsOf;
    RawsGrow(kept, k, anchor);
    RawsConcat(RawsOf(kept, anchor), [Unreadable(k.raw)]);
    RawsOne(Unreadable(k.raw));
    assert RawsOf(kept, anchor) + [] == RawsOf(kept, anchor);
  }

  lemma LastOfDistinct<T>(s: seq<T>, x: T)
    requires Distinct(s) && s != []
    ensures x in s <==> x in s[..|s| - 1] || x == s[|s| - 1]
    ensures x == s[|s| - 1] ==> x !in s[..|s| - 1]
  {
    assert s == s[..|s| - 1] + [s[|s| - 1]];
  }

  lemma {:induction false} BodyAdd(order: seq<Id>, bots: map<Id, Bot>, kept: seq<Kept>, k: Kept)
    requires Distinct(order) && forall id <- order :: id in bots
    ensures Raws(Body(order, bots, kept + [k]))
         == Raws(Body(order, bots, kept)) + if k.anchor.Some? && k.anchor.value in order then multiset{k.raw} else multiset{}
  {
    hide Body, Raws, RawsOf;
    if order == [] {
      NoBody(bots, kept);
      NoBody(bots, kept + [k]);
    } else {
      var n := |order| - 1;
      BodyAdd(order[..n], bots, kept, k);
      RawsAdd(kept, k, Some(order[n]));
      BodyRaws(order, bots, kept);
      BodyRaws(order, bots, kept + [k]);
      if k.anchor.Some? { LastOfDistinct(order, k.anchor.value); }
    }
  }

  lemma NoBody(bots: map<Id, Bot>, kept: seq<Kept>)
    ensures Body([], bots, kept) == []
  {
  }

  lemma BodyRaws(order: seq<Id>, bots: map<Id, Bot>, kept: seq<Kept>)
    requires order != [] && forall id <- order :: id in bots
    ensures Raws(Body(order, bots, kept))
         == Raws(Body(order[..|order| - 1], bots, kept)) + Raws(RawsOf(kept, Some(order[|order| - 1])))
  {
    var n := |order| - 1;
    var row := Readable(order[n], bots[order[n]]);
    RawsConcat(Body(order[..n], bots, kept) + [row], RawsOf(kept, Some(order[n])));
    RawsConcat(Body(order[..n], bots, kept), [row]);
    RawsOne(row);
  }

  lemma {:induction false} LeftAdd(anchors: seq<Option<Id>>, bots: map<Id, Bot>, kept: seq<Kept>, k: Kept)
    requires Distinct(anchors)
    ensures Raws(Leftovers(anchors, bots, kept + [k]))
         == Raws(Leftovers(anchors, bots, kept))
            + if k.anchor in anchors && k.anchor.Some? && k.anchor.value !in bots then multiset{k.raw} else multiset{}
  {
    hide Leftovers, Raws, RawsOf;
    if anchors == [] {
      NoAnchors(bots, kept);
      NoAnchors(bots, kept + [k]);
    } else {
      var n := |anchors| - 1;
      LeftAdd(anchors[..n], bots, kept, k);
      RawsAdd(kept, k, anchors[n]);
      LeftRaws(anchors, bots, kept);
      LeftRaws(anchors, bots, kept + [k]);
      LastOfDistinct(anchors, k.anchor);
    }
  }

  lemma NoAnchors(bots: map<Id, Bot>, kept: seq<Kept>)
    ensures Leftovers([], bots, kept) == []
  {
  }

  lemma LeftRaws(anchors: seq<Option<Id>>, bots: map<Id, Bot>, kept: seq<Kept>)
    requires anchors != []
    ensures Raws(Leftovers(anchors, bots, kept))
         == Raws(Leftovers(anchors[..|anchors| - 1], bots, kept))
            + if anchors[|anchors| - 1].None? || anchors[|anchors| - 1].value in bots then multiset{}
              else Raws(RawsOf(kept, anchors[|anchors| - 1]))
  {
    var n := |anchors| - 1;
    RawsConcat(Leftovers(anchors[..n], bots, kept), RawsOf(kept, anchors[n]));
    assert Leftovers(anchors[..n], bots, kept) + [] == Leftovers(anchors[..n], bots, kept);
  }

  lemma SavedRaws(t: Table, kept: seq<Kept>)
    requires ValidTable(t)
    ensures Raws(RowsToSave(t, kept))
         == Raws(RawsOf(kept, None)) + Raws(Body(t.order, t.bots, kept)) + Raws(Leftovers(Anchors(kept), t.bots, kept))
  {
    var head, body, tail := RawsOf(kept, None), Body(t.order, t.bots, kept), Leftovers(Anchors(kept), t.bots, kept);
    RawsConcat(head, body);
    RawsConcat(head + body, tail);
  }

  lemma LeftoversOneMore(bots: map<Id, Bot>, kept: seq<Kept>, k: Kept)
    ensures Raws(Leftovers(Anchors(kept + [k]), bots, kept + [k]))
         == Raws(Leftovers(Anchors(kept), bots, kept))
            + if k.anchor.Some? && k.anchor.value !in bots then multiset{k.raw} else multiset{}
  {
    hide Leftovers, Raws, Distinct;
    AnchorsAreMet(kept);
    LeftAdd(Anchors(kept), bots, kept, k);
    if k.anchor !in Anchors(kept) { NewAnchor(bots, kept, k); } else { OldAnchor(kept, k); }
  }

  lemma OldAnchor(kept: seq<Kept>, k: Kept)
    requires k.anchor in Anchors(kept)
    ensures Anchors(kept + [k]) == Anchors(kept)
  {
    assert (kept + [k])[..|kept|] == kept;
  }

  /** One more kept row is one more row written, wherever its anchor is. */
  lemma OneMoreKept(t: Table, kept: seq<Kept>, k: Kept)
    requires ValidTable(t)
    ensures Raws(RowsToSave(t, kept + [k])) == Raws(RowsToSave(t, kept)) + multiset{k.raw}
  {
    hide RowsToSave, RawsOf, Body, Leftovers, Raws, Anchors;
    SavedRaws(t, kept);
    SavedRaws(t, kept + [k]);
    RawsAdd(kept, k, None);
    BodyAdd(t.order, t.bots, kept, k);
    LeftoversOneMore(t.bots, kept, k);
    ghost var none: multiset<string> := multiset{};
    var h, b, l := Raws(RawsOf(kept, None)), Raws(Body(t.order, t.bots, kept)), Raws(Leftovers(Anchors(kept), t.bots, kept));
    var x := multiset{k.raw};
    if k.anchor.None? {
      SumOfThree(h, b, l, x, none, none);
    } else if k.anchor.value in t.bots {
      SumOfThree(h, b, l, none, x, none);
    } else {
      SumOfThree(h, b, l, none, none, x);
    }
  }

  lemma SumOfThree<T>(a: multiset<T>, b: multiset<T>, c: multiset<T>, x: multiset<T>, y: multiset<T>, z: multiset<T>)
    ensures (a + x) + (b + y) + (c + z) == (a + b + c) + (x + y + z)
  {
  }

  /** Whatever bots were added, deleted or reordered since the load, every kept row is written, and
      written once. */
  lemma {:induction false} KeptRowsAreSavedOnce(t: Table, kept: seq<Kept>)
    requires ValidTable(t)
    ensures Raws(RowsToSave(t, kept)) == KeptRaws(kept)
  {
    hide RowsToSave, Raws, ValidTable;
    if kept == [] {
      NothingKept(t);
    } else {
      var n := |kept| - 1;
      assert kept == kept[..n] + [kept[n]];
      KeptRowsAreSavedOnce(t, kept[..n]);
      OneMoreKept(t, kept[..n], kept[n]);
    }
  }

  lemma NothingKept(t: Table)
    requires ValidTable(t)
    ensures Raws(RowsToSave(t, [])) == multiset{}
  {
    SavedRaws(t, []);
    BodyOfNone(t.order, t.bots);
  }

  lemma {:induction false} BodyOfNone(order: seq<Id>, bots: map<Id, Bot>)
    requires forall id <- order :: id in bots
    ensures Raws(Body(order, bots, [])) == multiset{}
  {
    if order != [] {
      BodyRaws(order, bots, []);
      BodyOfNone(order[..|order| - 1], bots);
    }
  }

  lemma NewAnchor(bots: map<Id, Bot>, kept: seq<Kept>, k: Kept)
    requires k.anchor !in Anchors(kept)
    ensures Raws(Leftovers(Anchors(kept + [k]), bots, kept + [k]))
         == Raws(Leftovers(Anchors(kept), bots, kept + [k]))
            + if k.anchor.None? || k.anchor.value in bots then multiset{} else multiset{k.raw}
  {
    assert (kept + [k])[..|kept|] == kept;
    var anchors := Anchors(kept) + [k.anchor];
    assert anchors[..|anchors| - 1] == Anchors(kept);
    AnchorsAreMet(kept);
    LeftRaws(anchors, bots, kept + [k]);
    NoRaws(kept, k.anchor);
    RawsAdd(kept, k, k.anchor);
  }

  /** The kept rows of a bot come directly after its row, in their order. */
  lemma KeptRowsFollowTheirBot(t: Table, kept: seq<Kept>, id: Id)
    requires ValidTable(t) && id in t.bots
    ensures exists before, after ::
              RowsToSave(t, kept) == before + [Readable(id, t.bots[id])] + RawsOf(kept, Some(id)) + after
  {
    hide RawsOf, Body, Leftovers, Anchors;
    var b, a := BodySplits(t.order, t.bots, kept, id);
    var head, tail := RawsOf(kept, None), Leftovers(Anchors(kept), t.bots, kept);
    var row, raws := Readable(id, t.bots[id]), RawsOf(kept, Some(id));
    assert head + (b + [row] + raws + a) + tail == (head + b) + [row] + raws + (a + tail);
  }

  lemma {:induction false} BodySplits(order: seq<Id>, bots: map<Id, Bot>, kept: seq<Kept>, id: Id)
    returns (before: seq<Row>, after: seq<Row>)
    requires id in order && forall x <- order :: x in bots
    ensures Body(order, bots, kept) == before + [Readable(id, bots[id])] + RawsOf(kept, Some(id)) + after
  {
    var n := |order| - 1;
    if order[n] == id {
      before, after := Body(order[..n], bots, kept), [];
    } else {
      before, after := BodySplits(order[..n], bots, kept, id);
      after := after + [Readable(order[n], bots[order[n]])] + RawsOf(kept, Some(order[n]));
    }
  }
}
