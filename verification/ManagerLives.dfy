/** The bots of a manager over its whole life, over shutdowns, crashes and boots: what is saved, what
    is resumed and what may run together. */
module ManagerLives {
  import opened BotTypes
  import opened ManagerRows
  import opened BotManager

  /** What happens to the manager.  ok: the save at the end of it is written. */
  datatype Turn =
    | Adds(ids: seq<Id>, legs: seq<Bot>, ok: bool)
    | Deletes(id: Id, ok: bool)
    | Reorders(ids: seq<Id>, ok: bool)
    | Starts(id: Id, check: Check, ok: bool)
    | Begins(id: Id)
    | Notes(id: Id, status: Status, pause: bool, error: Note, holds: bool, exitsOnly: bool)
    | Ends(id: Id)
    | Saves(ok: bool)
    | Stops(id: Id, closed: bool, ok: bool)
    | ShutsDown(ok: bool)
    | SetsFund(amount: real, ok: bool)
    | Edits(id: Id, capital: real, ok: bool)
    | Boots(legacy: set<Id>, refused: set<Id>, g: Graphs, loaded: bool, ok: bool)

  /** Boot: load() and resume_was_running() in a new process. */
  function Boot(m: Server, legacy: set<Id>, refused: set<Id>, g: Graphs, loaded: bool, ok: bool): Server {
    LoadIsValid(m, legacy, refused, loaded);
    Resume(Load(m, legacy, refused, loaded), g, ok)
  }

  lemma LoadIsValid(m: Server, legacy: set<Id>, refused: set<Id>, ok: bool)
    ensures ValidTable(Load(m, legacy, refused, ok).table)
  {
    LoadedValid(LoadEntries(m.disk, legacy, refused));
  }

  function Turned(m: Server, t: Turn): (m1: Server)
    requires ValidTable(m.table)
    ensures ValidTable(m1.table)
  {
    match t
    case Adds(ids, legs, ok) =>
      if |ids| == |legs| && Distinct(ids) && (forall id <- ids :: id !in m.table.bots) then AddBots(m, ids, legs, ok) else m
    case Deletes(id, ok) => RemoveValid(m.table, id); DeleteBot(m, id, ok)
    case Reorders(ids, ok) => ReorderedAll(m.table, ids); Reorder(m, ids, ok)
    case Starts(id, check, ok) => RequestStart(m, id, check, ok)
    case Begins(id) => RunBegins(m, id)
    case Notes(id, status, pause, error, holds, exitsOnly) => RunnerNotes(m, id, status, pause, error, holds, exitsOnly)
    case Ends(id) => RunEnds(m, id)
    case Saves(ok) => Save(m, ok)
    case Stops(id, closed, ok) => StopAndSave(m, id, closed, ok)
    case ShutsDown(ok) => Shutdown(m, ok)
    case SetsFund(amount, ok) => SetFund(m, amount, ok)
    case Edits(id, capital, ok) => EditCapital(m, id, capital, ok)
    case Boots(legacy, refused, g, loaded, ok) =>
      LoadIsValid(m, legacy, refused, loaded);
      Boot(m, legacy, refused, g, loaded, ok)
  }

  function Played(m: Server, turns: seq<Turn>): (m1: Server)
    requires ValidTable(m.table)
    ensures ValidTable(m1.table)
  {
    if turns == [] then m else Turned(Played(m, turns[..|turns| - 1]), turns[|turns| - 1])
  }

  // ---- a saved file read back ----

  lemma {:induction false} LoadAfter(rows: seq<Row>, more: seq<Row>)
    requires forall r <- more :: r.Unreadable?
    ensures LoadRows(rows + more).table == LoadRows(rows).table
  {
    if more == [] {
      assert rows + more == rows;
    } else {
      var n := |more| - 1;
      LoadAfter(rows, more[..n]);
      assert (rows + more)[..|rows| + n] == rows + more[..n];
      assert more[n] in more && (rows + more)[|rows| + n] == more[n];
    }
  }

  lemma LoadOne(rows: seq<Row>, id: Id, b: Bot)
    ensures LoadRows(rows + [Readable(id, b)]).table == Put(LoadRows(rows).table, id, b)
  {
    assert (rows + [Readable(id, b)])[..|rows|] == rows;
  }

  lemma {:induction false} LoadBody(head: seq<Row>, order: seq<Id>, bots: map<Id, Bot>, kept: seq<Kept>)
    requires Distinct(order) && (forall id <- order :: id in bots) && forall r <- head :: r.Unreadable?
    ensures var t := LoadRows(head + Body(order, bots, kept)).table;
            && t.order == order && (forall id :: id in t.bots <==> id in order) && forall id <- order :: t.bots[id] == bots[id]
  {
    hide RawsOf, LoadRows;
    if order == [] {
      LoadAfter([], head);
      EmptyLoads();
      assert [] + head == head == head + Body(order, bots, kept);
    } else {
      var n := |order| - 1;
      var id, raws := order[n], RawsOf(kept, Some(order[n]));
      DistinctInit(order);
      LoadBody(head, order[..n], bots, kept);
      var before := head + Body(order[..n], bots, kept);
      LoadOne(before, id, bots[id]);
      RawsAreRaw(kept, Some(id));
      LoadAfter(before + [Readable(id, bots[id])], raws);
      assert head + Body(order, bots, kept) == before + [Readable(id, bots[id])] + raws;
      assert order == order[..n] + [id];
    }
  }

  lemma EmptyLoads()
    ensures LoadRows([]).table == Table([], map[])
  {
  }

  /** Saving and loading gives the same bots in the same order. */
  lemma SaveThenLoad(t: Table, kept: seq<Kept>)
    requires ValidTable(t)
    ensures LoadRows(RowsToSave(t, kept)).table == t
  {
    hide RawsOf, Body, Leftovers, LoadRows;
    RawsAreRaw(kept, None);
    LeftoversAreRaw(Anchors(kept), t.bots, kept);
    LoadBody(RawsOf(kept, None), t.order, t.bots, kept);
    LoadAfter(RawsOf(kept, None) + Body(t.order, t.bots, kept), Leftovers(Anchors(kept), t.bots, kept));
    var t1 := LoadRows(RowsToSave(t, kept)).table;
    assert t1.bots == t.bots;
  }

  lemma {:induction false} EntriesLoad(rows: seq<Row>, legacy: set<Id>, refused: set<Id>)
    ensures var t, l := LoadRows(rows).table, LoadRows(LoadEntries(rows, legacy, refused)).table;
            && l.order == t.order && l.bots.Keys == t.bots.Keys
            && forall id <- t.bots :: l.bots[id] == LoadBot(t.bots[id], id in legacy, id in refused)
  {
    if rows != [] {
      var n := |rows| - 1;
      EntriesLoad(rows[..n], legacy, refused);
      assert LoadEntries(rows, legacy, refused)[..n] == LoadEntries(rows[..n], legacy, refused);
    }
  }

  // ---- the file after a load ----

  lemma {:induction false} SomeBotLoads(rows: seq<Row>)
    ensures LoadRows(rows).table.order == [] ==> forall r <- rows :: r.Unreadable?
  {
    if rows != [] {
      SomeBotLoads(rows[..|rows| - 1]);
      LoadedValid(rows[..|rows| - 1]);
      assert rows == rows[..|rows| - 1] + [rows[|rows| - 1]];
    }
  }

  /** What load() changes of a bot, and nothing else. */
  predicate LoadedFrom(b: Bot, l: Bot, legacy: bool, refused: bool) {
    var errs := b.graph && refused && !b.holds && !b.exitsOnly;
    && l == b.(status := l.status, wasRunning := l.wasRunning, userStopped := l.userStopped, pause := l.pause,
               error := l.error, exitsOnly := l.exitsOnly)
    && l.status == (if errs then Errored else Stopped)
    && (l.wasRunning <==> b.status == Running)
    && (l.userStopped <==> b.userStopped || (legacy && b.status != Running))
    && (l.exitsOnly <==> b.exitsOnly || (b.graph && refused && b.holds))
    && (if errs then l.pause && l.error == OtherError else l.pause == b.pause && l.error == b.error)
  }

  /** The row's bot as load() leaves it; a row that cannot be read as it is. */
  predicate RowLoaded(row: Row, after: Row, legacy: set<Id>, refused: set<Id>) {
    match row
    case Readable(id, b) => after.Readable? && after.id == id && LoadedFrom(b, after.bot, id in legacy, id in refused)
    case Unreadable(_) => after == row
  }

  lemma EntryLoaded(row: Row, legacy: set<Id>, refused: set<Id>)
    ensures forall after :: RowLoaded(row, after, legacy, refused) <==> after == LoadEntry(row, legacy, refused)
  {
  }

  lemma EntriesDistinct(rows: seq<Row>, legacy: set<Id>, refused: set<Id>)
    ensures DistinctIds(LoadEntries(rows, legacy, refused)) <==> DistinctIds(rows)
  {
    var loaded := LoadEntries(rows, legacy, refused);
    forall i | 0 <= i < |rows| ensures loaded[i].Readable? == rows[i].Readable? && (rows[i].Readable? ==> loaded[i].id == rows[i].id) {}
    if DistinctIds(loaded) {
      forall i, j | 0 <= i < j < |rows| && rows[i].Readable? && rows[j].Readable? ensures rows[i].id != rows[j].id {
        assert loaded[i].id != loaded[j].id;
      }
    }
  }

  predicate FileLoaded(rows: seq<Row>, after: seq<Row>, legacy: set<Id>, refused: set<Id>) {
    |after| == |rows| && forall k | 0 <= k < |rows| :: RowLoaded(rows[k], after[k], legacy, refused)
  }

  /** The file that load() leaves has every row in its place, with only the fields above changed, if
      and only if no two of its bots have the same id. */
  lemma LoadThenSaveFileIff(m: Server, legacy: set<Id>, refused: set<Id>)
    ensures FileLoaded(m.disk, Load(m, legacy, refused, true).disk, legacy, refused) <==> DistinctIds(m.disk)
  {
    var loaded := LoadEntries(m.disk, legacy, refused);
    var after := Load(m, legacy, refused, true).disk;
    hide RowsToSave, LoadEntry, RowLoaded, Load;
    LoadSaves(m, legacy, refused);
    EntriesDistinct(m.disk, legacy, refused);
    LoadThenSaveIff(loaded);
    SomeBotLoads(loaded);
    forall k | 0 <= k < |m.disk| ensures forall r :: RowLoaded(m.disk[k], r, legacy, refused) <==> r == loaded[k] {
      EntryLoaded(m.disk[k], legacy, refused);
    }
    if |after| == |loaded| && forall k | 0 <= k < |loaded| :: after[k] == loaded[k] { assert after == loaded; }
    if LoadRows(loaded).table.order == [] { AllUnreadable(m.disk, legacy, refused); }
  }

  lemma LoadSaves(m: Server, legacy: set<Id>, refused: set<Id>)
    ensures var l := LoadRows(LoadEntries(m.disk, legacy, refused));
            ValidTable(l.table)
            && Load(m, legacy, refused, true).disk == if l.table.order == [] then m.disk else RowsToSave(l.table, l.kept)
  {
    LoadedValid(LoadEntries(m.disk, legacy, refused));
  }

  lemma AllUnreadable(rows: seq<Row>, legacy: set<Id>, refused: set<Id>)
    requires forall r <- LoadEntries(rows, legacy, refused) :: r.Unreadable?
    ensures LoadEntries(rows, legacy, refused) == rows && DistinctIds(rows)
  {
    var loaded := LoadEntries(rows, legacy, refused);
    forall k | 0 <= k < |rows| ensures loaded[k] == rows[k] && rows[k].Unreadable? { assert loaded[k] in loaded; }
  }

  // ---- auto-resume ----

  /** Trying another bot, or saving, leaves this one alone. */
  predicate Untouched(m: Server, m1: Server, x: Id) {
    && (x in m1.attempted <==> x in m.attempted)
    && (x in m1.table.bots <==> x in m.table.bots)
    && (x in m.table.bots ==> m1.table.bots[x] == m.table.bots[x])
    && (Live(m1, x) <==> Live(m, x))
  }

  lemma StartOther(m: Server, id: Id, check: Check, ok: bool, x: Id)
    requires ValidTable(m.table) && x != id
    ensures Untouched(m, StartBot(m, id, check, ok), x)
  {
    hide Exclusive, Refuses, RefusedBot, StartedBot, RowsToSave, ValidTable;
  }

  lemma TryOther(m: Server, id: Id, check: Check, ok: bool, x: Id)
    requires ValidTable(m.table) && id in m.table.bots && x != id
    ensures Untouched(m, TryResume(m, id, check, ok), x)
  {
    hide StartBot, ValidTable;
    StartOther(m.(attempted := m.attempted + [id]), id, check, ok, x);
  }

  /** A resume step for another bot leaves this one alone. */
  lemma ResumeOneOther(m: Server, id: Id, check: Check, ok: bool, x: Id)
    requires ValidTable(m.table) && id in m.table.bots && x != id
    ensures Untouched(m, ResumeOne(m, id, check, ok), x)
  {
    hide TryResume;
    if m.table.bots[id].wasRunning && Resumable(m.table.bots[id]) {
      TryOther(SetBot(m, id, Forgiven(m.table.bots[id])), id, check, ok, x);
    }
  }

  lemma StartSelf(m: Server, id: Id, check: Check, ok: bool)
    requires ValidTable(m.table) && id in m.table.bots && !Live(m, id)
    ensures var b, m1 := m.table.bots[id], StartBot(m, id, check, ok);
            && id in m1.table.bots && m1.attempted == m.attempted
            && (Live(m1, id) <==> Exclusive(m, id) && !Refuses(b, check))
            && m1.table.bots[id] == (if Live(m1, id) then StartedBot(b, check)
                                     else if Exclusive(m, id) then RefusedBot(b) else b)
  {
    hide Exclusive, Refuses, RefusedBot, StartedBot, RowsToSave, ValidTable;
  }

  lemma TrySelf(m: Server, id: Id, check: Check, ok: bool)
    requires ValidTable(m.table) && id in m.table.bots
    ensures var b, m1 := m.table.bots[id], TryResume(m, id, check, ok);
            && id in m1.attempted && id in m1.table.bots
            && (m1.table.bots[id].status == b.status || (Refuses(b, check) && m1.table.bots[id].status == Errored))
  {
    hide Exclusive, Refuses, ValidTable, RowsToSave;
    var tried := m.(attempted := m.attempted + [id]);
    if Live(m, id) { assert StartBot(tried, id, check, ok) == tried; } else { StartSelf(tried, id, check, ok); }
  }

  lemma ResumeOneSelf(m: Server, id: Id, check: Check, ok: bool)
    requires ValidTable(m.table) && id in m.table.bots
    ensures var b, m1 := m.table.bots[id], ResumeOne(m, id, check, ok);
            && (Resumable(b) ==> id in m1.attempted)
            && (!Resumable(b) ==> m1.attempted == m.attempted && m1.tasks == m.tasks)
            && id in m1.table.bots
            && (m1.table.bots[id].status == b.status
                || (Resumable(b) && Refuses(b, check) && m1.table.bots[id].status == Errored))
  {
    hide TryResume;
    var b := m.table.bots[id];
    if b.wasRunning && Resumable(b) { TrySelf(SetBot(m, id, Forgiven(b)), id, check, ok); }
  }

  lemma ResumeNone(m: Server, g: Graphs)
    requires ValidTable(m.table)
    ensures ResumeUpTo(m, 0, g) == m
  {
  }

  /** The last step of the loop, for a bot the steps before it have not met. */
  lemma ResumeStep(m: Server, n: nat, g: Graphs)
    requires ValidTable(m.table) && 0 < n <= |m.table.order|
    ensures var m1, id := ResumeUpTo(m, n - 1, g), m.table.order[n - 1];
            && ValidTable(m1.table) && m1.table.order == m.table.order && id in m1.table.bots && id in m.table.bots
            && ResumeUpTo(m, n, g) == ResumeOne(m1, id, g.Of(id), id !in g.unsaved)
            && id !in m.table.order[..n - 1]
            && (forall x :: x in m.table.order[..n] <==> x in m.table.order[..n - 1] || x == id)
  {
    hide ResumeOne, Graphs.Of;
    OrderIsIn(m.table, n - 1);
    OrderIsIn(ResumeUpTo(m, n - 1, g).table, n - 1);
  }

  /** Over the first n bots, exactly the resumable ones are tried; a status changes only to the error
      of a bot whose start is refused. */
  lemma {:induction false} ResumesExactly(m: Server, n: nat, g: Graphs, x: Id)
    requires ValidTable(m.table) && n <= |m.table.order| && x !in m.attempted
    ensures var m1 := ResumeUpTo(m, n, g);
            && (x in m1.attempted <==> x in m.table.order[..n] && Resumable(m.table.bots[x]))
            && (x in m1.table.bots <==> x in m.table.bots)
            && (x in m.table.bots && m1.table.bots[x].status != m.table.bots[x].status ==>
                  && m1.table.bots[x].status == Errored && x in m1.attempted && Refuses(m.table.bots[x], g.Of(x)))
            && (x !in m.table.order[..n] ==> Untouched(m, m1, x))
            && (x !in m1.attempted ==> (Live(m1, x) <==> Live(m, x)))
  {
    hide ResumeOne, ResumeUpTo, Resumable, Refuses, Graphs.Of, ValidTable;
    if n > 0 {
      ResumesExactly(m, n - 1, g, x);
      var m1, id := ResumeUpTo(m, n - 1, g), m.table.order[n - 1];
      ResumeStep(m, n, g);
      if x == id { ResumeOneSelf(m1, id, g.Of(id), id !in g.unsaved); }
      else { ResumeOneOther(m1, id, g.Of(id), id !in g.unsaved, x); }
    } else {
      ResumeNone(m, g);
    }
  }

  /** What load() gives: every bot of the file with its LoadBot, and no runner. */
  lemma LoadGives(m: Server, legacy: set<Id>, refused: set<Id>, loaded: bool, x: Id)
    ensures var t := LoadRows(m.disk).table;
            var l := Load(m, legacy, refused, loaded);
            && ValidTable(l.table) && (x in l.table.order <==> x in t.bots) && !Live(l, x)
            && (x in l.table.bots <==> x in t.bots)
            && (x in t.bots ==> l.table.bots[x] == LoadBot(t.bots[x], x in legacy, x in refused))
  {
    hide LoadRows, LoadBot, LoadEntries, RowsToSave;
    LoadIsValid(m, legacy, refused, loaded);
    EntriesLoad(m.disk, legacy, refused);
  }

  lemma BootIs(m: Server, legacy: set<Id>, refused: set<Id>, g: Graphs, loaded: bool, ok: bool)
    ensures var l := Load(m, legacy, refused, loaded);
            var m1 := Boot(m, legacy, refused, g, loaded, ok);
            && ValidTable(l.table)
            && var after := ResumeUpTo(l.(attempted := []), |l.table.order|, g);
            && m1.attempted == after.attempted && m1.table == after.table && m1.tasks == after.tasks
  {
    hide Load, ResumeUpTo, RowsToSave;
    LoadIsValid(m, legacy, refused, loaded);
  }

  lemma BootTries(m: Server, legacy: set<Id>, refused: set<Id>, g: Graphs, loaded: bool, ok: bool, x: Id)
    ensures var t := LoadRows(m.disk).table;
            var m1 := Boot(m, legacy, refused, g, loaded, ok);
            && (x in m1.attempted <==> x in t.bots && Resumable(LoadBot(t.bots[x], x in legacy, x in refused)))
            && (Live(m1, x) ==> x in m1.attempted)
            && (x in m1.table.bots <==> x in t.bots)
            && (x in m1.table.bots ==> m1.table.bots[x].status != Running)
  {
    hide LoadRows, Load, Boot, ResumeUpTo, LoadBot, ValidTable, Resumable;
    LoadGives(m, legacy, refused, loaded, x);
    BootIs(m, legacy, refused, g, loaded, ok);
    var start := Load(m, legacy, refused, loaded).(attempted := []);
    ResumesExactly(start, |start.table.order|, g, x);
    assert start.table.order[..|start.table.order|] == start.table.order;
    if x in LoadRows(m.disk).table.bots { NotRunning(LoadRows(m.disk).table.bots[x], x in legacy, x in refused); }
  }

  lemma NotRunning(b: Bot, legacy: bool, refused: bool)
    ensures LoadBot(b, legacy, refused).status != Running
  {
  }

  // ---- an orderly shutdown ----

  /** After an orderly shutdown the next boot passes to start_bot exactly the bots that were running,
      with no pause and no error but the recovery note, and whose code is not refused while they are
      flat. */
  lemma ShutdownThenBoot(m: Server, legacy: set<Id>, refused: set<Id>, g: Graphs, loaded: bool, ok: bool, x: Id)
    requires ValidTable(m.table)
    ensures var m1 := Boot(Shutdown(m, true), legacy, refused, g, loaded, ok);
            x in m1.attempted
            <==> && x in m.table.bots && m.table.bots[x].status == Running
                 && !m.table.bots[x].pause && m.table.bots[x].error != OtherError
                 && (m.table.bots[x].graph && x in refused ==> m.table.bots[x].holds || m.table.bots[x].exitsOnly)
  {
    hide LoadRows, RowsToSave, Boot;
    var down := Shutdown(m, true);
    SaveThenLoad(m.table, m.kept);
    BootTries(down, legacy, refused, g, loaded, ok, x);
  }

  // ---- a user's Stop ----

  /** The bot is not running, in memory or on disk, and has no runner. */
  predicate StaysStopped(m: Server, id: Id) {
    && (id in m.table.bots ==> m.table.bots[id].status != Running)
    && !Live(m, id)
    && (forall r <- m.disk :: r.Readable? && r.id == id ==> r.bot.status != Running)
  }

  lemma {:induction false} BodyRowsAreBots(order: seq<Id>, bots: map<Id, Bot>, kept: seq<Kept>)
    requires forall id <- order :: id in bots
    ensures forall r <- Body(order, bots, kept) :: r.Readable? ==> r.id in bots && r.bot == bots[r.id]
  {
    if order != [] {
      BodyRowsAreBots(order[..|order| - 1], bots, kept);
      RawsAreRaw(kept, Some(order[|order| - 1]));
    }
  }

  lemma SavedRowsAreBots(t: Table, kept: seq<Kept>)
    requires ValidTable(t)
    ensures forall r <- RowsToSave(t, kept) :: r.Readable? ==> r.id in t.bots && r.bot == t.bots[r.id]
  {
    hide RawsOf, Body, Leftovers;
    BodyRowsAreBots(t.order, t.bots, kept);
    RawsAreRaw(kept, None);
    LeftoversAreRaw(Anchors(kept), t.bots, kept);
  }

  lemma SaveStaysStopped(m: Server, id: Id, ok: bool)
    requires ValidTable(m.table) && StaysStopped(m, id)
    ensures StaysStopped(Save(m, ok), id)
  {
    hide RowsToSave;
    SavedRowsAreBots(m.table, m.kept);
  }

  lemma {:induction false} LoadedFromRow(rows: seq<Row>, id: Id)
    ensures var t := LoadRows(rows).table;
            id in t.bots ==> exists r <- rows :: r.Readable? && r.id == id && r.bot == t.bots[id]
  {
    if rows != [] {
      var n := |rows| - 1;
      LoadedFromRow(rows[..n], id);
      assert rows == rows[..n] + [rows[n]];
      var t0, t := LoadRows(rows[..n]).table, LoadRows(rows).table;
      if id in t.bots && !(rows[n].Readable? && rows[n].id == id) {
        var r :| r in rows[..n] && r.Readable? && r.id == id && r.bot == t0.bots[id];
        assert r in rows;
      } else if id in t.bots {
        assert rows[n] in rows;
      }
    }
  }

  lemma {:induction false} PutAllStopped(t: Table, ids: seq<Id>, legs: seq<Bot>, id: Id)
    requires ValidTable(t) && |ids| == |legs| && (id in t.bots ==> t.bots[id].status != Running)
    ensures var t1 := PutAll(t, ids, legs); id in t1.bots ==> t1.bots[id].status != Running
  {
    if ids != [] { PutAllStopped(t, ids[..|ids| - 1], legs[..|ids| - 1], id); }
  }

  lemma LoadStaysStopped(m: Server, legacy: set<Id>, refused: set<Id>, ok: bool, id: Id)
    requires StaysStopped(m, id)
    ensures StaysStopped(Load(m, legacy, refused, ok), id)
    ensures var l := Load(m, legacy, refused, ok);
            id in l.table.bots ==> !l.table.bots[id].wasRunning
  {
    hide LoadRows, RowsToSave;
    var rows := LoadEntries(m.disk, legacy, refused);
    LoadIsValid(m, legacy, refused, ok);
    LoadedFromRow(m.disk, id);
    EntriesLoad(m.disk, legacy, refused);
    var l := LoadRows(rows);
    var loaded := m.(fund := m.diskFund, table := l.table, kept := l.kept, tasks := map[]);
    assert StaysStopped(loaded, id);
    SaveStaysStopped(loaded, id, ok);
  }

  lemma StartStaysStopped(m: Server, x: Id, check: Check, ok: bool, id: Id)
    requires ValidTable(m.table) && StaysStopped(m, id) && x != id
    ensures StaysStopped(StartBot(m, x, check, ok), id)
  {
    hide Exclusive, Refuses, RowsToSave, ValidTable, StaysStopped;
    if x in m.table.bots {
      SetStaysStopped(m, x, RefusedBot(m.table.bots[x]), id);
      SaveStaysStopped(SetBot(m, x, RefusedBot(m.table.bots[x])), id, ok);
      SetStaysStopped(m, x, StartedBot(m.table.bots[x], check), id);
      TaskStaysStopped(SetBot(m, x, StartedBot(m.table.bots[x], check)), x, id);
    }
  }

  lemma SetStaysStopped(m: Server, x: Id, b: Bot, id: Id)
    requires ValidTable(m.table) && StaysStopped(m, id) && x != id && x in m.table.bots
    ensures var m1 := SetBot(m, x, b); ValidTable(m1.table) && x in m1.table.bots && StaysStopped(m1, id)
  {
  }

  lemma TaskStaysStopped(m: Server, x: Id, id: Id)
    requires StaysStopped(m, id) && x != id
    ensures StaysStopped(SetTask(m, x, true), id)
  {
  }

  lemma AttemptStaysStopped(m: Server, x: Id, id: Id)
    requires StaysStopped(m, id)
    ensures StaysStopped(m.(attempted := m.attempted + [x]), id)
  {
  }

  lemma RequestStaysStopped(m: Server, x: Id, check: Check, ok: bool, id: Id)
    requires ValidTable(m.table) && StaysStopped(m, id) && x != id
    ensures StaysStopped(RequestStart(m, x, check, ok), id)
  {
    hide Refuses, RowsToSave, ValidTable, StaysStopped, StartBot;
    StartStaysStopped(m, x, check, ok, id);
    if x in m.table.bots {
      SetStaysStopped(m, x, RefusedBot(m.table.bots[x]), id);
      SaveStaysStopped(SetBot(m, x, RefusedBot(m.table.bots[x])), id, ok);
    }
  }

  lemma ResumeOneStaysStopped(m: Server, x: Id, check: Check, ok: bool, id: Id)
    requires ValidTable(m.table) && StaysStopped(m, id) && x != id && x in m.table.bots
    ensures StaysStopped(ResumeOne(m, x, check, ok), id)
  {
    hide ValidTable, StaysStopped, StartBot, RowsToSave, SetBot, Resumable, Live;
    var b := m.table.bots[x];
    SetStaysStopped(m, x, Forgiven(b).(wasRunning := false), id);
    SetStaysStopped(m, x, Forgiven(b), id);
    if b.wasRunning && Resumable(b) { TryStaysStopped(SetBot(m, x, Forgiven(b)), x, check, ok, id); }
  }

  lemma TryStaysStopped(m: Server, x: Id, check: Check, ok: bool, id: Id)
    requires ValidTable(m.table) && StaysStopped(m, id) && x != id && x in m.table.bots
    ensures StaysStopped(TryResume(m, x, check, ok), id)
  {
    hide ValidTable, StaysStopped, StartBot, SetBot, Live;
    AttemptStaysStopped(m, x, id);
    var tried := m.(attempted := m.attempted + [x]);
    StartStaysStopped(tried, x, check, ok, id);
    var started := StartBot(tried, x, check, ok);
    SetStaysStopped(started, x, started.table.bots[x].(wasRunning := false), id);
  }

  /** A bot that is not tagged stays stopped over the loop of auto-resume. */
  lemma {:induction false} ResumeStaysStopped(m: Server, n: nat, g: Graphs, id: Id)
    requires ValidTable(m.table) && n <= |m.table.order| && StaysStopped(m, id)
    requires id in m.table.bots ==> !m.table.bots[id].wasRunning
    ensures var m1 := ResumeUpTo(m, n, g); StaysStopped(m1, id) && Untouched(m, m1, id)
  {
    hide ResumeOne, ResumeUpTo, StaysStopped, Graphs.Of, ValidTable;
    if n > 0 {
      ResumeStaysStopped(m, n - 1, g, id);
      var m1, x := ResumeUpTo(m, n - 1, g), m.table.order[n - 1];
      ResumeStep(m, n, g);
      if x == id {
        NotTagged(m1, x, g.Of(x), x !in g.unsaved);
      } else {
        ResumeOneStaysStopped(m1, x, g.Of(x), x !in g.unsaved, id);
        ResumeOneOther(m1, x, g.Of(x), x !in g.unsaved, id);
      }
    } else {
      ResumeNone(m, g);
    }
  }

  lemma NotTagged(m: Server, id: Id, check: Check, ok: bool)
    requires ValidTable(m.table) && id in m.table.bots && !m.table.bots[id].wasRunning
    ensures ResumeOne(m, id, check, ok) == m
  {
  }

  lemma BootStaysStopped(m: Server, legacy: set<Id>, refused: set<Id>, g: Graphs, loaded: bool, ok: bool, id: Id)
    requires StaysStopped(m, id)
    ensures var m1 := Boot(m, legacy, refused, g, loaded, ok); StaysStopped(m1, id) && id !in m1.attempted
  {
    hide LoadRows, RowsToSave, ResumeUpTo, Load, ValidTable;
    LoadIsValid(m, legacy, refused, loaded);
    LoadStaysStopped(m, legacy, refused, loaded, id);
    var start := Load(m, legacy, refused, loaded).(attempted := []);
    var n := |start.table.order|;
    ResumeStaysStopped(start, n, g, id);
    SaveStaysStopped(ResumeUpTo(start, n, g), id, ok);
  }

  lemma LifeStaysStopped(m: Server, t: Turn, id: Id)
    requires ValidTable(m.table) && StaysStopped(m, id) && (t.Begins? || t.Notes? || t.Ends?)
    ensures StaysStopped(Turned(m, t), id)
  {
    hide ValidTable;
  }

  lemma TableStaysStopped(m: Server, t: Turn, id: Id)
    requires ValidTable(m.table) && StaysStopped(m, id) && (t.Adds? || t.Deletes? || t.Reorders?)
    ensures StaysStopped(Turned(m, t), id)
  {
    hide RowsToSave, PutAll, WhyRefused, Picked, Without, ValidTable;
    match t
    case Adds(ids, legs, ok) =>
      if Turned(m, t) != m {
        PutAllStopped(m.table, ids, legs, id);
        SaveStaysStopped(m.(table := PutAll(m.table, ids, legs)), id, true);
      }
    case Deletes(x, ok) =>
      RemoveValid(m.table, x);
      SaveStaysStopped(m.(table := Remove(m.table, x), tasks := m.tasks - {x}), id, ok);
    case Reorders(ids, ok) =>
      ReorderedAll(m.table, ids);
      SaveStaysStopped(m.(table := m.table.(order := Picked(m.table.order, [], ids + m.table.order))), id, ok);
  }

  lemma StopStaysStopped(m: Server, t: Turn, id: Id)
    requires ValidTable(m.table) && StaysStopped(m, id) && (t.Saves? || t.Stops? || t.ShutsDown? || t.SetsFund? || t.Edits?)
    ensures StaysStopped(Turned(m, t), id)
  {
    hide RowsToSave, Capital;
    match t
    case Saves(ok) => SaveStaysStopped(m, id, ok);
    case Stops(x, closed, ok) => if x in m.table.bots { SaveStaysStopped(StopBot(m, x, closed), id, ok); }
    case ShutsDown(ok) => SaveStaysStopped(m.(tasks := NoTasks(m)), id, ok);
    case _ => FundStaysStopped(m, t, id);
  }

  lemma FundStaysStopped(m: Server, t: Turn, id: Id)
    requires ValidTable(m.table) && StaysStopped(m, id) && (t.SetsFund? || t.Edits?)
    ensures StaysStopped(Turned(m, t), id)
  {
    hide RowsToSave, Capital;
    match t
    case SetsFund(amount, ok) => SaveStaysStopped(m.(fund := amount), id, ok);
    case Edits(x, capital, ok) =>
      if x in m.table.bots { SaveStaysStopped(SetBot(m, x, m.table.bots[x].(capital := capital)), id, ok); }
  }

  lemma TurnStaysStopped(m: Server, t: Turn, id: Id)
    requires ValidTable(m.table) && StaysStopped(m, id) && !(t.Starts? && t.id == id)
    ensures StaysStopped(Turned(m, t), id) && (t.Boots? ==> id !in Turned(m, t).attempted)
  {
    hide StaysStopped, ValidTable, RequestStart, Boot, AddBots, Reorder, DeleteBot, Distinct, Picked, RunBegins, RunnerNotes,
         RunEnds, StopAndSave, Shutdown, Save, SetFund, EditCapital;
    if t.Starts? {
      RequestStaysStopped(m, t.id, t.check, t.ok, id);
    } else if t.Boots? {
      BootStaysStopped(m, t.legacy, t.refused, t.g, t.loaded, t.ok, id);
    } else if t.Begins? || t.Notes? || t.Ends? {
      LifeStaysStopped(m, t, id);
    } else if t.Adds? || t.Deletes? || t.Reorders? {
      TableStaysStopped(m, t, id);
    } else {
      StopStaysStopped(m, t, id);
    }
  }

  /** Once a Stop is saved the bot stays stopped, over saves, shutdowns, crashes and boots, and no
      boot passes it to start_bot, until the user starts it. */
  lemma {:induction false} StoppedIsNeverResumed(m: Server, id: Id, closed: bool, turns: seq<Turn>)
    requires ValidTable(m.table) && id in m.table.bots
    requires forall t <- turns :: !(t.Starts? && t.id == id)
    ensures var m1 := Played(StopAndSave(m, id, closed, true), turns);
            StaysStopped(m1, id) && (turns != [] && turns[|turns| - 1].Boots? ==> id !in m1.attempted)
  {
    if turns == [] {
      SavedRowsAreBots(StopBot(m, id, closed).table, m.kept);
    } else {
      var n := |turns| - 1;
      StoppedIsNeverResumed(m, id, closed, turns[..n]);
      assert turns[n] in turns;
      TurnStaysStopped(Played(StopAndSave(m, id, closed, true), turns[..n]), turns[n], id);
    }
  }

  // ---- one runner per symbol and side ----

  /** No two live runners trade the same symbol on the same side, or share it with a bot that trades
      both sides. */
  predicate OneEach(m: Server) {
    forall a, b | a in m.table.bots && b in m.table.bots && a != b && Live(m, a) && Live(m, b) ::
      Apart(m.table.bots[a], m.table.bots[b])
  }

  /** Two bots that can trade side by side: on other symbols, or on one symbol each on its own side. */
  predicate Apart(a: Bot, b: Bot) {
    a.symbol == b.symbol ==> !a.bothSides && !b.bothSides && a.side != b.side
  }

  /** Only the manager's bots have runners. */
  predicate TasksKnown(m: Server) {
    forall id <- m.tasks :: id in m.table.bots
  }

  lemma TaskKeepsOneEach(m: Server, id: Id)
    requires ValidTable(m.table) && OneEach(m) && id in m.table.bots && Exclusive(m, id)
    ensures OneEach(SetTask(m, id, true))
  {
    var m1 := SetTask(m, id, true);
    forall a, b | a in m.table.bots && b in m.table.bots && a != b && Live(m1, a) && Live(m1, b)
      ensures Apart(m.table.bots[a], m.table.bots[b])
    {
      if a == id { assert b in m.table.order; }
      if b == id { assert a in m.table.order; }
    }
  }

  /** A change of a bot's state leaves its symbol and its runner. */
  lemma SetKeeps(m: Server, id: Id, b: Bot)
    requires ValidTable(m.table) && id in m.table.bots
    requires var a := m.table.bots[id]; b.symbol == a.symbol && b.side == a.side && b.bothSides == a.bothSides
    ensures var m1 := SetBot(m, id, b);
            && ValidTable(m1.table) && id in m1.table.bots && (OneEach(m) ==> OneEach(m1)) && (TasksKnown(m) ==> TasksKnown(m1))
            && (Exclusive(m, id) ==> Exclusive(m1, id))
  {
  }

  lemma SaveKeepsOneEach(m: Server, ok: bool)
    requires ValidTable(m.table)
    ensures (OneEach(m) ==> OneEach(Save(m, ok))) && (TasksKnown(m) ==> TasksKnown(Save(m, ok)))
  {
    hide RowsToSave, ValidTable;
  }

  lemma StartKeepsOneEach(m: Server, id: Id, check: Check, ok: bool)
    requires ValidTable(m.table) && OneEach(m) && TasksKnown(m)
    ensures OneEach(StartBot(m, id, check, ok)) && TasksKnown(StartBot(m, id, check, ok))
  {
    hide OneEach, TasksKnown, Exclusive, Refuses, RowsToSave, ValidTable, SetBot, SetTask, Live, Save;
    if id in m.table.bots {
      RefusalKeepsOneEach(m, id, ok);
      var b := StartedBot(m.table.bots[id], check);
      SetKeeps(m, id, b);
      if Exclusive(m, id) { RunnerAdded(SetBot(m, id, b), id); }
    }
  }

  lemma RefusalKeepsOneEach(m: Server, id: Id, ok: bool)
    requires ValidTable(m.table) && OneEach(m) && TasksKnown(m) && id in m.table.bots
    ensures OneEach(RefuseStart(m, id, ok)) && TasksKnown(RefuseStart(m, id, ok))
  {
    hide OneEach, TasksKnown, Exclusive, ValidTable, SetBot, Save;
    SetKeeps(m, id, RefusedBot(m.table.bots[id]));
    SaveKeepsOneEach(SetBot(m, id, RefusedBot(m.table.bots[id])), ok);
  }

  lemma RunnerAdded(m: Server, id: Id)
    requires ValidTable(m.table) && OneEach(m) && TasksKnown(m) && id in m.table.bots && Exclusive(m, id)
    ensures OneEach(SetTask(m, id, true)) && TasksKnown(SetTask(m, id, true))
  {
    hide OneEach, Exclusive;
    TaskKeepsOneEach(m, id);
  }

  lemma RequestKeepsOneEach(m: Server, id: Id, check: Check, ok: bool)
    requires ValidTable(m.table) && OneEach(m) && TasksKnown(m)
    ensures OneEach(RequestStart(m, id, check, ok)) && TasksKnown(RequestStart(m, id, check, ok))
  {
    hide OneEach, TasksKnown, StartBot, RefuseStart, Refuses, ValidTable;
    StartKeepsOneEach(m, id, check, ok);
    if id in m.table.bots { RefusalKeepsOneEach(m, id, ok); }
  }

  lemma TriedKeeps(m: Server, attempted: seq<Id>)
    requires OneEach(m) && TasksKnown(m)
    ensures OneEach(m.(attempted := attempted)) && TasksKnown(m.(attempted := attempted))
  {
  }

  lemma TryKeepsOneEach(m: Server, id: Id, check: Check, ok: bool)
    requires ValidTable(m.table) && id in m.table.bots && OneEach(m) && TasksKnown(m)
    ensures OneEach(TryResume(m, id, check, ok)) && TasksKnown(TryResume(m, id, check, ok))
  {
    hide StartBot, OneEach, TasksKnown, ValidTable, SetBot, Live, Exclusive;
    TriedKeeps(m, m.attempted + [id]);
    var tried := m.(attempted := m.attempted + [id]);
    StartKeepsOneEach(tried, id, check, ok);
    var started := StartBot(tried, id, check, ok);
    SetKeeps(started, id, started.table.bots[id].(wasRunning := false));
  }

  lemma ResumeOneKeeps(m: Server, id: Id, check: Check, ok: bool)
    requires ValidTable(m.table) && id in m.table.bots && OneEach(m) && TasksKnown(m)
    ensures OneEach(ResumeOne(m, id, check, ok)) && TasksKnown(ResumeOne(m, id, check, ok))
  {
    hide TryResume, OneEach, TasksKnown, ValidTable, SetBot, Resumable, Exclusive;
    var b := m.table.bots[id];
    if b.wasRunning {
      if Resumable(b) {
        SetKeeps(m, id, Forgiven(b));
        TryKeepsOneEach(SetBot(m, id, Forgiven(b)), id, check, ok);
      } else {
        SetKeeps(m, id, Forgiven(b).(wasRunning := false));
      }
    }
  }

  lemma {:induction false} ResumeKeepsOneEach(m: Server, n: nat, g: Graphs)
    requires ValidTable(m.table) && n <= |m.table.order| && OneEach(m) && TasksKnown(m)
    ensures OneEach(ResumeUpTo(m, n, g)) && TasksKnown(ResumeUpTo(m, n, g))
  {
    hide OneEach, TasksKnown, ResumeOne, ResumeUpTo, Graphs.Of, ValidTable;
    if n > 0 {
      ResumeKeepsOneEach(m, n - 1, g);
      var id := m.table.order[n - 1];
      ResumeStep(m, n, g);
      ResumeOneKeeps(ResumeUpTo(m, n - 1, g), id, g.Of(id), id !in g.unsaved);
    } else {
      ResumeNone(m, g);
    }
  }

  lemma TurnKeepsOneEach(m: Server, t: Turn)
    requires ValidTable(m.table) && OneEach(m) && TasksKnown(m)
    ensures OneEach(Turned(m, t)) && TasksKnown(Turned(m, t))
  {
    hide RowsToSave, PutAll, Exclusive, WhyRefused, Picked, LoadRows, ResumeUpTo, Load, LoadEntries, Boot, RequestStart, OneEach, TasksKnown, AddBots;
    match t
    case Adds(ids, legs, ok) =>
      if Turned(m, t) != m { AddsKeepOneEach(m, ids, legs, ok); }
    case Starts(id, check, ok) => RequestKeepsOneEach(m, id, check, ok);
    case Boots(legacy, refused, g, loaded, ok) =>
      BootKeepsOneEach(m, legacy, refused, g, loaded, ok);
    case _ => OthersKeepOneEach(m, t);
  }

  lemma AddsKeepOneEach(m: Server, ids: seq<Id>, legs: seq<Bot>, ok: bool)
    requires ValidTable(m.table) && OneEach(m) && TasksKnown(m)
    requires |ids| == |legs| && Distinct(ids) && forall id <- ids :: id !in m.table.bots
    ensures OneEach(AddBots(m, ids, legs, ok)) && TasksKnown(AddBots(m, ids, legs, ok))
  {
    hide RowsToSave, PutAll, Distinct, ValidTable;
    PutAllFresh(m.table, ids, legs);
  }

  /** Fewer runners of the same bots. */
  predicate NoMore(m: Server, m1: Server) {
    && (forall x <- m1.table.bots ::
          && x in m.table.bots && m1.table.bots[x].symbol == m.table.bots[x].symbol
          && m1.table.bots[x].side == m.table.bots[x].side && m1.table.bots[x].bothSides == m.table.bots[x].bothSides
          && (Live(m1, x) ==> Live(m, x)))
    && (forall x <- m1.tasks :: x in m1.table.bots)
  }

  lemma NoMoreLive(m: Server, m1: Server)
    requires OneEach(m) && NoMore(m, m1)
    ensures OneEach(m1) && TasksKnown(m1)
  {
  }

  lemma DeleteKeeps(m: Server, id: Id, ok: bool)
    requires ValidTable(m.table) && TasksKnown(m)
    ensures NoMore(m, DeleteBot(m, id, ok))
  {
    hide RowsToSave, Without, ValidTable;
    RemoveValid(m.table, id);
  }

  lemma ReorderKeeps(m: Server, ids: seq<Id>, ok: bool)
    requires ValidTable(m.table) && TasksKnown(m)
    ensures NoMore(m, Reorder(m, ids, ok))
  {
    hide RowsToSave, Picked, ValidTable;
    ReorderedAll(m.table, ids);
  }

  lemma BeginsKeep(m: Server, id: Id)
    requires TasksKnown(m)
    ensures NoMore(m, RunBegins(m, id))
  {
  }

  lemma NotesKeep(m: Server, id: Id, status: Status, pause: bool, error: Note, holds: bool, exitsOnly: bool)
    requires TasksKnown(m)
    ensures NoMore(m, RunnerNotes(m, id, status, pause, error, holds, exitsOnly))
  {
  }

  lemma EndsKeep(m: Server, id: Id)
    requires TasksKnown(m)
    ensures NoMore(m, RunEnds(m, id))
  {
  }

  lemma SavesKeep(m: Server, ok: bool)
    requires ValidTable(m.table) && TasksKnown(m)
    ensures NoMore(m, Save(m, ok))
  {
    hide RowsToSave, ValidTable;
  }

  lemma StopKeeps(m: Server, id: Id, closed: bool, ok: bool)
    requires ValidTable(m.table) && TasksKnown(m)
    ensures NoMore(m, StopAndSave(m, id, closed, ok))
  {
    hide RowsToSave, ValidTable, NoMore, StopBot;
    if id in m.table.bots {
      StopNoMore(m, id, closed);
      SavedNoMore(m, StopBot(m, id, closed), ok);
    } else {
      SavesKeep(m, false);
    }
  }

  lemma StopNoMore(m: Server, id: Id, closed: bool)
    requires ValidTable(m.table) && TasksKnown(m)
    ensures ValidTable(StopBot(m, id, closed).table) && NoMore(m, StopBot(m, id, closed))
  {
  }

  lemma SavedNoMore(m: Server, m1: Server, ok: bool)
    requires ValidTable(m1.table) && NoMore(m, m1)
    ensures NoMore(m, Save(m1, ok))
  {
    hide RowsToSave, ValidTable;
  }

  lemma ShutdownKeeps(m: Server, ok: bool)
    requires ValidTable(m.table) && TasksKnown(m)
    ensures NoMore(m, Shutdown(m, ok))
  {
    hide RowsToSave, ValidTable;
  }

  lemma SetFundKeeps(m: Server, amount: real, ok: bool)
    requires ValidTable(m.table) && TasksKnown(m)
    ensures NoMore(m, SetFund(m, amount, ok))
  {
    hide RowsToSave, ValidTable, Capital;
  }

  lemma EditKeeps(m: Server, id: Id, capital: real, ok: bool)
    requires ValidTable(m.table) && TasksKnown(m)
    ensures NoMore(m, EditCapital(m, id, capital, ok))
  {
    hide RowsToSave, ValidTable;
  }

  lemma OthersKeepOneEach(m: Server, t: Turn)
    requires ValidTable(m.table) && OneEach(m) && TasksKnown(m)
    requires !t.Adds? && !t.Starts? && !t.Boots?
    ensures OneEach(Turned(m, t)) && TasksKnown(Turned(m, t))
  {
    hide ValidTable, OneEach, TasksKnown, NoMore, RequestStart, Boot, Load, AddBots, Reorder, DeleteBot, Distinct, Picked,
         RunBegins, RunnerNotes, RunEnds, StopAndSave, Shutdown, Save, SetFund, EditCapital;
    NoMoreLive(m, Turned(m, t)) by {
      match t
      case Deletes(id, ok) => RemoveValid(m.table, id); DeleteKeeps(m, id, ok);
      case Reorders(ids, ok) => ReorderedAll(m.table, ids); ReorderKeeps(m, ids, ok);
      case Begins(id) => BeginsKeep(m, id);
      case Notes(id, status, pause, error, holds, exitsOnly) => NotesKeep(m, id, status, pause, error, holds, exitsOnly);
      case Ends(id) => EndsKeep(m, id);
      case Saves(ok) => SavesKeep(m, ok);
      case Stops(id, closed, ok) => StopKeeps(m, id, closed, ok);
      case ShutsDown(ok) => ShutdownKeeps(m, ok);
      case SetsFund(amount, ok) => SetFundKeeps(m, amount, ok);
      case Edits(id, capital, ok) => EditKeeps(m, id, capital, ok);
    }
  }

  lemma BootKeepsOneEach(m: Server, legacy: set<Id>, refused: set<Id>, g: Graphs, loaded: bool, ok: bool)
    ensures var m1 := Boot(m, legacy, refused, g, loaded, ok);
            OneEach(m1) && TasksKnown(m1)
  {
    hide LoadRows, RowsToSave, ResumeUpTo, ValidTable;
    LoadIsValid(m, legacy, refused, loaded);
    var start := Load(m, legacy, refused, loaded).(attempted := []);
    ResumeKeepsOneEach(start, |start.table.order|, g);
    var m1, after := Boot(m, legacy, refused, g, loaded, ok), ResumeUpTo(start, |start.table.order|, g);
    assert m1.table == after.table && m1.tasks == after.tasks;
  }

  /** Over every history of a manager that starts with no runner. */
  lemma {:induction false} OneRunnerPerSymbolAndSide(m: Server, turns: seq<Turn>)
    requires ValidTable(m.table) && m.tasks == map[]
    ensures var m1 := Played(m, turns); OneEach(m1) && TasksKnown(m1)
  {
    if turns != [] {
      OneRunnerPerSymbolAndSide(m, turns[..|turns| - 1]);
      TurnKeepsOneEach(Played(m, turns[..|turns| - 1]), turns[|turns| - 1]);
    }
  }
}
