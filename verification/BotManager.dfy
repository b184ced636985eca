/** The bot manager: backend/bot_manager.py, from `add_bots` to `shutdown`, as functions of its state and
    as the class that changes it: the table of bots, the kept rows, the runners and the file on disk. */
module BotManager {
  import opened BotTypes
  import opened Seqs
  import opened ManagerRows

  /** The manager, the file it saves to, and the bots auto-resume passed to start_bot.  tasks: true
      while a bot's runner is not done. */
  datatype Server = Server(
    fund: real, table: Table, kept: seq<Kept>, disk: seq<Row>, diskFund: real, tasks: map<Id, bool>, attempted: seq<Id>)

  datatype Refusal = EmptyBatch | SymbolConflict | NoFund | OverFund | SaveFailed

  // ---- adding bots ----

  /** symbols_conflict. */
  predicate Conflict(a: Bot, b: Bot) {
    a.symbol == b.symbol && (a.bothSides || b.bothSides || a.side == b.side)
  }

  predicate ClashesWith(a: Bot, t: Table)
    requires ValidTable(t)
  {
    exists id <- t.order :: Conflict(a, t.bots[id])
  }

  predicate Clashes(legs: seq<Bot>, t: Table)
    requires ValidTable(t)
  {
    || (exists i, j | 0 <= i < j < |legs| :: Conflict(legs[i], legs[j]))
    || (exists i | 0 <= i < |legs| :: ClashesWith(legs[i], t))
  }

  function Capital(bots: seq<Bot>): real {
    if bots == [] then 0.0 else Capital(bots[..|bots| - 1]) + bots[|bots| - 1].capital
  }

  function Listed(t: Table): (bots: seq<Bot>)
    requires ValidTable(t)
    ensures |bots| == |t.order| && forall k | 0 <= k < |bots| :: bots[k] == t.bots[t.order[k]]
  {
    seq(|t.order|, k requires 0 <= k < |t.order| => t.bots[t.order[k]])
  }

  /** What refuses a batch before anything is inserted, if anything does. */
  function WhyRefused(m: Server, legs: seq<Bot>): Option<Refusal>
    requires ValidTable(m.table)
  {
    if legs == [] then Some(EmptyBatch)
    else if Clashes(legs, m.table) then Some(SymbolConflict)
    else if m.fund == 0.0 then Some(NoFund)
    else if Capital(Listed(m.table)) + Capital(legs) > m.fund then Some(OverFund)
    else None
  }

  /** A bot as it is added: BotState(). */
  function Unstarted(b: Bot): Bot {
    b.(status := Stopped, pause := false, error := NoError, wasRunning := false, userStopped := false, holds := false,
       exitsOnly := false)
  }

  function PutAll(t: Table, ids: seq<Id>, legs: seq<Bot>): (t1: Table)
    requires ValidTable(t) && |ids| == |legs|
    ensures ValidTable(t1)
  {
    if ids == [] then t
    else
      var n := |ids| - 1;
      PutValid(PutAll(t, ids[..n], legs[..n]), ids[n], Unstarted(legs[n]));
      Put(PutAll(t, ids[..n], legs[..n]), ids[n], Unstarted(legs[n]))
  }

  lemma PutValid(t: Table, id: Id, bot: Bot)
    requires ValidTable(t)
    ensures ValidTable(Put(t, id, bot))
  {
  }

  /** save(): the whole file, or (when the write fails) the old one. */
  function Save(m: Server, ok: bool): Server
    requires ValidTable(m.table)
  {
    if ok then m.(disk := RowsToSave(m.table, m.kept), diskFund := m.fund) else m
  }

  /** add_bots: every leg in memory and on disk, or (refused, or a save that failed) none. */
  function AddBots(m: Server, ids: seq<Id>, legs: seq<Bot>, ok: bool): Server
    requires ValidTable(m.table) && |ids| == |legs|
  {
    if WhyRefused(m, legs).Some? || !ok then m else Save(m.(table := PutAll(m.table, ids, legs)), true)
  }

  // ---- the fund ----

  /** set_bot_fund: refused below what is allocated. */
  function SetFund(m: Server, amount: real, ok: bool): Server
    requires ValidTable(m.table)
  {
    if amount < Capital(Listed(m.table)) then m else Save(m.(fund := amount), ok)
  }

  /** update_bot, for the capital: refused for a running bot, and not checked against the fund. */
  function EditCapital(m: Server, id: Id, capital: real, ok: bool): Server
    requires ValidTable(m.table)
  {
    if id !in m.table.bots || m.table.bots[id].status == Running then m
    else Save(SetBot(m, id, m.table.bots[id].(capital := capital)), ok)
  }

  // ---- order and removal ----

  /** The ids that exist, each where it is met first, after start. */
  function Picked(order: seq<Id>, start: seq<Id>, ids: seq<Id>): seq<Id> {
    if ids == [] then start
    else
      var before := Picked(order, start, ids[..|ids| - 1]);
      var id := ids[|ids| - 1];
      if id in order && id !in before then before + [id] else before
  }

  lemma {:induction false} PickedIds(order: seq<Id>, start: seq<Id>, ids: seq<Id>)
    requires Distinct(start) && forall id <- start :: id in order
    ensures Distinct(Picked(order, start, ids))
    ensures forall id :: id in Picked(order, start, ids) <==> id in start || (id in ids && id in order)
  {
    if ids != [] {
      PickedIds(order, start, ids[..|ids| - 1]);
      assert ids == ids[..|ids| - 1] + [ids[|ids| - 1]];
    }
  }

  /** Of two bots picked, the earlier is listed before the later is listed at all. */
  lemma {:induction false} PickedOrder(order: seq<Id>, ids: seq<Id>, i: nat, j: nat)
    requires i < j < |Picked(order, [], ids)|
    ensures exists p: nat | p < |ids| :: ids[p] == Picked(order, [], ids)[i] && Picked(order, [], ids)[j] !in ids[..p + 1]
  {
    var n := |ids| - 1;
    var before, id := Picked(order, [], ids[..n]), ids[n];
    PickedIds(order, [], ids[..n]);
    if j < |before| {
      PickedOrder(order, ids[..n], i, j);
      var p: nat :| p < n && ids[..n][p] == before[i] && before[j] !in ids[..n][..p + 1];
      assert ids[p] == before[i] && ids[..p + 1] == ids[..n][..p + 1];
    } else {
      assert before[i] in before;
      var p: nat :| p < n && ids[..n][p] == before[i];
      assert id !in ids[..n] && ids[..p + 1] == ids[..n][..p + 1];
      assert ids[p] == before[i];
    }
  }

  /** reorder: the bots are the same, and stand as they are listed, those not listed last in their order. */
  lemma ReorderedAsListed(m: Server, ids: seq<Id>, ok: bool, i: nat, j: nat)
    requires ValidTable(m.table) && i < j < |Reorder(m, ids, ok).table.order|
    ensures var m1, listed := Reorder(m, ids, ok), ids + m.table.order;
            && m1.table.bots == m.table.bots && (forall id :: id in m1.table.order <==> id in m.table.order)
            && exists p: nat | p < |listed| :: listed[p] == m1.table.order[i] && m1.table.order[j] !in listed[..p + 1]
  {
    hide RowsToSave;
    PickedIds(m.table.order, [], ids + m.table.order);
    PickedOrder(m.table.order, ids + m.table.order, i, j);
  }

  /** Reordering keeps every bot, once. */
  lemma ReorderedAll(t: Table, ids: seq<Id>)
    requires ValidTable(t)
    ensures ValidTable(t.(order := Picked(t.order, [], ids + t.order)))
  {
    PickedIds(t.order, [], ids + t.order);
  }

  lemma {:induction false} PickedTwice(order: seq<Id>, start: seq<Id>, a: seq<Id>, b: seq<Id>)
    ensures Picked(order, start, a + b) == Picked(order, Picked(order, start, a), b)
  {
    if b == [] {
      assert a + b == a;
    } else {
      PickedTwice(order, start, a, b[..|b| - 1]);
      assert (a + b)[..|a + b| - 1] == a + b[..|b| - 1];
    }
  }

  lemma PickedBoth(order: seq<Id>, ids: seq<Id>)
    ensures Picked(order, Picked(order, [], ids), order) == Picked(order, [], ids + order)
  {
    PickedTwice(order, [], ids, order);
  }

  lemma DistinctPrepend(a: Id, s: seq<Id>)
    requires Distinct(s) && a !in s
    ensures Distinct([a] + s)
  {
  }

  lemma {:induction false} WithoutIds(s: seq<Id>, x: Id)
    requires Distinct(s)
    ensures Distinct(Without(s, x)) && forall id :: id in Without(s, x) <==> id in s && id != x
  {
    if s != [] {
      assert s == [s[0]] + s[1..] && s[0] !in s[1..];
      WithoutIds(s[1..], x);
      DistinctPrepend(s[0], Without(s[1..], x));
    }
  }

  lemma RemoveValid(t: Table, id: Id)
    requires ValidTable(t)
    ensures ValidTable(Remove(t, id))
  {
    WithoutIds(t.order, id);
  }

  /** delete_bot. */
  function DeleteBot(m: Server, id: Id, ok: bool): Server
    requires ValidTable(m.table)
  {
    if id !in m.table.bots || Live(m, id) then m
    else
      RemoveValid(m.table, id);
      Save(m.(table := Remove(m.table, id), tasks := m.tasks - {id}), ok)
  }

  /** reorder. */
  function Reorder(m: Server, ids: seq<Id>, ok: bool): Server
    requires ValidTable(m.table)
  {
    ReorderedAll(m.table, ids);
    Save(m.(table := m.table.(order := Picked(m.table.order, [], ids + m.table.order))), ok)
  }

  // ---- the life of a bot ----

  predicate Live(m: Server, id: Id) {
    id in m.tasks && m.tasks[id]
  }

  /** start_bot's guard: no other live runner on the symbol that conflicts. */
  predicate Exclusive(m: Server, id: Id)
    requires id in m.table.bots
  {
    forall other <- m.table.order ::
      other != id && Live(m, other) && other in m.table.bots ==> !Conflict(m.table.bots[id], m.table.bots[other])
  }

  function SetBot(m: Server, id: Id, b: Bot): Server {
    m.(table := m.table.(bots := m.table.bots[id := b]))
  }

  function SetTask(m: Server, id: Id, live: bool): Server {
    m.(tasks := m.tasks[id := live])
  }

  /** What _check_graph gives for a graph bot: the graph compiles, the bot's code refuses it, or
      anything else does. */
  datatype Check = Compiles | CodeRefused | Broken

  /** The start is refused: the graph does not compile, and it is not the code of a bot in a position. */
  predicate Refuses(b: Bot, check: Check) {
    b.graph && !check.Compiles? && !(check.CodeRefused? && (b.holds || b.exitsOnly))
  }

  /** A bot whose start was refused (refuse_start). */
  function RefusedBot(b: Bot): Bot {
    b.(status := Errored, pause := true, error := OtherError)
  }

  function RefuseStart(m: Server, id: Id, ok: bool): Server
    requires ValidTable(m.table) && id in m.table.bots
  {
    Save(SetBot(m, id, RefusedBot(m.table.bots[id])), ok)
  }

  /** A bot as its runner gets it: refused for its code in a position, it runs only its exits. */
  function StartedBot(b: Bot, check: Check): Bot {
    if b.graph && check.CodeRefused? then b.(exitsOnly := true) else b
  }

  /** start_bot.  ok: the save of a refusal is written. */
  function StartBot(m: Server, id: Id, check: Check, ok: bool): (m1: Server)
    requires ValidTable(m.table)
    ensures ValidTable(m1.table) && m1.table.order == m.table.order && m1.table.bots.Keys == m.table.bots.Keys
  {
    if id !in m.table.bots || Live(m, id) || !Exclusive(m, id) then m
    else if Refuses(m.table.bots[id], check) then RefuseStart(m, id, ok)
    else SetTask(SetBot(m, id, StartedBot(m.table.bots[id], check)), id, true)
  }

  /** A start route: prepare_start compiles before start_bot looks at the other runners. */
  function RequestStart(m: Server, id: Id, check: Check, ok: bool): Server
    requires ValidTable(m.table)
  {
    if id in m.table.bots && !Live(m, id) && Refuses(m.table.bots[id], check) then RefuseStart(m, id, ok)
    else StartBot(m, id, check, ok)
  }

  /** The first lines of run(). */
  function RunBegins(m: Server, id: Id): Server {
    if id !in m.table.bots || !Live(m, id) then m
    else
      SetBot(m, id, m.table.bots[id].(status := Running, wasRunning := false, userStopped := false, pause := false,
                                      error := NoError))
  }

  /** What a running bot's runner does to its own state between saves. */
  function RunnerNotes(m: Server, id: Id, status: Status, pause: bool, error: Note, holds: bool, exitsOnly: bool): Server {
    if id !in m.table.bots || !Live(m, id) then m
    else SetBot(m, id, m.table.bots[id].(status := status, pause := pause, error := error, holds := holds, exitsOnly := exitsOnly))
  }

  function WithStatus(b: Bot, status: Status): Bot {
    b.(status := status)
  }

  /** run()'s finally. */
  function RunEnds(m: Server, id: Id): Server {
    if id !in m.table.bots || !Live(m, id) then m
    else SetTask(SetBot(m, id, m.table.bots[id].(status := Stopped)), id, false)
  }

  /** stop_bot: closed: the position was closed with it. */
  function StopBot(m: Server, id: Id, closed: bool): Server {
    if id !in m.table.bots then m
    else
      var b := m.table.bots[id];
      SetBot(m.(tasks := m.tasks - {id}), id,
             b.(status := Stopped, userStopped := true, holds := false, exitsOnly := b.exitsOnly && !closed))
  }

  /** stop_bot with its save. */
  function StopAndSave(m: Server, id: Id, closed: bool, ok: bool): Server
    requires ValidTable(m.table)
  {
    if id !in m.table.bots then m else Save(StopBot(m, id, closed), ok)
  }

  /** A bot when every task has finished. */
  function Ended(b: Bot, live: bool): Bot {
    if live then WithStatus(b, Stopped) else b
  }

  function NoTasks(m: Server): map<Id, bool> {
    map id | id in m.tasks :: false
  }

  /** shutdown() once every runner has finished: the statuses the bots had are written back over
      the "stopped" of their runners. */
  function Shutdown(m: Server, ok: bool): Server
    requires ValidTable(m.table)
  {
    Save(m.(tasks := NoTasks(m)), ok)
  }

  // ---- the next boot ----

  /** _load_entry and _code_load_check.  legacy: the row is from before user_stopped was saved;
      refused: the bot's code is refused. */
  function LoadBot(b: Bot, legacy: bool, refused: bool): Bot {
    var was := b.status == Running;
    var l := b.(status := Stopped, wasRunning := was, userStopped := b.userStopped || (legacy && !was));
    if !b.graph || !refused then l
    else if l.holds || l.exitsOnly then l.(exitsOnly := true)
    else l.(status := Errored, pause := true, error := OtherError)
  }

  function LoadEntry(row: Row, legacy: set<Id>, refused: set<Id>): Row {
    match row
    case Readable(id, b) => Readable(id, LoadBot(b, id in legacy, id in refused))
    case Unreadable(_) => row
  }

  function LoadEntries(rows: seq<Row>, legacy: set<Id>, refused: set<Id>): (loaded: seq<Row>)
    ensures |loaded| == |rows| && forall k | 0 <= k < |rows| :: loaded[k] == LoadEntry(rows[k], legacy, refused)
  {
    seq(|rows|, k requires 0 <= k < |rows| => LoadEntry(rows[k], legacy, refused))
  }

  /** load() in a new process. */
  function Load(m: Server, legacy: set<Id>, refused: set<Id>, ok: bool): Server {
    var l := LoadRows(LoadEntries(m.disk, legacy, refused));
    LoadedValid(LoadEntries(m.disk, legacy, refused));
    var loaded := m.(fund := m.diskFund, table := l.table, kept := l.kept, tasks := map[]);
    if l.table.order == [] then loaded else Save(loaded, ok)
  }

  /** The recovery note of run()'s backoff is not a reason to stay stopped. */
  function Forgiven(b: Bot): Bot {
    if !b.pause && b.error == Recovering then b.(error := NoError) else b
  }

  /** Auto-resume passes the bot to start_bot. */
  predicate Resumable(b: Bot) {
    b.wasRunning && !b.pause && Forgiven(b).error == NoError
  }

  /** The bot is passed to start_bot; one that does not start is no longer tagged. */
  function TryResume(m: Server, id: Id, check: Check, ok: bool): (m1: Server)
    requires ValidTable(m.table) && id in m.table.bots
    ensures ValidTable(m1.table) && m1.table.order == m.table.order
  {
    var tried := m.(attempted := m.attempted + [id]);
    var started := StartBot(tried, id, check, ok);
    if Live(started, id) && !Live(tried, id) then started
    else SetBot(started, id, started.table.bots[id].(wasRunning := false))
  }

  function ResumeOne(m: Server, id: Id, check: Check, ok: bool): (m1: Server)
    requires ValidTable(m.table) && id in m.table.bots
    ensures ValidTable(m1.table) && m1.table.order == m.table.order
  {
    var b := m.table.bots[id];
    if !b.wasRunning then m
    else if !Resumable(b) then SetBot(m, id, Forgiven(b).(wasRunning := false))
    else TryResume(SetBot(m, id, Forgiven(b)), id, check, ok)
  }

  /** What the compiler says of each bot at a boot, and the bots whose refusal is not saved. */
  datatype Graphs = Graphs(codeRefused: set<Id>, broken: set<Id>, unsaved: set<Id>) {
    function Of(id: Id): Check {
      if id in codeRefused then CodeRefused else if id in broken then Broken else Compiles
    }
  }

  function ResumeUpTo(m: Server, n: nat, g: Graphs): (m1: Server)
    requires ValidTable(m.table) && n <= |m.table.order|
    ensures ValidTable(m1.table) && m1.table.order == m.table.order
  {
    if n == 0 then m
    else
      var id := m.table.order[n - 1];
      ResumeOne(ResumeUpTo(m, n - 1, g), id, g.Of(id), id !in g.unsaved)
  }

  /** resume_was_running; it saves when it did anything. */
  function Resume(m: Server, g: Graphs, ok: bool): Server
    requires ValidTable(m.table)
  {
    var after := ResumeUpTo(m.(attempted := []), |m.table.order|, g);
    if exists id <- m.table.order :: m.table.bots[id].wasRunning then Save(after, ok) else after
  }

  // ---- the class ----

  class Manager {
    var fund: real
    var order: seq<Id>
    var bots: map<Id, Bot>
    var kept: seq<Kept>
    var tasks: map<Id, bool>
    // bots.json, and what auto-resume tried
    var disk: seq<Row>
    var diskFund: real
    ghost var attempted: seq<Id>

    ghost function View(): Server
      reads this
    {
      Server(fund, Table(order, bots), kept, disk, diskFund, tasks, attempted)
    }

    ghost predicate Valid()
      reads this
    {
      ValidTable(Table(order, bots))
    }

    constructor (file: seq<Row>, amount: real)
      ensures Valid() && View() == Server(0.0, Table([], map[]), [], file, amount, map[], [])
    {
      fund, order, bots, kept, tasks, attempted := 0.0, [], map[], [], map[], [];
      disk, diskFund := file, amount;
    }

    /** The dictionary of kept rows by anchor, with its keys in insertion order. */
    static method GroupByAnchor(kept: seq<Kept>) returns (keys: seq<Option<Id>>, pending: map<Option<Id>, seq<Row>>)
      ensures keys == Anchors(kept) && (forall a :: a in pending <==> a in keys)
      ensures forall a <- pending :: pending[a] == RawsOf(kept, a)
    {
      keys, pending := [], map[];
      var k := 0;
      while k < |kept|
        invariant 0 <= k <= |kept| && keys == Anchors(kept[..k]) && (forall a :: a in pending <==> a in keys)
        invariant forall a <- pending :: pending[a] == RawsOf(kept[..k], a)
      {
        var anchor := kept[k].anchor;
        assert kept[..k + 1][..k] == kept[..k];
        if anchor !in pending {
          AnchorsAreMet(kept[..k]);
          NoRaws(kept[..k], anchor);
          keys := keys + [anchor];
          pending := pending[anchor := []];
        }
        pending := pending[anchor := pending[anchor] + [Unreadable(kept[k].raw)]];
        k := k + 1;
      }
      assert kept[..|kept|] == kept;
    }

    /** _rows_to_save. */
    method Rows() returns (rows: seq<Row>)
      requires Valid()
      ensures rows == RowsToSave(Table(order, bots), kept)
    {
      hide RawsOf, Body, Leftovers;
      var keys, pending := GroupByAnchor(kept);
      AnchorsAreMet(kept);
      rows := [];
      if None in pending {
        rows := pending[None];
        pending := pending - {None};
      } else {
        NoRaws(kept, None);
      }
      rows, pending := AddBodies(rows, keys, pending);
      rows := AddLeftovers(rows, keys, pending);
    }

    /** pending.pop(anchor, []). */
    method GroupOf(anchor: Option<Id>, ghost keys: seq<Option<Id>>, pending: map<Option<Id>, seq<Row>>) returns (raws: seq<Row>)
      requires keys == Anchors(kept) && (anchor in pending <==> anchor in keys)
      requires anchor in pending ==> pending[anchor] == RawsOf(kept, anchor)
      ensures raws == RawsOf(kept, anchor)
    {
      if anchor in pending { return pending[anchor]; }
      AnchorsAreMet(kept);
      NoRaws(kept, anchor);
      return [];
    }

    /** Each bot's row, with the kept rows that followed it. */
    method AddBodies(before: seq<Row>, ghost keys: seq<Option<Id>>, groups: map<Option<Id>, seq<Row>>)
      returns (rows: seq<Row>, pending: map<Option<Id>, seq<Row>>)
      requires Valid() && keys == Anchors(kept)
      requires (forall a :: a in groups <==> a in keys && a.Some?) && forall a <- groups :: groups[a] == RawsOf(kept, a)
      ensures rows == before + Body(order, bots, kept)
      ensures forall a :: a in pending <==> a in keys && a.Some? && a.value !in bots
      ensures forall a <- pending :: pending[a] == RawsOf(kept, a)
    {
      hide RawsOf, Anchors, Body;
      rows, pending := before, groups;
      assert rows == before + Body(order[..0], bots, kept) by { EmptyBody(order, bots, kept); }
      var k := 0;
      while k < |order|
        invariant 0 <= k <= |order| && rows == before + Body(order[..k], bots, kept)
        invariant forall a :: a in pending <==> a in keys && a.Some? && a.value !in order[..k]
        invariant forall a <- pending :: pending[a] == RawsOf(kept, a)
      {
        var id := order[k];
        BodyStep(before, order, k, bots, kept);
        rows := rows + [Readable(id, bots[id])];
        var raws := GroupOf(Some(id), keys, pending);
        rows := rows + raws;
        pending := pending - {Some(id)};
        k := k + 1;
      }
      assert order[..|order|] == order;
    }

    /** The groups whose anchor is gone, in their order. */
    method AddLeftovers(rows: seq<Row>, keys: seq<Option<Id>>, pending: map<Option<Id>, seq<Row>>) returns (all: seq<Row>)
      requires forall a :: a in pending <==> a in keys && a.Some? && a.value !in bots
      requires forall a <- pending :: pending[a] == RawsOf(kept, a)
      ensures all == rows + Leftovers(keys, bots, kept)
    {
      hide Leftovers, RawsOf;
      all := rows;
      var k := 0;
      LeftoversNone(bots, kept);
      assert keys[..0] == [];
      while k < |keys|
        invariant 0 <= k <= |keys| && all == rows + Leftovers(keys[..k], bots, kept)
      {
        LeftoversStep(keys, k, bots, kept);
        assert keys[k] in keys;
        if keys[k] in pending { all := all + pending[keys[k]]; }
        k := k + 1;
      }
      assert keys[..|keys|] == keys;
    }

    /** save(). */
    method SaveFile(ok: bool)
      requires Valid()
      modifies this`disk, this`diskFund
      ensures View() == Save(old(View()), ok)
    {
      var rows := Rows();
      if ok { disk, diskFund := rows, fund; }
    }

    static method AnyConflict(legs: seq<Bot>, a: Bot) returns (clash: bool)
      ensures clash <==> exists j | 0 <= j < |legs| :: Conflict(a, legs[j])
    {
      var j := 0;
      while j < |legs|
        invariant 0 <= j <= |legs| && forall x | 0 <= x < j :: !Conflict(a, legs[x])
      {
        if Conflict(a, legs[j]) { return true; }
        j := j + 1;
      }
      return false;
    }

    method ListBots() returns (all: seq<Bot>)
      requires Valid()
      ensures all == Listed(Table(order, bots))
    {
      all := [];
      var k := 0;
      while k < |order|
        invariant 0 <= k <= |order| && |all| == k && forall x | 0 <= x < k :: all[x] == bots[order[x]]
      {
        all := all + [bots[order[k]]];
        k := k + 1;
      }
    }

    /** The exclusive-symbol guard of add_bots. */
    method FindClash(legs: seq<Bot>) returns (clash: bool)
      requires Valid()
      ensures clash <==> Clashes(legs, Table(order, bots))
    {
      var all := ListBots();
      var n := 0;
      while n < |legs|
        invariant 0 <= n <= |legs|
        invariant forall i, j | 0 <= i < j < |legs| && i < n :: !Conflict(legs[i], legs[j])
        invariant forall i | 0 <= i < n :: !ClashesWith(legs[i], Table(order, bots))
      {
        var later := AnyConflict(legs[n + 1..], legs[n]);
        if later {
          var j :| 0 <= j < |legs[n + 1..]| && Conflict(legs[n], legs[n + 1..][j]);
          assert Conflict(legs[n], legs[n + 1 + j]);
          return true;
        }
        forall j | n < j < |legs| ensures !Conflict(legs[n], legs[j]) { assert legs[j] == legs[n + 1..][j - n - 1]; }
        var others := AnyConflict(all, legs[n]);
        if others {
          var j :| 0 <= j < |all| && Conflict(legs[n], all[j]);
          assert order[j] in order;
          return true;
        }
        forall id <- order ensures !Conflict(legs[n], bots[id]) {
          var j :| 0 <= j < |order| && order[j] == id;
          assert all[j] == bots[id];
        }
        n := n + 1;
      }
      return false;
    }

    static method SumCapital(all: seq<Bot>) returns (sum: real)
      ensures sum == Capital(all)
    {
      sum := 0.0;
      var k := 0;
      while k < |all|
        invariant 0 <= k <= |all| && sum == Capital(all[..k])
      {
        assert all[..k + 1][..k] == all[..k];
        sum := sum + all[k].capital;
        k := k + 1;
      }
      assert all[..|all|] == all;
    }

    /** add_bots.  ids: the new bots' ids (uuid4), distinct and unused. */
    method AddAll(ids: seq<Id>, legs: seq<Bot>, ok: bool) returns (refused: Option<Refusal>)
      requires Valid() && |ids| == |legs| && Distinct(ids) && forall id <- ids :: id !in bots
      modifies this
      ensures Valid() && View() == AddBots(old(View()), ids, legs, ok)
      ensures refused == if WhyRefused(old(View()), legs).Some? then WhyRefused(old(View()), legs)
                         else if ok then None else Some(SaveFailed)
    {
      if legs == [] { return Some(EmptyBatch); }
      var clash := FindClash(legs);
      if clash { return Some(SymbolConflict); }
      if fund == 0.0 { return Some(NoFund); }
      var all := ListBots();
      var used := SumCapital(all);
      var wanted := SumCapital(legs);
      if used + wanted > fund { return Some(OverFund); }
      ghost var t := Table(order, bots);
      InsertAll(ids, legs);
      SaveFile(ok);
      if !ok {
        RollBack(t, ids, legs);
        return Some(SaveFailed);
      }
      return None;
    }

    method InsertAll(ids: seq<Id>, legs: seq<Bot>)
      requires Valid() && |ids| == |legs|
      modifies this`order, this`bots
      ensures Valid() && Table(order, bots) == PutAll(old(Table(order, bots)), ids, legs)
    {
      hide Unstarted, PutAll, ValidTable;
      ghost var t := Table(order, bots);
      assert ids[..0] == [] && legs[..0] == [];
      PutNone(t);
      var k := 0;
      while k < |ids|
        invariant 0 <= k <= |ids| && Table(order, bots) == PutAll(t, ids[..k], legs[..k])
      {
        PutAllStep(t, ids, legs, k);
        if ids[k] !in bots { order := order + [ids[k]]; }
        bots := bots[ids[k] := Unstarted(legs[k])];
        k := k + 1;
      }
      assert ids[..|ids|] == ids && legs[..|ids|] == legs;
    }

    /** The rollback of _insert_and_save: every new bot is popped again. */
    method RollBack(ghost t: Table, ids: seq<Id>, legs: seq<Bot>)
      requires ValidTable(t) && |ids| == |legs| && Distinct(ids) && (forall id <- ids :: id !in t.bots)
      requires Table(order, bots) == PutAll(t, ids, legs)
      modifies this`order, this`bots
      ensures Table(order, bots) == t
    {
      hide PutAll, ValidTable, Distinct, StillIn, Without;
      AllStillIn(t, ids, legs);
      var k := 0;
      while k < |ids|
        invariant 0 <= k <= |ids| && order == t.order + ids[k..] && StillIn(t, bots, ids[k..])
      {
        DropOne(t, ids, k);
        DropFromMap(t, bots, ids, k);
        order := Without(order, ids[k]);
        bots := bots - {ids[k]};
        k := k + 1;
      }
      NoneStillIn(t, order, bots, ids);
    }

    /** set_bot_fund: false when less than what is allocated is asked for. */
    method SetTheFund(amount: real, ok: bool) returns (done: bool)
      requires Valid()
      modifies this
      ensures Valid() && View() == SetFund(old(View()), amount, ok)
      ensures done <==> amount >= Capital(Listed(Table(order, bots)))
    {
      var all := ListBots();
      var used := SumCapital(all);
      if amount < used { return false; }
      fund := amount;
      SaveFile(ok);
      return true;
    }

    /** update_bot, for the capital. */
    method EditOne(id: Id, capital: real, ok: bool)
      requires Valid()
      modifies this
      ensures Valid() && View() == EditCapital(old(View()), id, capital, ok)
    {
      if id in bots && bots[id].status != Running {
        SetEntry(id, bots[id].(capital := capital));
        SaveFile(ok);
      }
    }

    /** delete_bot: false when it is running or unknown. */
    method DeleteOne(id: Id, ok: bool) returns (deleted: bool)
      requires Valid()
      modifies this
      ensures Valid() && View() == DeleteBot(old(View()), id, ok)
    {
      deleted := id in bots && !(id in tasks && tasks[id]);
      if deleted {
        RemoveValid(Table(order, bots), id);
        order := Without(order, id);
        bots := bots - {id};
        tasks := tasks - {id};
        SaveFile(ok);
      }
    }

    /** reorder. */
    method ReorderAll(ids: seq<Id>, ok: bool)
      requires Valid()
      modifies this
      ensures Valid() && View() == Reorder(old(View()), ids, ok)
    {
      ReorderedAll(Table(order, bots), ids);
      var listed := Pick([], ids);
      var all := Pick(listed, order);
      PickedBoth(order, ids);
      order := all;
      SaveFile(ok);
    }

    /** The loop of reorder: each id that exists and is not there yet goes last. */
    method Pick(start: seq<Id>, ids: seq<Id>) returns (picked: seq<Id>)
      requires Valid()
      ensures picked == Picked(order, start, ids)
    {
      picked := start;
      var k := 0;
      while k < |ids|
        invariant 0 <= k <= |ids| && picked == Picked(order, start, ids[..k])
      {
        assert ids[..k + 1][..k] == ids[..k];
        if ids[k] in bots && ids[k] !in picked { picked := picked + [ids[k]]; }
        k := k + 1;
      }
      assert ids[..|ids|] == ids;
    }

    /** start_bot's guard against the other live runners. */
    method Guard(id: Id) returns (free: bool)
      requires Valid() && id in bots
      ensures free == Exclusive(View(), id)
    {
      var k := 0;
      while k < |order|
        invariant 0 <= k <= |order|
        invariant forall j | 0 <= j < k :: order[j] != id && Live(View(), order[j]) ==> !Conflict(bots[id], bots[order[j]])
      {
        var other := order[k];
        if other != id && other in tasks && tasks[other] && bots[other].symbol == bots[id].symbol
           && (bots[id].bothSides || bots[other].bothSides || bots[other].side == bots[id].side)
        {
          return false;
        }
        k := k + 1;
      }
      forall other <- order | other != id && Live(View(), other) ensures !Conflict(bots[id], bots[other]) {
        var j :| 0 <= j < |order| && order[j] == other;
      }
      return true;
    }

    /** start_bot. */
    method StartOne(id: Id, check: Check, ok: bool) returns (started: bool)
      requires Valid()
      modifies this`tasks, this`bots, this`disk, this`diskFund
      ensures Valid() && View() == StartBot(old(View()), id, check, ok) && bots.Keys == old(bots).Keys
      ensures started <==> Live(View(), id) && !Live(old(View()), id)
    {
      hide Exclusive, Refuses, RefuseStart, StartedBot, ValidTable;
      if id !in bots || (id in tasks && tasks[id]) { return false; }
      var free := Guard(id);
      if !free { return false; }
      if Refuses(bots[id], check) {
        Refuse(id, ok);
        return false;
      }
      SetEntry(id, StartedBot(bots[id], check));
      tasks := tasks[id := true];
      return true;
    }

    /** refuse_start: the error and the pause are recorded and saved. */
    method Refuse(id: Id, ok: bool)
      requires Valid() && id in bots
      modifies this`bots, this`disk, this`diskFund
      ensures Valid() && View() == RefuseStart(old(View()), id, ok) && bots.Keys == old(bots).Keys
    {
      SetEntry(id, RefusedBot(bots[id]));
      SaveFile(ok);
    }

    /** A start route: prepare_start, and then refuse_start or start_bot. */
    method RequestOne(id: Id, check: Check, ok: bool) returns (started: bool)
      requires Valid()
      modifies this`tasks, this`bots, this`disk, this`diskFund
      ensures Valid() && View() == RequestStart(old(View()), id, check, ok)
      ensures started <==> Live(View(), id) && !Live(old(View()), id)
    {
      if id in bots && !(id in tasks && tasks[id]) && Refuses(bots[id], check) {
        Refuse(id, ok);
        return false;
      }
      started := StartOne(id, check, ok);
    }

    /** stop_bot. */
    method StopOne(id: Id, closed: bool, ok: bool)
      requires Valid()
      modifies this
      ensures Valid() && View() == StopAndSave(old(View()), id, closed, ok)
    {
      if id in bots {
        tasks := tasks - {id};
        var b := bots[id].(status := Stopped, userStopped := true, holds := false);
        if closed { b := b.(exitsOnly := false); }
        bots := bots[id := b];
        SaveFile(ok);
      }
    }

    /** shutdown: every live runner ends (its finally sets the status to stopped), then the statuses
        they had are written back, and the file is saved. */
    method ShutDown(ok: bool)
      requires Valid()
      modifies this
      ensures Valid() && View() == Shutdown(old(View()), ok)
    {
      var was := bots;
      ghost var running := tasks;
      EndAll();
      WriteBack(was);
      assert bots == was;
      SaveFile(ok);
    }

    /** Every task is cancelled and its runner finishes. */
    method EndAll()
      requires Valid()
      modifies this`bots, this`tasks
      ensures Valid() && tasks == NoTasks(old(View())) && bots.Keys == old(bots).Keys
      ensures forall id <- bots :: bots[id] == Ended(old(bots)[id], Live(old(View()), id))
    {
      hide ValidTable, WithStatus;
      ghost var was := bots;
      var k := 0;
      while k < |order|
        invariant 0 <= k <= |order| && Valid() && bots.Keys == was.Keys && tasks == old(tasks)
        invariant forall id <- bots :: bots[id] == Ended(was[id], Live(old(View()), id) && id in order[..k])
      {
        OrderIsIn(Table(order, bots), k);
        var id := order[k];
        if id in tasks && tasks[id] { SetEntry(id, WithStatus(bots[id], Stopped)); }
        k := k + 1;
      }
      AllInOrder(Table(order, bots));
      tasks := map id | id in tasks :: false;
    }

    /** The recorded statuses of the bots that were live. */
    method WriteBack(was: map<Id, Bot>)
      requires Valid() && was.Keys == bots.Keys
      requires forall id <- bots :: WithStatus(bots[id], was[id].status) == was[id]
      modifies this`bots
      ensures Valid() && bots == was
    {
      hide ValidTable, WithStatus;
      var k := 0;
      while k < |order|
        invariant 0 <= k <= |order| && Valid() && bots.Keys == was.Keys
        invariant forall id <- bots :: id in order[..k] ==> bots[id] == was[id]
        invariant forall id <- bots :: id !in order[..k] ==> WithStatus(bots[id], was[id].status) == was[id]
      {
        OrderIsIn(Table(order, bots), k);
        var id := order[k];
        SetEntry(id, WithStatus(bots[id], was[id].status));
        k := k + 1;
      }
      AllInOrder(Table(order, bots));
    }

    /** load: one row after the other, in a new process. */
    method LoadFile(legacy: set<Id>, refused: set<Id>, ok: bool)
      requires Valid() && order == [] && kept == []
      modifies this
      ensures Valid() && View() == Load(old(View()), legacy, refused, ok)
    {
      hide LoadEntry, LoadRow, ValidTable;
      ghost var rows := LoadEntries(disk, legacy, refused);
      NoBots(Table(order, bots));
      var previous: Option<Id> := None;
      tasks, fund := map[], diskFund;
      var k := 0;
      while k < |disk|
        invariant disk == old(disk) && diskFund == old(diskFund) && fund == diskFund && tasks == map[] && attempted == old(attempted)
        invariant 0 <= k <= |disk| && Loading(Table(order, bots), kept, previous) == LoadRows(rows[..k])
      {
        assert rows[..k + 1][..k] == rows[..k];
        previous := TakeRow(disk[k], previous, legacy, refused);
        k := k + 1;
      }
      assert rows[..|rows|] == rows;
      LoadedValid(rows);
      if order != [] { SaveFile(ok); }
    }

    /** A row's bot, or the row kept with the bot that loaded before it. */
    method TakeRow(row: Row, previous: Option<Id>, legacy: set<Id>, refused: set<Id>) returns (last: Option<Id>)
      modifies this`order, this`bots, this`kept
      ensures Loading(Table(order, bots), kept, last)
           == LoadRow(Loading(old(Table(order, bots)), old(kept), previous), LoadEntry(row, legacy, refused))
    {
      hide LoadBot;
      match row {
        case Readable(id, b) =>
          if id !in bots { order := order + [id]; }
          bots := bots[id := LoadBot(b, id in legacy, id in refused)];
          last := Some(id);
        case Unreadable(raw) =>
          kept := kept + [Kept(previous, raw)];
          last := previous;
      }
    }

    /** resume_was_running. */
    method ResumeAll(g: Graphs, ok: bool)
      requires Valid()
      modifies this
      ensures Valid() && View() == Resume(old(View()), g, ok)
    {
      hide ResumeUpTo;
      attempted := [];
      var any := AnyWasRunning();
      ResumeEach(g);
      if any { SaveFile(ok); }
    }

    /** Whether auto-resume has anything to do, and so anything to save. */
    method AnyWasRunning() returns (any: bool)
      requires Valid()
      ensures any <==> exists id <- order :: bots[id].wasRunning
    {
      var k := 0;
      while k < |order|
        invariant 0 <= k <= |order| && forall j | 0 <= j < k :: !bots[order[j]].wasRunning
      {
        if bots[order[k]].wasRunning { return true; }
        k := k + 1;
      }
      return false;
    }

    /** The loop of resume_was_running. */
    method ResumeEach(g: Graphs)
      requires Valid()
      modifies this
      ensures Valid() && View() == ResumeUpTo(old(View()), |old(order)|, g)
    {
      hide ResumeOne, ValidTable, Graphs.Of;
      ghost var m := View();
      var k := 0;
      while k < |order|
        invariant order == m.table.order && 0 <= k <= |order| && Valid() && View() == ResumeUpTo(m, k, g)
        decreases |m.table.order| - k
      {
        OrderIsIn(Table(order, bots), k);
        ResumeBot(order[k], g.Of(order[k]), order[k] !in g.unsaved);
        k := k + 1;
      }
    }

    /** self.bots[id] = bot, for a bot that is there. */
    method SetEntry(id: Id, b: Bot)
      requires Valid() && id in bots
      modifies this`bots
      ensures Valid() && View() == SetBot(old(View()), id, b) && bots.Keys == old(bots).Keys
    {
      bots := bots[id := b];
    }

    method ResumeBot(id: Id, check: Check, ok: bool)
      requires Valid() && id in bots
      modifies this
      ensures Valid() && View() == ResumeOne(old(View()), id, check, ok)
    {
      hide TryResume, ValidTable;
      var b := bots[id];
      if !b.wasRunning { return; }
      if !b.pause && b.error == Recovering { b := b.(error := NoError); }
      assert b == Forgiven(old(bots)[id]);
      if b.pause || b.error != NoError {
        SetEntry(id, b.(wasRunning := false));
        return;
      }
      SetEntry(id, b);
      TryOne(id, check, ok);
    }

    method TryOne(id: Id, check: Check, ok: bool)
      requires Valid() && id in bots
      modifies this
      ensures Valid() && View() == TryResume(old(View()), id, check, ok)
    {
      hide StartBot, ValidTable, SetBot;
      attempted := attempted + [id];
      var started := StartOne(id, check, ok);
      if !started { SetEntry(id, bots[id].(wasRunning := false)); }
    }
  }

  lemma OrderIsIn(t: Table, k: nat)
    requires ValidTable(t) && k < |t.order|
    ensures t.order[k] in t.bots && t.order[k] !in t.order[..k]
    ensures forall id :: id in t.order[..k + 1] <==> id in t.order[..k] || id == t.order[k]
  {
    assert t.order[..k + 1] == t.order[..k] + [t.order[k]];
  }

  lemma NoBots(t: Table)
    requires ValidTable(t) && t.order == []
    ensures t.bots == map[]
  {
  }

  lemma AllInOrder(t: Table)
    requires ValidTable(t)
    ensures forall id <- t.bots :: id in t.order[..|t.order|]
  {
    assert t.order[..|t.order|] == t.order;
  }

  lemma EmptyBody(order: seq<Id>, bots: map<Id, Bot>, kept: seq<Kept>)
    ensures Body(order[..0], bots, kept) == []
  {
  }

  lemma BodyStep(before: seq<Row>, order: seq<Id>, k: nat, bots: map<Id, Bot>, kept: seq<Kept>)
    requires k < |order| && Distinct(order) && forall x <- order :: x in bots
    ensures order[k] !in order[..k] && order[..k + 1] == order[..k] + [order[k]]
    ensures before + Body(order[..k + 1], bots, kept)
         == before + Body(order[..k], bots, kept) + [Readable(order[k], bots[order[k]])] + RawsOf(kept, Some(order[k]))
  {
    assert order[..k + 1] == order[..k] + [order[k]];
    BodyAppend(order[..k], order[k], bots, kept);
  }

  lemma LeftoversNone(bots: map<Id, Bot>, kept: seq<Kept>)
    ensures Leftovers([], bots, kept) == []
  {
  }

  lemma LeftoversStep(keys: seq<Option<Id>>, k: nat, bots: map<Id, Bot>, kept: seq<Kept>)
    requires k < |keys|
    ensures Leftovers(keys[..k + 1], bots, kept)
         == Leftovers(keys[..k], bots, kept) + if keys[k].None? || keys[k].value in bots then [] else RawsOf(kept, keys[k])
  {
    assert keys[..k + 1][..k] == keys[..k];
  }

  lemma PutNone(t: Table)
    requires ValidTable(t)
    ensures PutAll(t, [], []) == t
  {
  }

  lemma PutAllStep(t: Table, ids: seq<Id>, legs: seq<Bot>, k: nat)
    requires ValidTable(t) && |ids| == |legs| && k < |ids|
    ensures PutAll(t, ids[..k + 1], legs[..k + 1]) == Put(PutAll(t, ids[..k], legs[..k]), ids[k], Unstarted(legs[k]))
  {
    assert ids[..k + 1][..k] == ids[..k] && legs[..k + 1][..k] == legs[..k];
  }

  /** The map holds the table's bots and the ids that are left. */
  ghost predicate StillIn(t: Table, bots: map<Id, Bot>, left: seq<Id>) {
    (forall id :: id in bots <==> id in t.bots || id in left) && (forall id <- t.bots :: bots[id] == t.bots[id])
  }

  lemma DropFromMap(t: Table, bots: map<Id, Bot>, ids: seq<Id>, k: nat)
    requires Distinct(ids) && k < |ids| && (forall id <- ids :: id !in t.bots) && StillIn(t, bots, ids[k..])
    ensures StillIn(t, bots - {ids[k]}, ids[k + 1..])
  {
    assert ids[k] in ids;
    forall id ensures id in ids[k + 1..] <==> id in ids[k..] && id != ids[k] {
      assert ids[k..] == [ids[k]] + ids[k + 1..];
    }
  }

  lemma NoneStillIn(t: Table, order: seq<Id>, bots: map<Id, Bot>, ids: seq<Id>)
    requires StillIn(t, bots, ids[|ids|..]) && order == t.order + ids[|ids|..]
    ensures Table(order, bots) == t
  {
    assert ids[|ids|..] == [] && t.order + [] == t.order;
    assert bots == t.bots;
  }

  lemma AllStillIn(t: Table, ids: seq<Id>, legs: seq<Bot>)
    requires ValidTable(t) && |ids| == |legs| && Distinct(ids) && forall id <- ids :: id !in t.bots
    ensures var t1 := PutAll(t, ids, legs); t1.order == t.order + ids[0..] && StillIn(t, t1.bots, ids[0..])
  {
    hide PutAll, ValidTable, Distinct;
    assert ids[0..] == ids;
    PutAllFresh(t, ids, legs);
  }

  lemma DropOne(t: Table, ids: seq<Id>, k: nat)
    requires ValidTable(t) && Distinct(ids) && k < |ids| && forall id <- ids :: id !in t.bots
    ensures Without(t.order + ids[k..], ids[k]) == t.order + ids[k + 1..]
  {
    assert ids[k..] == [ids[k]] + ids[k + 1..];
    assert t.order + ids[k..] == t.order + [ids[k]] + ids[k + 1..];
    assert ids[k] !in ids[k + 1..];
    assert ids[k] in ids;
    WithoutMiddle(t.order, ids[k], ids[k + 1..]);
  }

  lemma {:induction false} WithoutNone(s: seq<Id>, x: Id)
    requires x !in s
    ensures Without(s, x) == s
  {
    if s != [] { WithoutNone(s[1..], x); }
  }

  lemma {:induction false} WithoutMiddle(a: seq<Id>, x: Id, b: seq<Id>)
    requires x !in a && x !in b
    ensures Without(a + [x] + b, x) == a + b
  {
    if a == [] {
      WithoutNone(b, x);
      assert ([x] + b)[1..] == b && [] + [x] + b == [x] + b;
    } else {
      WithoutMiddle(a[1..], x, b);
      assert (a + [x] + b)[1..] == a[1..] + [x] + b;
    }
  }

  lemma {:induction false} PutAllFresh(t: Table, ids: seq<Id>, legs: seq<Bot>)
    requires ValidTable(t) && |ids| == |legs| && Distinct(ids) && forall id <- ids :: id !in t.bots
    ensures var t1 := PutAll(t, ids, legs);
            && t1.order == t.order + ids
            && (forall id :: id in t1.bots <==> id in t.bots || id in ids)
            && (forall id <- t.bots :: t1.bots[id] == t.bots[id])
            && (forall k | 0 <= k < |ids| :: t1.bots[ids[k]] == Unstarted(legs[k]))
  {
    if ids != [] {
      var n := |ids| - 1;
      DistinctInit(ids);
      PutAllFresh(t, ids[..n], legs[..n]);
      assert PutAll(t, ids, legs) == Put(PutAll(t, ids[..n], legs[..n]), ids[n], Unstarted(legs[n]));
      hide PutAll, ValidTable, Distinct;
      SplitLast([], ids);
      SplitLast([], legs);
      PutLast(t, PutAll(t, ids[..n], legs[..n]), ids[..n], legs[..n], ids[n], legs[n]);
    }
  }

  lemma PutLast(t: Table, before: Table, ids: seq<Id>, legs: seq<Bot>, id: Id, leg: Bot)
    requires |ids| == |legs| && id !in ids && id !in t.bots && before.order == t.order + ids
    requires forall x :: x in before.bots <==> x in t.bots || x in ids
    requires forall x <- t.bots :: before.bots[x] == t.bots[x]
    requires forall k | 0 <= k < |ids| :: before.bots[ids[k]] == Unstarted(legs[k])
    ensures var t1 := Put(before, id, Unstarted(leg));
            && t1.order == t.order + (ids + [id])
            && (forall x :: x in t1.bots <==> x in t.bots || x in ids + [id])
            && (forall x <- t.bots :: t1.bots[x] == t.bots[x])
            && (forall k | 0 <= k <= |ids| :: t1.bots[(ids + [id])[k]] == Unstarted((legs + [leg])[k]))
  {
    forall k | 0 <= k < |ids| ensures ids[k] in before.bots && ids[k] != id { assert ids[k] in ids; }
    Regroup(t.order, ids, [id]);
  }

  lemma DistinctInit(ids: seq<Id>)
    requires Distinct(ids) && ids != []
    ensures Distinct(ids[..|ids| - 1]) && ids[|ids| - 1] !in ids[..|ids| - 1] && ids[|ids| - 1] in ids
    ensures forall id <- ids[..|ids| - 1] :: id in ids
  {
  }
}
