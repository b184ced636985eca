/** The bot fund over a manager's life: what a batch may take, and when all bots stay within it. */
module ManagerFunds {
  import opened BotTypes
  import opened ManagerRows
  import opened BotManager
  import opened ManagerLives

  // ---- sums ----

  /** The capital of bots is the sum over them. */
  lemma {:induction false} CapitalAdds(a: seq<Bot>, b: seq<Bot>)
    ensures Capital([]) == 0.0 && forall x: Bot :: Capital([x]) == x.capital
    ensures Capital(a + b) == Capital(a) + Capital(b)
  {
    forall x: Bot ensures Capital([x]) == x.capital { assert [x][..0] == []; }
    if b == [] {
      assert a + b == a;
    } else {
      CapitalAdds(a, b[..|b| - 1]);
      assert (a + b)[..|a + b| - 1] == a + b[..|b| - 1];
    }
  }

  /** The capital of these bots. */
  function Sum(order: seq<Id>, bots: map<Id, Bot>): real
    requires forall id <- order :: id in bots
  {
    if order == [] then 0.0 else bots[order[0]].capital + Sum(order[1..], bots)
  }

  lemma {:induction false} SumOfList(order: seq<Id>, bots: map<Id, Bot>, listed: seq<Bot>)
    requires |listed| == |order| && (forall id <- order :: id in bots) && forall k | 0 <= k < |order| :: listed[k] == bots[order[k]]
    ensures Capital(listed) == Sum(order, bots)
  {
    CapitalAdds([], []);
    if order != [] {
      SumOfList(order[1..], bots, listed[1..]);
      CapitalAdds([listed[0]], listed[1..]);
      assert listed == [listed[0]] + listed[1..];
    }
  }

  /** What is allocated: the capital of every bot of the table. */
  function Allocated(t: Table): real
    requires ValidTable(t)
  {
    Capital(Listed(t))
  }

  lemma AllocatedIsSum(t: Table)
    requires ValidTable(t)
    ensures Allocated(t) == Sum(t.order, t.bots)
  {
    SumOfList(t.order, t.bots, Listed(t));
  }

  lemma {:induction false} SumSame(order: seq<Id>, bots: map<Id, Bot>, bots1: map<Id, Bot>)
    requires forall id <- order :: id in bots && id in bots1 && bots[id].capital == bots1[id].capital
    ensures Sum(order, bots) == Sum(order, bots1)
  {
    if order != [] { SumSame(order[1..], bots, bots1); }
  }

  lemma {:induction false} SumConcat(a: seq<Id>, b: seq<Id>, bots: map<Id, Bot>)
    requires (forall id <- a :: id in bots) && forall id <- b :: id in bots
    ensures Sum(a + b, bots) == Sum(a, bots) + Sum(b, bots)
  {
    if a == [] {
      assert a + b == b;
    } else {
      SumConcat(a[1..], b, bots);
      assert (a + b)[1..] == a[1..] + b;
    }
  }

  lemma {:induction false} SumWithout(order: seq<Id>, bots: map<Id, Bot>, x: Id)
    requires Distinct(order) && x in order && forall id <- order :: id in bots
    ensures (forall id <- Without(order, x) :: id in bots) && Sum(Without(order, x), bots) == Sum(order, bots) - bots[x].capital
  {
    WithoutIds(order, x);
    if order[0] == x {
      assert x !in order[1..];
      WithoutNone(order[1..], x);
      assert [] + order[1..] == order[1..];
    } else {
      WithoutIds(order[1..], x);
      SumWithout(order[1..], bots, x);
      assert ([order[0]] + Without(order[1..], x))[1..] == Without(order[1..], x);
    }
  }

  lemma NoneIn(b: seq<Id>)
    ensures b == [] || exists id :: id in b
  {
    if b != [] { assert b[0] in b; }
  }

  lemma {:induction false} SumPermutes(a: seq<Id>, b: seq<Id>, bots: map<Id, Bot>)
    requires Distinct(a) && Distinct(b) && (forall id :: id in a <==> id in b) && forall id <- a :: id in bots
    ensures Sum(a, bots) == Sum(b, bots)
  {
    if a == [] {
      NoneIn(b);
    } else {
      assert a[0] in a && a[0] !in a[1..];
      WithoutIds(b, a[0]);
      SumWithout(b, bots, a[0]);
      forall id ensures id in a[1..] <==> id in Without(b, a[0]) { assert a == [a[0]] + a[1..]; }
      SumPermutes(a[1..], Without(b, a[0]), bots);
    }
  }

  /** The same bots with the same capital. */
  lemma SameCapital(t: Table, t1: Table)
    requires ValidTable(t) && ValidTable(t1) && (forall id :: id in t.bots <==> id in t1.bots)
    requires forall id <- t.bots :: t.bots[id].capital == t1.bots[id].capital
    ensures Allocated(t1) == Allocated(t)
  {
    AllocatedIsSum(t);
    AllocatedIsSum(t1);
    SumSame(t.order, t.bots, t1.bots);
    SumPermutes(t.order, t1.order, t1.bots);
  }

  // ---- a batch ----

  lemma {:induction false} LegsSum(ids: seq<Id>, legs: seq<Bot>, bots: map<Id, Bot>)
    requires |ids| == |legs| && forall k | 0 <= k < |ids| :: ids[k] in bots && bots[ids[k]].capital == legs[k].capital
    ensures Sum(ids, bots) == Capital(legs)
  {
    CapitalAdds([], []);
    if ids != [] {
      LegsSum(ids[1..], legs[1..], bots);
      CapitalAdds([legs[0]], legs[1..]);
      assert legs == [legs[0]] + legs[1..];
    }
  }

  predicate Fresh(m: Server, ids: seq<Id>, legs: seq<Bot>) {
    |ids| == |legs| && Distinct(ids) && forall id <- ids :: id !in m.table.bots
  }

  /** With the batch inserted all bots together have its capital more. */
  lemma BatchCapital(m: Server, ids: seq<Id>, legs: seq<Bot>)
    requires ValidTable(m.table) && Fresh(m, ids, legs)
    ensures Allocated(PutAll(m.table, ids, legs)) == Allocated(m.table) + Capital(legs)
  {
    hide Distinct, Unstarted, ValidTable;
    PutAllFresh(m.table, ids, legs);
    var t1 := PutAll(m.table, ids, legs);
    KnownIds(m.table);
    KnownIds(t1);
    AllocatedIsSum(m.table);
    AllocatedIsSum(t1);
    hide PutAll;
    forall k | 0 <= k < |ids| ensures ids[k] in t1.bots && t1.bots[ids[k]].capital == legs[k].capital {
      assert ids[k] in ids;
      UnstartedCapital(legs[k]);
    }
    SumConcat(m.table.order, ids, t1.bots);
    SumSame(m.table.order, m.table.bots, t1.bots);
    LegsSum(ids, legs, t1.bots);
  }

  lemma KnownIds(t: Table)
    requires ValidTable(t)
    ensures forall id <- t.order :: id in t.bots
  {
  }

  lemma UnstartedCapital(b: Bot)
    ensures Unstarted(b).capital == b.capital
  {
  }

  /** The legs can trade beside each other and beside every bot there is. */
  predicate AllApart(legs: seq<Bot>, t: Table) {
    && (forall i, j | 0 <= i < j < |legs| :: Apart(legs[i], legs[j]))
    && forall i, id | 0 <= i < |legs| && id in t.bots :: Apart(legs[i], t.bots[id])
  }

  lemma ClashesIff(legs: seq<Bot>, t: Table)
    requires ValidTable(t)
    ensures Clashes(legs, t) <==> !AllApart(legs, t)
  {
    if !AllApart(legs, t) && !(exists i, j | 0 <= i < j < |legs| :: !Apart(legs[i], legs[j])) {
      var i, id :| 0 <= i < |legs| && id in t.bots && !Apart(legs[i], t.bots[id]);
      assert id in t.order && Conflict(legs[i], t.bots[id]);
      assert ClashesWith(legs[i], t);
    }
  }

  /** Why a batch is refused, and when it is not: refused for the fund exactly when the capital of all bots
      with it in the table would exceed the fund. */
  lemma RefusedBecause(m: Server, ids: seq<Id>, legs: seq<Bot>)
    requires ValidTable(m.table) && Fresh(m, ids, legs)
    ensures var all := Allocated(PutAll(m.table, ids, legs));
            var why := WhyRefused(m, legs);
            && (why == Some(EmptyBatch) <==> legs == [])
            && (why == Some(SymbolConflict) <==> legs != [] && !AllApart(legs, m.table))
            && (why == Some(NoFund) <==> legs != [] && AllApart(legs, m.table) && m.fund == 0.0)
            && (why == Some(OverFund) <==> legs != [] && AllApart(legs, m.table) && m.fund != 0.0 && all > m.fund)
            && (why == None <==> legs != [] && AllApart(legs, m.table) && m.fund != 0.0 && all <= m.fund)
  {
    hide Clashes, AllApart, PutAll, ValidTable, Distinct, Capital;
    BatchCapital(m, ids, legs);
    ClashesIff(legs, m.table);
  }

  /** add_bots: the whole batch is in memory and on disk, within the fund, exactly when it is not empty,
      every leg is apart from every other bot, there is a fund that covers all bots, and the save is
      written; else nothing changes. */
  lemma AddsIff(m: Server, ids: seq<Id>, legs: seq<Bot>, ok: bool)
    requires ValidTable(m.table) && Fresh(m, ids, legs)
    ensures var m1, t1 := AddBots(m, ids, legs, ok), PutAll(m.table, ids, legs);
            if legs != [] && AllApart(legs, m.table) && m.fund != 0.0 && Allocated(t1) <= m.fund && ok then
              && m1 == m.(table := t1, disk := RowsToSave(t1, m.kept), diskFund := m.fund)
              && Allocated(m1.table) <= m1.fund && m1.table.order == m.table.order + ids
              && (forall id <- m.table.bots :: id in m1.table.bots && m1.table.bots[id] == m.table.bots[id])
              && (forall k | 0 <= k < |ids| :: ids[k] in m1.table.bots && m1.table.bots[ids[k]] == Unstarted(legs[k]))
            else m1 == m
  {
    hide AllApart, PutAll, ValidTable, Distinct, Capital, RowsToSave, WhyRefused, Unstarted;
    RefusedBecause(m, ids, legs);
    PutAllFresh(m.table, ids, legs);
    forall k | 0 <= k < |ids| ensures ids[k] in PutAll(m.table, ids, legs).bots { assert ids[k] in ids; }
  }

  // ---- over a life ----

  predicate Unsigned(t: Table) {
    forall id <- t.bots :: t.bots[id].capital >= 0.0
  }

  predicate Covers(fund: real, t: Table)
    requires ValidTable(t)
  {
    Allocated(t) <= fund
  }

  /** The capital of all bots is within the fund, and that of the bots on disk within the fund there. */
  predicate WithinFund(m: Server)
    requires ValidTable(m.table)
  {
    DiskValid(m);
    && Covers(m.fund, m.table) && Unsigned(m.table)
    && Covers(m.diskFund, LoadRows(m.disk).table) && Unsigned(LoadRows(m.disk).table)
  }

  lemma DiskValid(m: Server)
    ensures ValidTable(LoadRows(m.disk).table)
  {
    LoadedValid(m.disk);
  }

  /** The routes take only a capital above 0. */
  predicate Positive(t: Turn) {
    match t
    case Adds(_, legs, _) => forall b <- legs :: b.capital > 0.0
    case Edits(_, capital, _) => capital > 0.0
    case _ => true
  }

  /** The edit is refused, or the fund still covers all bots with it. */
  predicate EditFits(m: Server, t: Turn)
    requires ValidTable(m.table)
  {
    t.Edits? && t.id in m.table.bots && m.table.bots[t.id].status != Running ==>
      Allocated(m.table) - m.table.bots[t.id].capital + t.capital <= m.fund
  }

  lemma SaveWithin(m: Server, ok: bool)
    requires ValidTable(m.table) && WithinFund(m)
    ensures WithinFund(Save(m, ok))
  {
    hide RowsToSave, LoadRows, ValidTable, Covers, Unsigned;
    SaveThenLoad(m.table, m.kept);
  }

  /** Memory within the fund, before or after which the disk stays as it is, or is saved. */
  lemma ChangedWithin(m: Server, m1: Server)
    requires ValidTable(m.table) && WithinFund(m) && ValidTable(m1.table) && m1.disk == m.disk && m1.diskFund == m.diskFund
    requires Covers(m1.fund, m1.table) && Unsigned(m1.table)
    ensures WithinFund(m1)
  {
    hide LoadRows, ValidTable, Covers, Unsigned;
  }

  /** Bots change only in other things than their capital. */
  lemma StateWithin(m: Server, m1: Server)
    requires ValidTable(m.table) && WithinFund(m) && ValidTable(m1.table) && m1.disk == m.disk && m1.diskFund == m.diskFund && m1.fund == m.fund
    requires forall id :: id in m.table.bots <==> id in m1.table.bots
    requires forall id <- m.table.bots :: m.table.bots[id].capital == m1.table.bots[id].capital
    ensures WithinFund(m1)
  {
    hide LoadRows, ValidTable;
    SameCapital(m.table, m1.table);
    ChangedWithin(m, m1);
  }

  lemma SetWithin(m: Server, id: Id, b: Bot)
    requires ValidTable(m.table) && WithinFund(m) && id in m.table.bots && b.capital == m.table.bots[id].capital
    ensures ValidTable(SetBot(m, id, b).table) && WithinFund(SetBot(m, id, b)) && id in SetBot(m, id, b).table.bots
  {
    hide WithinFund;
    StateWithin(m, SetBot(m, id, b));
  }

  /** The runners do not matter to it. */
  lemma TasksWithin(m: Server, m1: Server)
    requires ValidTable(m.table) && WithinFund(m) && m1 == m.(tasks := m1.tasks, attempted := m1.attempted)
    ensures WithinFund(m1)
  {
    hide LoadRows, ValidTable, Covers, Unsigned;
  }

  lemma AddWithin(m: Server, ids: seq<Id>, legs: seq<Bot>, ok: bool)
    requires ValidTable(m.table) && WithinFund(m) && Fresh(m, ids, legs) && forall b <- legs :: b.capital > 0.0
    ensures ValidTable(AddBots(m, ids, legs, ok).table) && WithinFund(AddBots(m, ids, legs, ok))
  {
    hide AllApart, PutAll, ValidTable, Distinct, RowsToSave, LoadRows, AddBots, WithinFund, Unstarted;
    AddsIff(m, ids, legs, ok);
    var t1 := PutAll(m.table, ids, legs);
    if AddBots(m, ids, legs, ok) != m {
      PutAllFresh(m.table, ids, legs);
      WithinUnsigned(m);
      forall id <- t1.bots ensures t1.bots[id].capital >= 0.0 {
        if id !in m.table.bots {
          var k :| 0 <= k < |ids| && ids[k] == id;
          UnstartedCapital(legs[k]);
          assert legs[k] in legs;
        }
      }
      ChangedWithin(m, m.(table := t1));
      SaveWithin(m.(table := t1), true);
    }
  }

  lemma WithinUnsigned(m: Server)
    requires ValidTable(m.table) && WithinFund(m)
    ensures Unsigned(m.table) && Covers(m.fund, m.table)
  {
    hide LoadRows, ValidTable;
  }

  lemma DeleteWithin(m: Server, id: Id, ok: bool)
    requires ValidTable(m.table) && WithinFund(m)
    ensures ValidTable(DeleteBot(m, id, ok).table) && WithinFund(DeleteBot(m, id, ok))
  {
    hide RowsToSave, LoadRows, WithinFund, Without, ValidTable, Save;
    RemoveValid(m.table, id);
    if id in m.table.bots && !Live(m, id) {
      WithinUnsigned(m);
      RemovedCapital(m.table, id);
      var m1 := m.(table := Remove(m.table, id), tasks := m.tasks - {id});
      ChangedWithin(m, m1);
      SaveWithin(m1, ok);
      SaveKeepsTable(m1, ok);
    }
  }

  lemma SaveKeepsTable(m: Server, ok: bool)
    requires ValidTable(m.table)
    ensures Save(m, ok).table == m.table && Save(m, ok).fund == m.fund && Save(m, ok).tasks == m.tasks
  {
    hide RowsToSave, ValidTable;
  }

  lemma RemovedCapital(t: Table, id: Id)
    requires ValidTable(t) && id in t.bots
    ensures ValidTable(Remove(t, id)) && Allocated(Remove(t, id)) == Allocated(t) - t.bots[id].capital
    ensures Unsigned(t) ==> Unsigned(Remove(t, id))
  {
    RemoveValid(t, id);
    var t1 := Remove(t, id);
    AllocatedIsSum(t);
    AllocatedIsSum(t1);
    WithoutIds(t.order, id);
    SumWithout(t.order, t.bots, id);
    SumSame(Without(t.order, id), t.bots, t1.bots);
  }

  lemma ReorderWithin(m: Server, ids: seq<Id>, ok: bool)
    requires ValidTable(m.table) && WithinFund(m)
    ensures ValidTable(Reorder(m, ids, ok).table) && WithinFund(Reorder(m, ids, ok))
  {
    hide RowsToSave, LoadRows, WithinFund, Picked, ValidTable, Save;
    ReorderedAll(m.table, ids);
    var m1 := m.(table := m.table.(order := Picked(m.table.order, [], ids + m.table.order)));
    StateWithin(m, m1);
    SaveWithin(m1, ok);
    SaveKeepsTable(m1, ok);
  }

  lemma SetFundWithin(m: Server, amount: real, ok: bool)
    requires ValidTable(m.table) && WithinFund(m)
    ensures ValidTable(SetFund(m, amount, ok).table) && WithinFund(SetFund(m, amount, ok))
  {
    hide RowsToSave, LoadRows, WithinFund, ValidTable, Save;
    if amount >= Capital(Listed(m.table)) {
      WithinUnsigned(m);
      ChangedWithin(m, m.(fund := amount));
      SaveWithin(m.(fund := amount), ok);
      SaveKeepsTable(m.(fund := amount), ok);
    }
  }

  /** What all bots have once one bot's capital is another. */
  lemma EditedCapital(m: Server, id: Id, capital: real)
    requires ValidTable(m.table) && id in m.table.bots
    ensures var t1 := SetBot(m, id, m.table.bots[id].(capital := capital)).table;
            ValidTable(t1) && Allocated(t1) == Allocated(m.table) - m.table.bots[id].capital + capital
  {
    var t, t1 := m.table, SetBot(m, id, m.table.bots[id].(capital := capital)).table;
    AllocatedIsSum(t);
    AllocatedIsSum(t1);
    SumWithout(t.order, t.bots, id);
    SumWithout(t1.order, t1.bots, id);
    WithoutIds(t.order, id);
    SumSame(Without(t.order, id), t.bots, t1.bots);
  }

  /** An edit keeps the capital within the fund exactly when it fits. */
  lemma EditWithinIff(m: Server, id: Id, capital: real, ok: bool)
    requires ValidTable(m.table) && WithinFund(m) && capital > 0.0
    ensures var t := Edits(id, capital, ok);
            var m1 := EditCapital(m, id, capital, ok);
            && ValidTable(m1.table) && (EditFits(m, t) ==> WithinFund(m1)) && (Covers(m1.fund, m1.table) ==> EditFits(m, t))
  {
    hide RowsToSave, LoadRows, WithinFund, ValidTable, Save;
    if id in m.table.bots && m.table.bots[id].status != Running {
      var m1 := SetBot(m, id, m.table.bots[id].(capital := capital));
      EditedCapital(m, id, capital);
      SaveKeepsTable(m1, ok);
      WithinUnsigned(m);
      if EditFits(m, Edits(id, capital, ok)) {
        ChangedWithin(m, m1);
        SaveWithin(m1, ok);
      }
    }
  }

  // ---- the steps of a life ----

  lemma StartWithin(m: Server, id: Id, check: Check, ok: bool)
    requires ValidTable(m.table) && WithinFund(m)
    ensures WithinFund(StartBot(m, id, check, ok))
  {
    hide RowsToSave, LoadRows, WithinFund, ValidTable, Exclusive, Refuses, Save, SetBot, Live;
    if id in m.table.bots {
      RefuseWithin(m, id, ok);
      StartedWithin(m, id, check);
    }
  }

  lemma RefuseWithin(m: Server, id: Id, ok: bool)
    requires ValidTable(m.table) && WithinFund(m) && id in m.table.bots
    ensures WithinFund(RefuseStart(m, id, ok))
  {
    hide RowsToSave, LoadRows, WithinFund, ValidTable, Save, SetBot;
    SetWithin(m, id, RefusedBot(m.table.bots[id]));
    SaveWithin(SetBot(m, id, RefusedBot(m.table.bots[id])), ok);
    SaveKeepsTable(SetBot(m, id, RefusedBot(m.table.bots[id])), ok);
  }

  lemma StartedWithin(m: Server, id: Id, check: Check)
    requires ValidTable(m.table) && WithinFund(m) && id in m.table.bots
    ensures WithinFund(SetTask(SetBot(m, id, StartedBot(m.table.bots[id], check)), id, true))
  {
    hide LoadRows, WithinFund, ValidTable, SetBot;
    var b := StartedBot(m.table.bots[id], check);
    SetWithin(m, id, b);
    TasksWithin(SetBot(m, id, b), SetTask(SetBot(m, id, b), id, true));
  }

  lemma RequestWithin(m: Server, id: Id, check: Check, ok: bool)
    requires ValidTable(m.table) && WithinFund(m)
    ensures WithinFund(RequestStart(m, id, check, ok))
  {
    hide WithinFund, ValidTable, Refuses, StartBot, RefuseStart, Live;
    StartWithin(m, id, check, ok);
    if id in m.table.bots { RefuseWithin(m, id, ok); }
  }

  /** What a runner does to its own bot. */
  lemma LifeWithin(m: Server, t: Turn)
    requires ValidTable(m.table) && WithinFund(m) && (t.Begins? || t.Notes? || t.Ends?)
    ensures WithinFund(Turned(m, t))
  {
    hide LoadRows, WithinFund, ValidTable, Live;
    if t.id in m.table.bots {
      var b := m.table.bots[t.id];
      match t
      case Begins(id) => SetWithin(m, id, b.(status := Running, wasRunning := false, userStopped := false, pause := false, error := NoError));
      case Notes(id, status, pause, error, holds, exitsOnly) =>
        SetWithin(m, id, b.(status := status, pause := pause, error := error, holds := holds, exitsOnly := exitsOnly));
      case Ends(id) =>
        SetWithin(m, id, b.(status := Stopped));
        TasksWithin(SetBot(m, id, b.(status := Stopped)), SetTask(SetBot(m, id, b.(status := Stopped)), id, false));
    }
  }

  lemma StopWithin(m: Server, id: Id, closed: bool, ok: bool)
    requires ValidTable(m.table) && WithinFund(m)
    ensures ValidTable(StopAndSave(m, id, closed, ok).table) && WithinFund(StopAndSave(m, id, closed, ok))
  {
    hide RowsToSave, LoadRows, WithinFund, ValidTable, Save, SetBot;
    if id in m.table.bots {
      var b := m.table.bots[id];
      var m0 := m.(tasks := m.tasks - {id});
      TasksWithin(m, m0);
      SetWithin(m0, id, b.(status := Stopped, userStopped := true, holds := false, exitsOnly := b.exitsOnly && !closed));
      SaveWithin(StopBot(m, id, closed), ok);
      SaveKeepsTable(StopBot(m, id, closed), ok);
    }
  }

  lemma ShutdownWithin(m: Server, ok: bool)
    requires ValidTable(m.table) && WithinFund(m)
    ensures ValidTable(Shutdown(m, ok).table) && WithinFund(Shutdown(m, ok))
  {
    hide RowsToSave, LoadRows, WithinFund, ValidTable, Save;
    TasksWithin(m, m.(tasks := NoTasks(m)));
    SaveWithin(m.(tasks := NoTasks(m)), ok);
    SaveKeepsTable(m.(tasks := NoTasks(m)), ok);
  }

  lemma TryWithin(m: Server, id: Id, check: Check, ok: bool)
    requires ValidTable(m.table) && WithinFund(m) && id in m.table.bots
    ensures WithinFund(TryResume(m, id, check, ok))
  {
    hide WithinFund, ValidTable, StartBot, SetBot, Live;
    var tried := m.(attempted := m.attempted + [id]);
    TasksWithin(m, tried);
    StartWithin(tried, id, check, ok);
    var started := StartBot(tried, id, check, ok);
    SetWithin(started, id, started.table.bots[id].(wasRunning := false));
  }

  lemma ResumeOneWithin(m: Server, id: Id, check: Check, ok: bool)
    requires ValidTable(m.table) && WithinFund(m) && id in m.table.bots
    ensures WithinFund(ResumeOne(m, id, check, ok))
  {
    hide WithinFund, ValidTable, TryResume, SetBot, Resumable;
    var b := m.table.bots[id];
    SetWithin(m, id, Forgiven(b).(wasRunning := false));
    SetWithin(m, id, Forgiven(b));
    if b.wasRunning && Resumable(b) { TryWithin(SetBot(m, id, Forgiven(b)), id, check, ok); }
  }

  lemma {:induction false} ResumeWithin(m: Server, n: nat, g: Graphs)
    requires ValidTable(m.table) && WithinFund(m) && n <= |m.table.order|
    ensures WithinFund(ResumeUpTo(m, n, g))
  {
    hide WithinFund, ValidTable, ResumeOne, ResumeUpTo, Graphs.Of;
    if n > 0 {
      ResumeWithin(m, n - 1, g);
      ResumeStep(m, n, g);
      var id := m.table.order[n - 1];
      ResumeOneWithin(ResumeUpTo(m, n - 1, g), id, g.Of(id), id !in g.unsaved);
    } else {
      ResumeNone(m, g);
    }
  }

  lemma LoadBotCapital(b: Bot, legacy: bool, refused: bool)
    ensures LoadBot(b, legacy, refused).capital == b.capital
  {
  }

  lemma LoadWithin(m: Server, legacy: set<Id>, refused: set<Id>, ok: bool)
    requires ValidTable(m.table) && WithinFund(m)
    ensures ValidTable(Load(m, legacy, refused, ok).table) && WithinFund(Load(m, legacy, refused, ok))
  {
    hide RowsToSave, LoadRows, ValidTable, LoadBot, LoadEntries, Save, Covers, Unsigned;
    LoadIsValid(m, legacy, refused, ok);
    DiskValid(m);
    var l, t := LoadRows(LoadEntries(m.disk, legacy, refused)), LoadRows(m.disk).table;
    LoadedValid(LoadEntries(m.disk, legacy, refused));
    EntriesLoad(m.disk, legacy, refused);
    forall id <- t.bots ensures id in l.table.bots && l.table.bots[id].capital == t.bots[id].capital {
      LoadBotCapital(t.bots[id], id in legacy, id in refused);
    }
    SameCapital(t, l.table);
    CoversSame(m.diskFund, t, l.table);
    var loaded := m.(fund := m.diskFund, table := l.table, kept := l.kept, tasks := map[]);
    SaveWithin(loaded, ok);
    SaveKeepsTable(loaded, ok);
  }

  lemma CoversSame(fund: real, t: Table, t1: Table)
    requires ValidTable(t) && ValidTable(t1) && Allocated(t1) == Allocated(t) && Covers(fund, t) && Unsigned(t)
    requires (forall id :: id in t.bots <==> id in t1.bots) && forall id <- t.bots :: t1.bots[id].capital == t.bots[id].capital
    ensures Covers(fund, t1) && Unsigned(t1)
  {
    hide ValidTable;
  }

  lemma BootWithin(m: Server, legacy: set<Id>, refused: set<Id>, g: Graphs, loaded: bool, ok: bool)
    requires ValidTable(m.table) && WithinFund(m)
    ensures WithinFund(Boot(m, legacy, refused, g, loaded, ok))
  {
    hide RowsToSave, LoadRows, WithinFund, ValidTable, Load, ResumeUpTo, Save;
    LoadIsValid(m, legacy, refused, loaded);
    LoadWithin(m, legacy, refused, loaded);
    var l := Load(m, legacy, refused, loaded);
    TasksWithin(l, l.(attempted := []));
    var after := ResumeUpTo(l.(attempted := []), |l.table.order|, g);
    ResumeWithin(l.(attempted := []), |l.table.order|, g);
    SaveWithin(after, ok);
  }

  /** Every turn keeps the capital within the fund, but for an edit that does not fit. */
  lemma TurnWithin(m: Server, t: Turn)
    requires ValidTable(m.table) && WithinFund(m) && Positive(t) && EditFits(m, t)
    ensures WithinFund(Turned(m, t))
  {
    hide WithinFund, ValidTable, RequestStart, Boot, AddBots, Reorder, DeleteBot, Distinct, Picked, RunBegins, RunnerNotes,
         RunEnds, StopAndSave, Shutdown, Save, SetFund, EditCapital;
    match t
    case Adds(ids, legs, ok) => if Turned(m, t) != m { AddWithin(m, ids, legs, ok); }
    case Deletes(id, ok) => DeleteWithin(m, id, ok);
    case Reorders(ids, ok) => ReorderWithin(m, ids, ok);
    case Starts(id, check, ok) => RequestWithin(m, id, check, ok);
    case Begins(_) => LifeWithin(m, t);
    case Notes(_, _, _, _, _, _) => LifeWithin(m, t);
    case Ends(_) => LifeWithin(m, t);
    case Saves(ok) => SaveWithin(m, ok);
    case Stops(id, closed, ok) => StopWithin(m, id, closed, ok);
    case ShutsDown(ok) => ShutdownWithin(m, ok);
    case SetsFund(amount, ok) => SetFundWithin(m, amount, ok);
    case Edits(id, capital, ok) => EditWithinIff(m, id, capital, ok);
    case Boots(legacy, refused, g, loaded, ok) => BootWithin(m, legacy, refused, g, loaded, ok);
  }

  /** Turn k, if it is an edit of a bot's capital, fits when it is made. */
  predicate FitsAt(m: Server, turns: seq<Turn>, k: nat)
    requires ValidTable(m.table) && k < |turns|
  {
    EditFits(Played(m, turns[..k]), turns[k])
  }

  lemma FitsAtPrefix(m: Server, turns: seq<Turn>, n: nat, k: nat)
    requires ValidTable(m.table) && k < n <= |turns|
    ensures FitsAt(m, turns[..n], k) == FitsAt(m, turns, k)
  {
    hide EditFits, Played;
    assert turns[..n][..k] == turns[..k] && turns[..n][k] == turns[k];
  }

  /** The fund covers all bots after n turns. */
  predicate CoveredAt(m: Server, turns: seq<Turn>, n: nat)
    requires ValidTable(m.table) && n <= |turns|
  {
    Allocated(Played(m, turns[..n]).table) <= Played(m, turns[..n]).fund
  }

  /** Over a whole life in which every edit of a bot's capital fits. */
  lemma {:induction false} LifeStaysWithin(m: Server, turns: seq<Turn>)
    requires ValidTable(m.table) && WithinFund(m) && forall t <- turns :: Positive(t)
    requires forall k: nat | k < |turns| :: FitsAt(m, turns, k)
    ensures WithinFund(Played(m, turns))
  {
    hide WithinFund, ValidTable, Turned, EditFits, Positive;
    if turns != [] {
      var n := |turns| - 1;
      forall k: nat | k < n ensures FitsAt(m, turns[..n], k) { FitsAtPrefix(m, turns, n, k); }
      LifeStaysWithin(m, turns[..n]);
      assert turns[n] in turns && FitsAt(m, turns, n);
      TurnWithin(Played(m, turns[..n]), turns[n]);
    }
  }

  /** Over every life that begins within the fund, memory and disk, the capital of all bots stays within it
      at every moment if and only if every edit of a bot's capital fits when it is made: update_bot does
      not look. */
  lemma CapitalStaysWithinIff(m: Server, turns: seq<Turn>)
    requires ValidTable(m.table) && WithinFund(m) && forall t <- turns :: Positive(t)
    ensures (forall n: nat | n <= |turns| :: CoveredAt(m, turns, n)) <==> (forall k: nat | k < |turns| :: FitsAt(m, turns, k))
  {
    hide WithinFund, ValidTable, FitsAt, Positive, CoveredAt;
    if forall k: nat | k < |turns| :: FitsAt(m, turns, k) {
      forall n: nat | n <= |turns| ensures CoveredAt(m, turns, n) { PrefixCovered(m, turns, n); }
    } else {
      var n := FirstMisfit(m, turns);
      PrefixWithin(m, turns, n);
      MisfitUncovered(m, turns, n);
    }
  }

  lemma PrefixWithin(m: Server, turns: seq<Turn>, n: nat)
    requires ValidTable(m.table) && WithinFund(m) && n <= |turns| && (forall t <- turns :: Positive(t))
    requires forall k: nat | k < n :: FitsAt(m, turns, k)
    ensures WithinFund(Played(m, turns[..n]))
  {
    hide WithinFund, ValidTable, FitsAt, Positive;
    forall k: nat | k < n ensures FitsAt(m, turns[..n], k) { FitsAtPrefix(m, turns, n, k); }
    LifeStaysWithin(m, turns[..n]);
  }

  lemma PrefixCovered(m: Server, turns: seq<Turn>, n: nat)
    requires ValidTable(m.table) && WithinFund(m) && n <= |turns| && (forall t <- turns :: Positive(t))
    requires forall k: nat | k < n :: FitsAt(m, turns, k)
    ensures CoveredAt(m, turns, n)
  {
    hide WithinFund, ValidTable, FitsAt, Positive, Played;
    PrefixWithin(m, turns, n);
    WithinUnsigned(Played(m, turns[..n]));
  }

  lemma MisfitUncovered(m: Server, turns: seq<Turn>, n: nat)
    requires ValidTable(m.table) && n < |turns| && (forall t <- turns :: Positive(t)) && !FitsAt(m, turns, n)
    requires WithinFund(Played(m, turns[..n]))
    ensures !CoveredAt(m, turns, n + 1)
  {
    hide WithinFund, ValidTable, EditFits, Positive, Turned;
    assert turns[n] in turns && turns[..n + 1][..n] == turns[..n] && turns[..n + 1][n] == turns[n];
    var m1 := Played(m, turns[..n]);
    assert Played(m, turns[..n + 1]) == Turned(m1, turns[n]);
    MisfitExceeds(m1, turns[n]);
  }

  lemma FirstMisfit(m: Server, turns: seq<Turn>) returns (n: nat)
    requires ValidTable(m.table) && !(forall k: nat | k < |turns| :: FitsAt(m, turns, k))
    ensures n < |turns| && !FitsAt(m, turns, n) && forall k: nat | k < n :: FitsAt(m, turns, k)
  {
    hide FitsAt;
    n := 0;
    while FitsAt(m, turns, n)
      invariant n < |turns| && forall k: nat | k < n :: FitsAt(m, turns, k)
      decreases |turns| - n
    {
      n := n + 1;
    }
  }

  lemma MisfitExceeds(m: Server, t: Turn)
    requires ValidTable(m.table) && WithinFund(m) && Positive(t) && !EditFits(m, t)
    ensures !Covers(Turned(m, t).fund, Turned(m, t).table)
  {
    hide WithinFund, ValidTable, EditCapital, Covers;
    EditWithinIff(m, t.id, t.capital, t.ok);
  }

  const ONE_BOT := Bot("AAPL", Long, false, false, 80.0, Stopped, false, NoError, false, false, false, false)
  const ONE_FUND := Server(100.0, Table([0], map[0 := ONE_BOT]), [], [Readable(0, ONE_BOT)], 100.0, map[], [])

  lemma OneFundWithin()
    ensures ValidTable(ONE_FUND.table) && WithinFund(ONE_FUND) && Allocated(ONE_FUND.table) == 80.0
  {
    hide LoadRows, Allocated;
    OneBotAllocated();
    OneRowLoads();
  }

  lemma OneBotAllocated()
    ensures ValidTable(ONE_FUND.table) && Allocated(ONE_FUND.table) == 80.0
  {
    hide Allocated;
    AllocatedIsSum(ONE_FUND.table);
    assert [0][1..] == [];
  }

  lemma OneRowLoads()
    ensures LoadRows(ONE_FUND.disk).table == ONE_FUND.table
  {
    assert ONE_FUND.disk[..0] == [];
    assert LoadRows([]) == Loading(Table([], map[]), [], None);
  }

  /** One bot of 80 in a fund of 100 is edited to 200. */
  lemma EditExceedsTheFund()
    ensures ValidTable(ONE_FUND.table) && WithinFund(ONE_FUND)
    ensures var m1 := Played(ONE_FUND, [Edits(0, 200.0, true)]); m1.fund == 100.0 && Allocated(m1.table) == 200.0
  {
    hide WithinFund, RowsToSave, Allocated;
    OneFundWithin();
    EditedCapital(ONE_FUND, 0, 200.0);
    var e := Edits(0, 200.0, true);
    assert [e][..0] == [];
    assert Played(ONE_FUND, [e]) == Turned(ONE_FUND, e);
  }
}
