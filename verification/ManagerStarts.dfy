/** When a bot's runner starts, and which runners come back after a shutdown and a boot. */
module ManagerStarts {
  import opened BotTypes
  import opened ManagerRows
  import opened BotManager
  import opened ManagerLives

  // ---- a start ----

  /** The bot's graph keeps it from starting: it does not compile, and not just for the code of a bot that
      holds a position or runs only its exits. */
  predicate GraphRefused(b: Bot, check: Check) {
    b.graph && (check.Broken? || (check.CodeRefused? && !b.holds && !b.exitsOnly))
  }

  /** Every other bot with a runner can trade beside it. */
  predicate Alone(m: Server, id: Id)
    requires id in m.table.bots
  {
    forall other <- m.table.bots :: other != id && Live(m, other) ==> Apart(m.table.bots[id], m.table.bots[other])
  }

  lemma AloneIsExclusive(m: Server, id: Id)
    requires ValidTable(m.table) && id in m.table.bots
    ensures Alone(m, id) <==> Exclusive(m, id)
  {
    if Exclusive(m, id) {
      forall other <- m.table.bots | other != id && Live(m, other) ensures Apart(m.table.bots[id], m.table.bots[other]) {
        assert other in m.table.order;
      }
    }
  }

  /** What a start makes of the bot: code refused in a position leaves it its exits. */
  function Begun(b: Bot, check: Check): Bot {
    b.(exitsOnly := b.exitsOnly || (b.graph && check.CodeRefused?))
  }

  /** A start route gives a bot a runner exactly when it is known and idle, its graph does not keep it
      back and every other runner is apart from it.  A graph that does keeps an idle bot back before the
      other runners are looked at: with an error and a pause, saved.  Otherwise nothing changes. */
  lemma RequestStartsIff(m: Server, id: Id, check: Check, ok: bool)
    requires ValidTable(m.table)
    ensures var m1 := RequestStart(m, id, check, ok);
            if id !in m.table.bots || Live(m, id) then m1 == m
            else
              var b := m.table.bots[id];
              if GraphRefused(b, check) then
                var r := m.(table := m.table.(bots := m.table.bots[id := b.(status := Errored, pause := true, error := OtherError)]));
                m1 == if ok then r.(disk := RowsToSave(r.table, r.kept), diskFund := r.fund) else r
              else if Alone(m, id) then
                m1 == m.(table := m.table.(bots := m.table.bots[id := Begun(b, check)]), tasks := m.tasks[id := true])
              else m1 == m
  {
    hide RowsToSave, ValidTable, Exclusive, Alone, Live;
    if id in m.table.bots { AloneIsExclusive(m, id); }
  }

  /** A bot whose run() began and was saved is passed to start_bot by the next boot, unless its code is
      refused while it is flat. */
  lemma BegunIsTried(m: Server, id: Id, legacy: set<Id>, refused: set<Id>, g: Graphs, loaded: bool, ok: bool)
    requires ValidTable(m.table) && id in m.table.bots && Live(m, id)
    ensures ValidTable(RunBegins(m, id).table)
    ensures var b := m.table.bots[id];
            id in Boot(Save(RunBegins(m, id), true), legacy, refused, g, loaded, ok).attempted
            <==> !(b.graph && id in refused && !b.holds && !b.exitsOnly)
  {
    hide RowsToSave, LoadRows, Boot;
    var begun := RunBegins(m, id);
    SaveThenLoad(begun.table, begun.kept);
    BootTries(Save(begun, true), legacy, refused, g, loaded, ok, id);
  }

  // ---- what auto-resume starts ----

  /** The bots with the tag of a runner that went away can trade beside each other. */
  predicate TaggedApart(m: Server) {
    forall a, b | a in m.table.bots && b in m.table.bots && a != b && m.table.bots[a].wasRunning && m.table.bots[b].wasRunning ::
      Apart(m.table.bots[a], m.table.bots[b])
  }

  /** The same bots, as far as symbols and sides go. */
  ghost predicate SameTrades(m: Server, m1: Server) {
    forall x :: (x in m1.table.bots <==> x in m.table.bots) && (x in m.table.bots ==> SameTrade(m.table.bots[x], m1.table.bots[x]))
  }

  predicate SameTrade(b: Bot, b1: Bot) {
    b1.symbol == b.symbol && b1.side == b.side && b1.bothSides == b.bothSides
  }

  lemma StartSameTrades(m: Server, id: Id, check: Check, ok: bool)
    requires ValidTable(m.table)
    ensures SameTrades(m, StartBot(m, id, check, ok))
  {
    hide Exclusive, Refuses, RowsToSave, ValidTable;
  }

  lemma SetSameTrades(m: Server, id: Id, b: Bot)
    requires id in m.table.bots && SameTrade(m.table.bots[id], b)
    ensures SameTrades(m, SetBot(m, id, b))
  {
  }

  lemma SameTradesTwice(a: Server, b: Server, d: Server)
    requires SameTrades(a, b) && SameTrades(b, d)
    ensures SameTrades(a, d)
  {
  }

  lemma TrySameTrades(m: Server, id: Id, check: Check, ok: bool)
    requires ValidTable(m.table) && id in m.table.bots
    ensures SameTrades(m, TryResume(m, id, check, ok))
  {
    hide StartBot, ValidTable, SetBot, Live, SameTrades;
    var tried := m.(attempted := m.attempted + [id]);
    TriedSameTrades(m, tried);
    StartSameTrades(tried, id, check, ok);
    var started := StartBot(tried, id, check, ok);
    SameTradesTwice(m, tried, started);
    SetSameTrades(started, id, started.table.bots[id].(wasRunning := false));
    SameTradesTwice(m, started, SetBot(started, id, started.table.bots[id].(wasRunning := false)));
  }

  lemma TriedSameTrades(m: Server, tried: Server)
    requires tried == m.(attempted := tried.attempted)
    ensures SameTrades(m, tried)
  {
  }

  lemma SetIsValid(m: Server, id: Id, b: Bot)
    requires ValidTable(m.table) && id in m.table.bots
    ensures ValidTable(SetBot(m, id, b).table) && id in SetBot(m, id, b).table.bots
  {
  }

  lemma ResumeOneSameTrades(m: Server, id: Id, check: Check, ok: bool)
    requires ValidTable(m.table) && id in m.table.bots
    ensures SameTrades(m, ResumeOne(m, id, check, ok))
  {
    hide TryResume, ValidTable, SetBot, Resumable, SameTrades;
    var b := m.table.bots[id];
    TriedSameTrades(m, m);
    SetSameTrades(m, id, Forgiven(b).(wasRunning := false));
    SetSameTrades(m, id, Forgiven(b));
    if b.wasRunning && Resumable(b) {
      SetIsValid(m, id, Forgiven(b));
      TrySameTrades(SetBot(m, id, Forgiven(b)), id, check, ok);
      SameTradesTwice(m, SetBot(m, id, Forgiven(b)), TryResume(SetBot(m, id, Forgiven(b)), id, check, ok));
    }
  }

  /** Auto-resume starts the bot once its turn comes. */
  predicate Comes(b: Bot, check: Check) {
    && b.wasRunning && !b.pause && (b.error == NoError || b.error == Recovering)
    && !GraphRefused(b, check)
  }

  lemma TryStarts(m: Server, id: Id, check: Check, ok: bool)
    requires ValidTable(m.table) && id in m.table.bots && !Live(m, id) && Alone(m, id)
    ensures Live(TryResume(m, id, check, ok), id) <==> !GraphRefused(m.table.bots[id], check)
  {
    hide ValidTable, Alone, Exclusive, StartBot, RefusedBot, StartedBot;
    var tried := m.(attempted := m.attempted + [id]);
    TriedAlone(m, tried, id);
    AloneIsExclusive(tried, id);
    StartSelf(tried, id, check, ok);
  }

  lemma TriedAlone(m: Server, tried: Server, id: Id)
    requires id in m.table.bots && tried == m.(attempted := tried.attempted)
    ensures Alone(tried, id) == Alone(m, id)
  {
  }

  lemma ResumeOneStarts(m: Server, id: Id, check: Check, ok: bool)
    requires ValidTable(m.table) && id in m.table.bots && !Live(m, id) && Alone(m, id)
    ensures Live(ResumeOne(m, id, check, ok), id) <==> Comes(m.table.bots[id], check)
  {
    hide ValidTable, Alone, TryResume;
    var b := m.table.bots[id];
    if b.wasRunning && Resumable(b) {
      ForgivenAlone(m, id);
      TryStarts(SetBot(m, id, Forgiven(b)), id, check, ok);
    }
  }

  lemma ForgivenAlone(m: Server, id: Id)
    requires ValidTable(m.table) && id in m.table.bots && Alone(m, id)
    ensures var m1 := SetBot(m, id, Forgiven(m.table.bots[id]));
            ValidTable(m1.table) && id in m1.table.bots && Alone(m1, id) && (Live(m1, id) <==> Live(m, id))
  {
  }

  /** The bots auto-resume has started are those of the first n that come. */
  ghost predicate StartedSoFar(m: Server, m1: Server, n: nat, g: Graphs)
    requires n <= |m.table.order| && ValidTable(m.table)
  {
    forall x :: Live(m1, x) <==> x in m.table.order[..n] && Comes(m.table.bots[x], g.Of(x))
  }

  lemma NextIsAlone(m: Server, m1: Server, n: nat, g: Graphs)
    requires ValidTable(m.table) && n < |m.table.order| && TaggedApart(m) && SameTrades(m, m1) && StartedSoFar(m, m1, n, g)
    requires var id := m.table.order[n]; id in m1.table.bots && m.table.bots[id].wasRunning
    ensures Alone(m1, m.table.order[n])
  {
    hide Graphs.Of;
    var id := m.table.order[n];
    forall other <- m1.table.bots | other != id && Live(m1, other) ensures Apart(m1.table.bots[id], m1.table.bots[other]) {
      assert Apart(m.table.bots[id], m.table.bots[other]);
    }
  }

  /** Auto-resume has started, of the bots it has met, exactly those that are resumable and whose graph does
      not keep them back, when no two tagged bots are in each other's way. */
  lemma {:induction false} ResumeStarts(m: Server, n: nat, g: Graphs)
    requires ValidTable(m.table) && n <= |m.table.order| && TaggedApart(m) && m.tasks == map[] && m.attempted == []
    ensures var m1 := ResumeUpTo(m, n, g); SameTrades(m, m1) && StartedSoFar(m, m1, n, g)
  {
    hide ResumeOne, ResumeUpTo, ValidTable, Graphs.Of, TaggedApart, SameTrades, Comes, Resumable;
    if n > 0 {
      ResumeStarts(m, n - 1, g);
      var m1, id := ResumeUpTo(m, n - 1, g), m.table.order[n - 1];
      ResumeStep(m, n, g);
      ResumesExactly(m, n - 1, g, id);
      var m2 := ResumeOne(m1, id, g.Of(id), id !in g.unsaved);
      ResumeOneSameTrades(m1, id, g.Of(id), id !in g.unsaved);
      SameTradesTwice(m, m1, m2);
      if m.table.bots[id].wasRunning {
        NextIsAlone(m, m1, n - 1, g);
        ResumeOneStarts(m1, id, g.Of(id), id !in g.unsaved);
      } else {
        NotTagged(m1, id, g.Of(id), id !in g.unsaved);
        NeverComes(m.table.bots[id], g.Of(id));
      }
      OrderKnown(m.table);
      forall x ensures Live(m2, x) <==> x in m.table.order[..n] && Comes(m.table.bots[x], g.Of(x)) {
        if x != id { ResumeOneOther(m1, id, g.Of(id), id !in g.unsaved, x); }
      }
    } else {
      ResumeNone(m, g);
      TriedSameTrades(m, m);
    }
  }

  lemma OrderKnown(t: Table)
    requires ValidTable(t)
    ensures forall id <- t.order :: id in t.bots
  {
  }

  /** Auto-resume leaves no tag on a bot it has met but not started. */
  lemma {:induction false} TagsSettle(m: Server, n: nat, g: Graphs)
    requires ValidTable(m.table) && n <= |m.table.order|
    ensures var m1 := ResumeUpTo(m, n, g);
            forall x <- m.table.order[..n] :: x in m1.table.bots && (m1.table.bots[x].wasRunning ==> Live(m1, x) && x in m1.attempted)
  {
    hide ResumeOne, ResumeUpTo, ValidTable, Graphs.Of;
    if n > 0 {
      TagsSettle(m, n - 1, g);
      var m1, id := ResumeUpTo(m, n - 1, g), m.table.order[n - 1];
      ResumeStep(m, n, g);
      TagSettles(m1, id, g.Of(id), id !in g.unsaved);
      var m2 := ResumeOne(m1, id, g.Of(id), id !in g.unsaved);
      assert ResumeUpTo(m, n, g) == m2;
      forall x <- m.table.order[..n] ensures x in m2.table.bots && (m2.table.bots[x].wasRunning ==> Live(m2, x) && x in m2.attempted) {
        if x != id {
          assert x in m.table.order[..n - 1];
          ResumeOneOther(m1, id, g.Of(id), id !in g.unsaved, x);
        }
      }
    } else {
      assert m.table.order[..n] == [];
    }
  }

  lemma TagSettles(m: Server, id: Id, check: Check, ok: bool)
    requires ValidTable(m.table) && id in m.table.bots
    ensures var m1 := ResumeOne(m, id, check, ok);
            id in m1.table.bots && (m1.table.bots[id].wasRunning ==> Live(m1, id) && id in m1.attempted)
  {
    hide RowsToSave, Exclusive, Refuses;
  }

  lemma NeverComes(b: Bot, check: Check)
    requires !b.wasRunning
    ensures !Comes(b, check)
  {
  }

  // ---- over a life ----

  /** A bot that says it is running has a runner. */
  predicate RunningIsLive(m: Server) {
    forall id <- m.table.bots :: m.table.bots[id].status == Running ==> Live(m, id)
  }

  /** Until it boots again, a manager that was shut down does nothing. */
  predicate Orderly(turns: seq<Turn>) {
    forall k | 0 <= k < |turns| - 1 :: turns[k].ShutsDown? ==> turns[k + 1].Boots?
  }

  /** The bots of the later state that say they are running did so before, with their runners; or they have
      one now. */
  predicate NoneFalsely(m: Server, m1: Server) {
    forall id <- m1.table.bots :: m1.table.bots[id].status == Running ==>
      Live(m1, id) || (id in m.table.bots && m.table.bots[id].status == Running && (Live(m, id) ==> Live(m1, id)))
  }

  lemma NoneFalselyLive(m: Server, m1: Server)
    requires RunningIsLive(m) && NoneFalsely(m, m1)
    ensures RunningIsLive(m1)
  {
  }

  lemma StartFalsely(m: Server, id: Id, check: Check, ok: bool)
    requires ValidTable(m.table)
    ensures NoneFalsely(m, RequestStart(m, id, check, ok))
  {
    hide RowsToSave, ValidTable, Exclusive;
  }

  lemma AddsFalsely(m: Server, ids: seq<Id>, legs: seq<Bot>, ok: bool)
    requires ValidTable(m.table) && |ids| == |legs| && Distinct(ids) && forall id <- ids :: id !in m.table.bots
    ensures NoneFalsely(m, AddBots(m, ids, legs, ok))
  {
    hide RowsToSave, PutAll, Distinct, ValidTable, WhyRefused;
    PutAllFresh(m.table, ids, legs);
  }

  lemma LifeFalsely(m: Server, t: Turn)
    requires ValidTable(m.table) && (t.Begins? || t.Notes? || t.Ends?)
    ensures NoneFalsely(m, Turned(m, t))
  {
    hide ValidTable;
  }

  lemma TableFalsely(m: Server, t: Turn)
    requires ValidTable(m.table) && (t.Deletes? || t.Reorders? || t.Saves? || t.Stops? || t.SetsFund? || t.Edits?)
    ensures NoneFalsely(m, Turned(m, t))
  {
    if t.Deletes? || t.Reorders? { OrderFalsely(m, t); } else { EntryFalsely(m, t); }
  }

  lemma OrderFalsely(m: Server, t: Turn)
    requires ValidTable(m.table) && (t.Deletes? || t.Reorders?)
    ensures NoneFalsely(m, Turned(m, t))
  {
    hide ValidTable, RowsToSave, Without, Picked, Capital;
    match t
    case Deletes(id, _) => RemoveValid(m.table, id);
    case Reorders(ids, _) => ReorderedAll(m.table, ids);
  }

  lemma EntryFalsely(m: Server, t: Turn)
    requires ValidTable(m.table) && (t.Saves? || t.Stops? || t.SetsFund? || t.Edits?)
    ensures NoneFalsely(m, Turned(m, t))
  {
    hide ValidTable, RowsToSave, Without, Picked, Capital;
  }

  lemma BootIsLive(m: Server, legacy: set<Id>, refused: set<Id>, g: Graphs, loaded: bool, ok: bool)
    ensures RunningIsLive(Boot(m, legacy, refused, g, loaded, ok))
  {
    hide Boot, LoadRows;
    forall id ensures id in Boot(m, legacy, refused, g, loaded, ok).table.bots ==>
                        Boot(m, legacy, refused, g, loaded, ok).table.bots[id].status != Running
    {
      BootTries(m, legacy, refused, g, loaded, ok, id);
    }
  }

  lemma TurnIsLive(m: Server, t: Turn)
    requires ValidTable(m.table) && !t.ShutsDown? && (RunningIsLive(m) || t.Boots?)
    ensures RunningIsLive(Turned(m, t))
  {
    hide ValidTable, RunningIsLive, NoneFalsely, RequestStart, Boot, AddBots, Distinct, Turned;
    if t.Boots? {
      TurnedBoots(m, t);
      BootIsLive(m, t.legacy, t.refused, t.g, t.loaded, t.ok);
    } else {
      if t.Starts? {
        TurnedStarts(m, t);
        StartFalsely(m, t.id, t.check, t.ok);
      } else if t.Adds? {
        AddFalsely(m, t);
      } else if t.Begins? || t.Notes? || t.Ends? {
        LifeFalsely(m, t);
      } else {
        TableFalsely(m, t);
      }
      NoneFalselyLive(m, Turned(m, t));
    }
  }

  lemma AddFalsely(m: Server, t: Turn)
    requires ValidTable(m.table) && t.Adds?
    ensures NoneFalsely(m, Turned(m, t))
  {
    hide ValidTable, Distinct, AddBots, Live;
    if Turned(m, t) != m { AddsFalsely(m, t.ids, t.legs, t.ok); }
  }

  lemma TurnedBoots(m: Server, t: Turn)
    requires ValidTable(m.table) && t.Boots?
    ensures Turned(m, t) == Boot(m, t.legacy, t.refused, t.g, t.loaded, t.ok)
  {
    hide Boot;
  }

  lemma TurnedStarts(m: Server, t: Turn)
    requires ValidTable(m.table) && t.Starts?
    ensures Turned(m, t) == RequestStart(m, t.id, t.check, t.ok)
  {
    hide RequestStart;
  }

  /** In every history whose shutdowns are followed by a boot. */
  lemma {:induction false} EveryRunningIsLive(m: Server, turns: seq<Turn>)
    requires ValidTable(m.table) && RunningIsLive(m) && Orderly(turns)
    ensures turns == [] || !turns[|turns| - 1].ShutsDown? ==> RunningIsLive(Played(m, turns))
  {
    hide ValidTable, RunningIsLive, Turned;
    if turns != [] {
      var n := |turns| - 1;
      EveryRunningIsLive(m, turns[..n]);
      if !turns[n].ShutsDown? {
        if n > 0 && turns[n - 1].ShutsDown? { assert turns[n].Boots?; }
        TurnIsLive(Played(m, turns[..n]), turns[n]);
      }
    }
  }

  /** A bot at a boot after the state w was shut down in order: it ran, with no pause and no error but the
      recovery note, its code is not refused while it is flat, and its graph does not keep it back. */
  predicate RanAndComes(w: Server, x: Id, refused: set<Id>, check: Check) {
    && x in w.table.bots
    && var b := w.table.bots[x];
       && b.status == Running && !b.pause && b.error != OtherError
       && (b.graph && x in refused ==> b.holds || b.exitsOnly)
       && (b.graph ==> check.Compiles? || (check.CodeRefused? && (b.holds || b.exitsOnly)))
  }

  lemma ComesIff(w: Server, x: Id, legacy: bool, refused: set<Id>, check: Check)
    requires x in w.table.bots
    ensures Comes(LoadBot(w.table.bots[x], legacy, x in refused), check) <==> RanAndComes(w, x, refused, check)
  {
  }

  lemma LoadedApart(w: Server, l: Server, legacy: set<Id>, refused: set<Id>)
    requires OneEach(w) && RunningIsLive(w)
    requires forall x :: x in l.table.bots <==> x in w.table.bots
    requires forall x <- w.table.bots :: l.table.bots[x] == LoadBot(w.table.bots[x], x in legacy, x in refused)
    ensures TaggedApart(l)
  {
    forall a, b | a in l.table.bots && b in l.table.bots && a != b && l.table.bots[a].wasRunning && l.table.bots[b].wasRunning
      ensures Apart(l.table.bots[a], l.table.bots[b])
    {
      TaggedRan(w.table.bots[a], a in legacy, a in refused);
      TaggedRan(w.table.bots[b], b in legacy, b in refused);
      assert Apart(w.table.bots[a], w.table.bots[b]);
    }
  }

  lemma TaggedRan(b: Bot, legacy: bool, refused: bool)
    ensures var l := LoadBot(b, legacy, refused); (l.wasRunning <==> b.status == Running) && SameTrade(b, l)
  {
  }

  /** After an orderly shutdown the next boot starts exactly the bots that ran and come: none of them is in
      another's way, whatever happened before. */
  lemma BootStarts(w: Server, legacy: set<Id>, refused: set<Id>, g: Graphs, loaded: bool, ok: bool, x: Id)
    requires ValidTable(w.table) && OneEach(w) && RunningIsLive(w)
    ensures Live(Boot(Shutdown(w, true), legacy, refused, g, loaded, ok), x) <==> RanAndComes(w, x, refused, g.Of(x))
  {
    hide ValidTable, OneEach, RunningIsLive, LoadRows, RowsToSave, Load, Boot, ResumeUpTo, LoadBot, Comes, TaggedApart, Graphs.Of;
    var down := Shutdown(w, true);
    SaveThenLoad(w.table, w.kept);
    BootIs(down, legacy, refused, g, loaded, ok);
    var l := Load(down, legacy, refused, loaded).(attempted := []);
    forall y ensures (y in l.table.bots <==> y in w.table.bots)
                     && (y in w.table.bots ==> l.table.bots[y] == LoadBot(w.table.bots[y], y in legacy, y in refused))
    {
      LoadGives(down, legacy, refused, loaded, y);
    }
    LoadGives(down, legacy, refused, loaded, x);
    LoadedApart(w, l, legacy, refused);
    LoadNoTasks(down, legacy, refused, loaded);
    ResumeStarts(l, |l.table.order|, g);
    assert l.table.order[..|l.table.order|] == l.table.order;
    if x in w.table.bots { ComesIff(w, x, x in legacy, refused, g.Of(x)); }
  }

  lemma LoadNoTasks(m: Server, legacy: set<Id>, refused: set<Id>, loaded: bool)
    ensures Load(m, legacy, refused, loaded).tasks == map[]
  {
    hide LoadRows, RowsToSave, LoadEntries;
  }

  /** Over every history that begins with no runner: after an orderly shutdown exactly the bots that ran,
      with nothing against it, have a runner again once the next boot is through. */
  lemma RunnersComeBack(m: Server, turns: seq<Turn>, legacy: set<Id>, refused: set<Id>, g: Graphs, loaded: bool, ok: bool, x: Id)
    requires ValidTable(m.table) && m.tasks == map[] && (forall id <- m.table.bots :: m.table.bots[id].status != Running)
    requires Orderly(turns) && (turns == [] || !turns[|turns| - 1].ShutsDown?)
    ensures var w := Played(m, turns);
            Live(Boot(Shutdown(w, true), legacy, refused, g, loaded, ok), x) <==> RanAndComes(w, x, refused, g.Of(x))
  {
    hide Played, OneEach, Boot, Shutdown, RanAndComes, Graphs.Of, ValidTable;
    OneRunnerPerSymbolAndSide(m, turns);
    EveryRunningIsLive(m, turns);
    BootStarts(Played(m, turns), legacy, refused, g, loaded, ok, x);
  }
}
