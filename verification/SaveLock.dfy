/** The threads that take `_save_lock` in backend/bot_manager.py, and reorder, interleaved. */
module SaveLock {
  import opened BotTypes

  type Id = nat
  type Tid = nat

  /** A bot's graph and graph_rev. */
  datatype Pair = Pair(graph: int, rev: int)

  /** Where a thread is.  All but Idle and Copying hold the lock. */
  datatype Pc =
    | Idle
    | Copying(copy: set<Id>, whole: bool)
    | Inserting(legs: set<Id>, done: bool)
    | Dumping(adding: Option<set<Id>>, todo: set<Id>, half: Option<Half>, rows: map<Id, Pair>, stamp: nat, snap: set<Id>)
    | RollingBack(legs: set<Id>, todo: set<Id>)
    | Updating(id: Id, pair: Pair, graphSet: bool)

  /** The graph of a row is dumped, its rev not yet. */
  datatype Half = Half(id: Id, graph: int)

  /** Memory, disk and threads; and, for the properties, a clock that counts the changes of the
      bots in memory, the clock of each snapshot written and the bots of the last one, the batches that
      were saved and what became of the others, and the bots that are due in memory: inserted, not popped
      and not deleted. */
  datatype System = System(
    configs: map<Id, Pair>, bots: set<Id>, lock: Option<Tid>, pcs: map<Tid, Pc>, disk: map<Id, Pair>,
    clock: nat, written: seq<nat>, snapped: set<Id>, batches: set<set<Id>>, failed: set<Id>, deleted: set<Id>,
    due: set<Id>, inForce: set<(Id, Pair)>)

  datatype Action =
    | BeginSave(t: Tid)
    | BeginAdd(t: Tid, legs: map<Id, Pair>)
    | InsertLegs(t: Tid)
    | Snapshot(t: Tid)
    | DumpGraph(t: Tid, id: Id)
    | DumpRev(t: Tid)
    | Write(t: Tid, ok: bool)
    | DropLeg(t: Tid, id: Id)
    | BeginUpdate(t: Tid, id: Id, pair: Pair)
    | SetGraph(t: Tid)
    | SetRev(t: Tid)
    | Delete(id: Id)
    | BeginReorder(t: Tid)
    | CopyListed(t: Tid, id: Id)
    | CopyRest(t: Tid)
    | AssignBots(t: Tid)

  function At(s: System, t: Tid): Pc {
    if t in s.pcs then s.pcs[t] else Idle
  }

  predicate Holds(pc: Pc) {
    !pc.Idle? && !pc.Copying?
  }

  /** A thread that would wait for the lock, or is in another call, begins nothing. */
  predicate Waits(s: System, t: Tid) {
    s.lock.Some? || !At(s, t).Idle?
  }

  /** A step under the lock. */
  function Goto(s: System, t: Tid, pc: Pc): System {
    s.(pcs := s.pcs[t := pc], lock := if Holds(pc) then Some(t) else None)
  }

  /** A step outside it. */
  function Move(s: System, t: Tid, pc: Pc): System {
    s.(pcs := s.pcs[t := pc])
  }

  /** save() under the lock: list(self.bots.items()), then one row after the other. */
  function StartDump(s: System, t: Tid, adding: Option<set<Id>>): System {
    Goto(s, t, Dumping(adding, s.bots, None, map[], s.clock, s.bots))
  }

  /** self.bots.update(new): the whole batch goes into the dictionary that is there. */
  function Insert(s: System, t: Tid): System {
    match At(s, t)
    case Inserting(legs, false) =>
      Goto(s.(bots := s.bots + legs, due := s.due + legs, clock := s.clock + 1), t, Inserting(legs, true))
    case _ => s
  }

  function DumpHalf(s: System, t: Tid, id: Id): System {
    match At(s, t)
    case Dumping(adding, todo, None, rows, stamp, snap) =>
      if id !in todo || id !in s.configs then s
      else Goto(s, t, Dumping(adding, todo, Some(Half(id, s.configs[id].graph)), rows, stamp, snap))
    case _ => s
  }

  function DumpRest(s: System, t: Tid): System {
    match At(s, t)
    case Dumping(adding, todo, Some(half), rows, stamp, snap) =>
      if half.id !in s.configs then s
      else Goto(s, t, Dumping(adding, todo - {half.id}, None,
                              rows[half.id := Pair(half.graph, s.configs[half.id].rev)], stamp, snap))
    case _ => s
  }

  function WriteFile(s: System, t: Tid, ok: bool): System {
    match At(s, t)
    case Dumping(adding, todo, None, rows, stamp, snap) =>
      if todo != {} then s
      else if ok then
        Goto(s.(disk := rows, written := s.written + [stamp], snapped := snap,
                batches := s.batches + (if adding.Some? then {adding.value} else {})), t, Idle)
      else if adding.Some? then Goto(s, t, RollingBack(adding.value, adding.value))
      else Goto(s, t, Idle)
    case _ => s
  }

  function Drop(s: System, t: Tid, id: Id): System {
    match At(s, t)
    case RollingBack(legs, todo) =>
      if id !in todo then s
      else
        var s1 := s.(bots := s.bots - {id}, due := s.due - {id}, clock := s.clock + 1);
        if todo == {id} then Goto(s1.(failed := s1.failed + legs), t, Idle)
        else Goto(s1, t, RollingBack(legs, todo - {id}))
    case _ => s
  }

  function GraphIn(s: System, t: Tid): System {
    match At(s, t)
    case Updating(id, pair, false) =>
      if id !in s.configs then s
      else Goto(s.(configs := s.configs[id := Pair(pair.graph, s.configs[id].rev)]), t, Updating(id, pair, true))
    case _ => s
  }

  function RevIn(s: System, t: Tid): System {
    match At(s, t)
    case Updating(id, pair, true) =>
      Goto(s.(configs := s.configs[id := pair], inForce := s.inForce + {(id, pair)}, clock := s.clock + 1), t, Idle)
    case _ => s
  }

  /** reorder() before its save: self.bots is copied, the listed bots one by one and then the rest,
      and replaced by the copy, all without the lock. */
  function CopyOne(s: System, t: Tid, id: Id): System {
    match At(s, t)
    case Copying(copy, false) => if id in s.bots then Move(s, t, Copying(copy + {id}, false)) else s
    case _ => s
  }

  function CopyOthers(s: System, t: Tid): System {
    match At(s, t)
    case Copying(copy, false) => Move(s, t, Copying(copy + s.bots, true))
    case _ => s
  }

  function Assign(s: System, t: Tid): System {
    match At(s, t)
    case Copying(copy, true) => Move(s.(bots := copy, clock := s.clock + 1), t, Idle)
    case _ => s
  }

  function Do(s: System, a: Action): System {
    match a
    case BeginSave(t) => if Waits(s, t) then s else StartDump(s, t, None)
    case BeginAdd(t, legs) =>
      if Waits(s, t) || legs == map[] || !(legs.Keys !! s.configs.Keys) then s
      else Goto(s.(configs := s.configs + legs, inForce := s.inForce + set id | id in legs :: (id, legs[id])), t,
                Inserting(legs.Keys, false))
    case InsertLegs(t) => Insert(s, t)
    case Snapshot(t) =>
      var pc := At(s, t);
      if pc.Inserting? && pc.done then StartDump(s, t, Some(pc.legs)) else s
    case DumpGraph(t, id) => DumpHalf(s, t, id)
    case DumpRev(t) => DumpRest(s, t)
    case Write(t, ok) => WriteFile(s, t, ok)
    case DropLeg(t, id) => Drop(s, t, id)
    case BeginUpdate(t, id, pair) =>
      if Waits(s, t) || id !in s.bots then s else Goto(s, t, Updating(id, pair, false))
    case SetGraph(t) => GraphIn(s, t)
    case SetRev(t) => RevIn(s, t)
    case Delete(id) =>
      if id !in s.bots then s
      else s.(bots := s.bots - {id}, due := s.due - {id}, deleted := s.deleted + {id}, clock := s.clock + 1)
    case BeginReorder(t) => if At(s, t).Idle? then Move(s, t, Copying({}, false)) else s
    case CopyListed(t, id) => CopyOne(s, t, id)
    case CopyRest(t) => CopyOthers(s, t)
    case AssignBots(t) => Assign(s, t)
  }

  function Interleave(s: System, actions: seq<Action>): System {
    if actions == [] then s else Do(Interleave(s, actions[..|actions| - 1]), actions[|actions| - 1])
  }

  /** A server that has just started: no call under way, every bot as on disk. */
  predicate Fresh(s: System) {
    && s.lock.None? && (forall t <- s.pcs :: s.pcs[t].Idle?)
    && s.bots == s.configs.Keys && s.due == s.bots && s.disk == s.configs
    && s.written == [] && s.snapped == s.bots && s.batches == {} && s.failed == {} && s.deleted == {}
    && s.inForce == set id | id in s.configs :: (id, s.configs[id])
  }

  // ---- what every interleaving keeps ----

  predicate LockHeld(s: System) {
    forall t <- s.pcs :: Holds(s.pcs[t]) ==> s.lock == Some(t)
  }

  /** The bot whose graph an update has set, but not yet its rev. */
  function Midway(s: System): Option<Id> {
    match s.lock
    case None => None
    case Some(t) =>
      match At(s, t)
      case Updating(id, _, true) => Some(id)
      case _ => None
  }

  /** Every config holds a pair that was set together, but the one an update is in the middle of. */
  predicate ConfigsOk(s: System) {
    forall id <- s.configs :: Midway(s) == Some(id) || (id, s.configs[id]) in s.inForce
  }

  predicate RowsOk(s: System, rows: map<Id, Pair>) {
    forall id <- rows :: (id, rows[id]) in s.inForce
  }

  predicate Ascending(stamps: seq<nat>) {
    forall i, j | 0 <= i < j < |stamps| :: stamps[i] <= stamps[j]
  }

  predicate Written(s: System, stamp: nat) {
    s.written != [] ==> s.written[|s.written| - 1] <= stamp
  }

  predicate PcOk(s: System, pc: Pc) {
    match pc
    case Idle => true
    case Copying(copy, _) => copy <= s.configs.Keys
    case Inserting(legs, _) => {} != legs <= s.configs.Keys
    case Dumping(adding, todo, half, rows, stamp, snap) =>
      && todo + rows.Keys == snap <= s.configs.Keys && (forall id <- rows :: rows[id] == s.configs[id]) && RowsOk(s, rows) && stamp <= s.clock && Written(s, stamp)
      && (half.Some? ==> half.value.id in todo && half.value.id in s.configs && s.configs[half.value.id].graph == half.value.graph)
      && (adding.Some? ==> {} != adding.value <= s.configs.Keys)
    case RollingBack(legs, todo) => todo != {} && todo <= legs <= s.configs.Keys
    case Updating(id, _, _) => id in s.configs
  }

  predicate CopiesOk(s: System) {
    forall t <- s.pcs :: s.pcs[t].Copying? ==> s.pcs[t].copy <= s.configs.Keys
  }

  /** What is known of memory and disk is about bots that have a config. */
  predicate Known(s: System) {
    && s.bots <= s.configs.Keys && s.failed <= s.configs.Keys && s.deleted <= s.configs.Keys
    && (forall b <- s.batches :: b <= s.configs.Keys)
    && RowsOk(s, s.disk) && s.disk.Keys == s.snapped <= s.configs.Keys && Ascending(s.written) && Written(s, s.clock)
  }

  predicate HolderOk(s: System) {
    s.lock.Some? ==> Holds(At(s, s.lock.value)) && PcOk(s, At(s, s.lock.value))
  }

  /** What holds whatever a reorder does. */
  predicate Inv(s: System) {
    LockHeld(s) && ConfigsOk(s) && CopiesOk(s) && Known(s) && HolderOk(s)
  }

  // ---- a step under the lock ----

  /** The thread has the lock, or may take it. */
  predicate MayGo(s: System, t: Tid) {
    if s.lock.None? then At(s, t).Idle? else s.lock == Some(t)
  }

  /** Memory and disk may change, but no config and no thread. */
  predicate SameConfigs(s: System, m: System) {
    m.configs == s.configs && m.inForce == s.inForce && m.pcs == s.pcs && m.lock == s.lock
  }

  lemma GotoHolds(s: System, t: Tid, pc: Pc)
    requires LockHeld(s) && MayGo(s, t)
    ensures LockHeld(Goto(s, t, pc)) && At(Goto(s, t, pc), t) == pc
  {
  }

  lemma GotoCopies(s: System, t: Tid, pc: Pc)
    requires CopiesOk(s) && !pc.Copying?
    ensures CopiesOk(Goto(s, t, pc))
  {
  }

  lemma GotoConfigs(s: System, m: System, t: Tid, pc: Pc)
    requires ConfigsOk(s) && SameConfigs(s, m) && MayGo(s, t) && Midway(s).None? && (pc.Updating? ==> !pc.graphSet)
    ensures ConfigsOk(Goto(m, t, pc))
  {
  }

  lemma GotoKnown(m: System, t: Tid, pc: Pc)
    requires Known(m) && (Holds(pc) ==> PcOk(m, pc))
    ensures Known(Goto(m, t, pc)) && HolderOk(Goto(m, t, pc))
  {
  }

  lemma GotoKeeps(s: System, m: System, t: Tid, pc: Pc)
    requires Inv(s) && SameConfigs(s, m) && MayGo(s, t) && Midway(s).None? && Known(m)
    requires !pc.Copying? && (pc.Updating? ==> !pc.graphSet) && PcOk(m, pc)
    ensures Inv(Goto(m, t, pc))
  {
    hide LockHeld, ConfigsOk, CopiesOk, Known, PcOk, HolderOk, Midway;
    GotoHolds(m, t, pc) by { SameLock(s, m); }
    GotoCopies(m, t, pc) by { SameCopies(s, m); }
    GotoConfigs(s, m, t, pc);
    GotoKnown(m, t, pc);
  }

  lemma SameLock(s: System, m: System)
    requires LockHeld(s) && SameConfigs(s, m)
    ensures LockHeld(m)
  {
  }

  lemma SameCopies(s: System, m: System)
    requires CopiesOk(s) && SameConfigs(s, m)
    ensures CopiesOk(m)
  {
  }

  /** The thread at work holds the lock, and its place is as it should be. */
  lemma HolderIs(s: System, t: Tid)
    requires Inv(s) && Holds(At(s, t))
    ensures s.lock == Some(t) && PcOk(s, At(s, t)) && (!At(s, t).Updating? ==> Midway(s).None?)
  {
    hide ConfigsOk, CopiesOk, Known, PcOk;
  }

  lemma FreeIs(s: System, t: Tid)
    requires !Waits(s, t)
    ensures MayGo(s, t) && Midway(s).None?
  {
  }

  lemma InvIs(s: System)
    requires Inv(s)
    ensures Known(s)
  {
  }

  lemma DumpStarts(s: System, t: Tid, adding: Option<set<Id>>)
    requires Inv(s) && MayGo(s, t) && Midway(s).None? && (adding.Some? ==> {} != adding.value <= s.configs.Keys)
    ensures Inv(StartDump(s, t, adding))
  {
    hide Inv, Midway, Goto;
    InvIs(s);
    GotoKeeps(s, s, t, Dumping(adding, s.bots, None, map[], s.clock, s.bots));
  }

  lemma InsertKeeps(s: System, t: Tid)
    requires Inv(s)
    ensures Inv(Insert(s, t))
  {
    hide Inv, Midway, Goto;
    var pc := At(s, t);
    if pc.Inserting? && !pc.done {
      InvIs(s);
      HolderIs(s, t);
      GotoKeeps(s, s.(bots := s.bots + pc.legs, due := s.due + pc.legs, clock := s.clock + 1), t, Inserting(pc.legs, true));
    }
  }

  lemma DumpHalfKeeps(s: System, t: Tid, id: Id)
    requires Inv(s)
    ensures Inv(DumpHalf(s, t, id))
  {
    hide Inv, Midway, Goto;
    var pc := At(s, t);
    if pc.Dumping? && pc.half.None? && id in pc.todo && id in s.configs {
      InvIs(s);
      HolderIs(s, t);
      GotoKeeps(s, s, t, pc.(half := Some(Half(id, s.configs[id].graph))));
    }
  }

  lemma DumpRestKeeps(s: System, t: Tid)
    requires Inv(s)
    ensures Inv(DumpRest(s, t))
  {
    hide Midway, Goto, LockHeld, CopiesOk;
    var pc := At(s, t);
    if pc.Dumping? && pc.half.Some? && pc.half.value.id in s.configs {
      HolderIs(s, t);
      var half := pc.half.value;
      assert (half.id, s.configs[half.id]) in s.inForce;
      GotoKeeps(s, s, t, pc.(todo := pc.todo - {half.id}, half := None,
                             rows := pc.rows[half.id := Pair(half.graph, s.configs[half.id].rev)]));
    }
  }

  lemma WriteKeeps(s: System, t: Tid, ok: bool)
    requires Inv(s)
    ensures Inv(WriteFile(s, t, ok))
  {
    hide Inv, Midway, Goto;
    var pc := At(s, t);
    if pc.Dumping? && pc.half.None? && pc.todo == {} {
      InvIs(s);
      HolderIs(s, t);
      if ok {
        GotoKeeps(s, s.(disk := pc.rows, written := s.written + [pc.stamp], snapped := pc.snap,
                        batches := s.batches + if pc.adding.Some? then {pc.adding.value} else {}), t, Idle);
      } else {
        GotoKeeps(s, s, t, if pc.adding.Some? then RollingBack(pc.adding.value, pc.adding.value) else Idle);
      }
    }
  }

  lemma DropKeeps(s: System, t: Tid, id: Id)
    requires Inv(s)
    ensures Inv(Drop(s, t, id))
  {
    hide Inv, Midway, Goto;
    var pc := At(s, t);
    if pc.RollingBack? && id in pc.todo {
      InvIs(s);
      HolderIs(s, t);
      var s1 := s.(bots := s.bots - {id}, due := s.due - {id}, clock := s.clock + 1);
      if pc.todo == {id} {
        GotoKeeps(s, s1.(failed := s1.failed + pc.legs), t, Idle);
      } else {
        GotoKeeps(s, s1, t, RollingBack(pc.legs, pc.todo - {id}));
      }
    }
  }

  lemma GraphKeeps(s: System, t: Tid)
    requires Inv(s)
    ensures Inv(GraphIn(s, t))
  {
    if GraphIn(s, t) != s { GotoHolds(s, t, At(GraphIn(s, t), t)); }
  }

  lemma RevKeeps(s: System, t: Tid)
    requires Inv(s)
    ensures Inv(RevIn(s, t))
  {
    if RevIn(s, t) != s { GotoHolds(s, t, Idle); }
  }

  lemma AddKeeps(s: System, t: Tid, legs: map<Id, Pair>)
    requires Inv(s)
    ensures Inv(Do(s, BeginAdd(t, legs)))
  {
    var s1 := Do(s, BeginAdd(t, legs));
    if s1 != s {
      GotoHolds(s, t, Inserting(legs.Keys, false));
      forall id <- s1.configs ensures (id, s1.configs[id]) in s1.inForce {
        if id in legs { assert s1.configs[id] == legs[id]; }
      }
    }
  }

  // ---- a step outside it ----

  lemma MoveKeeps(s: System, m: System, t: Tid, pc: Pc)
    requires Inv(s) && SameConfigs(s, m) && Known(m) && m.written == s.written && m.clock >= s.clock
    requires !Holds(At(s, t)) && !Holds(pc) && PcOk(m, pc)
    ensures Inv(Move(m, t, pc))
  {
  }

  lemma CopyKeeps(s: System, t: Tid, id: Id)
    requires Inv(s)
    ensures Inv(CopyOne(s, t, id)) && Inv(CopyOthers(s, t))
  {
    hide Move, LockHeld, ConfigsOk, HolderOk;
    var pc := At(s, t);
    if pc.Copying? && !pc.whole {
      if id in s.bots { MoveKeeps(s, s, t, Copying(pc.copy + {id}, false)); }
      MoveKeeps(s, s, t, Copying(pc.copy + s.bots, true));
    }
  }

  lemma AssignKeeps(s: System, t: Tid)
    requires Inv(s)
    ensures Inv(Assign(s, t))
  {
    hide Move, LockHeld, ConfigsOk, HolderOk;
    var pc := At(s, t);
    if pc.Copying? && pc.whole { MoveKeeps(s, s.(bots := pc.copy, clock := s.clock + 1), t, Idle); }
  }

  lemma StartKeeps(s: System, a: Action)
    requires Inv(s) && (a.BeginSave? || a.Snapshot? || a.BeginUpdate?)
    ensures Inv(Do(s, a))
  {
    hide Inv, Midway, Goto, StartDump, Waits;
    InvIs(s);
    match a
    case BeginSave(t) => if !Waits(s, t) { FreeIs(s, t); DumpStarts(s, t, None); }
    case Snapshot(t) =>
      var pc := At(s, t);
      if pc.Inserting? && pc.done { HolderIs(s, t); DumpStarts(s, t, Some(pc.legs)); }
    case BeginUpdate(t, id, pair) =>
      if !Waits(s, t) && id in s.bots { FreeIs(s, t); GotoKeeps(s, s, t, Updating(id, pair, false)); }
  }

  lemma DeleteKeeps(s: System, id: Id)
    requires Inv(s)
    ensures Inv(Do(s, Delete(id)))
  {
  }

  lemma ReorderKeeps(s: System, t: Tid)
    requires Inv(s)
    ensures Inv(Do(s, BeginReorder(t)))
  {
    hide Inv, Move;
    InvIs(s);
    if At(s, t).Idle? { MoveKeeps(s, s, t, Copying({}, false)); }
  }

  lemma DoKeeps(s: System, a: Action)
    requires Inv(s)
    ensures Inv(Do(s, a))
  {
    hide Inv, Waits, Goto, Move, StartDump, Insert, DumpHalf, DumpRest, WriteFile, Drop, GraphIn, RevIn, CopyOne, CopyOthers, Assign;
    match a
    case BeginAdd(t, legs) => AddKeeps(s, t, legs);
    case InsertLegs(t) => InsertKeeps(s, t);
    case DumpGraph(t, id) => DumpHalfKeeps(s, t, id);
    case DumpRev(t) => DumpRestKeeps(s, t);
    case Write(t, ok) => WriteKeeps(s, t, ok);
    case DropLeg(t, id) => DropKeeps(s, t, id);
    case SetGraph(t) => GraphKeeps(s, t);
    case SetRev(t) => RevKeeps(s, t);
    case CopyListed(t, id) => CopyKeeps(s, t, id);
    case CopyRest(t) => CopyKeeps(s, t, 0);
    case AssignBots(t) => AssignKeeps(s, t);
    case Delete(id) => DeleteKeeps(s, id);
    case BeginReorder(t) => ReorderKeeps(s, t);
    case _ => StartKeeps(s, a);
  }

  lemma {:induction false} EveryInterleavingKeeps(s: System, actions: seq<Action>)
    requires Fresh(s)
    ensures Inv(Interleave(s, actions))
  {
    if actions != [] {
      EveryInterleavingKeeps(s, actions[..|actions| - 1]);
      DoKeeps(Interleave(s, actions[..|actions| - 1]), actions[|actions| - 1]);
    }
  }

  /** Under every interleaving a file has a row for each bot that was in memory at its snapshot and for no
      other, the pair of every row was in force, and no file replaces one made from a later snapshot. */
  lemma EveryRowIsAPair(s: System, actions: seq<Action>)
    requires Fresh(s)
    ensures var s1 := Interleave(s, actions);
            s1.disk.Keys == s1.snapped && (forall id <- s1.disk :: (id, s1.disk[id]) in s1.inForce) && Ascending(s1.written)
  {
    EveryInterleavingKeeps(s, actions);
  }

  /** At the moment a file is written it holds the pair that is in memory for every bot of its snapshot. */
  lemma WrittenIsCurrent(s: System, actions: seq<Action>, t: Tid)
    requires Fresh(s)
    ensures var w := Interleave(s, actions);
            var w1 := Do(w, Write(t, true));
            w1.written != w.written ==>
              && w1.disk.Keys == w1.snapped && (forall id <- w1.disk :: id in w.configs && w1.disk[id] == w.configs[id])
              && w1.configs == w.configs && w1.bots == w.bots
  {
    hide Midway, LockHeld, CopiesOk, ConfigsOk;
    EveryInterleavingKeeps(s, actions);
    var w := Interleave(s, actions);
    if Holds(At(w, t)) { HolderIs(w, t); }
  }

  // ---- a call that is let run does its work ----

  lemma Joined(s: System, a: seq<Action>, b: seq<Action>)
    ensures Interleave(s, a + b) == Interleave(Interleave(s, a), b)
    decreases |b|
  {
    hide Do;
    if b == [] {
      assert a + b == a;
    } else {
      assert (a + b)[..|a + b| - 1] == a + b[..|b| - 1];
      Joined(s, a, b[..|b| - 1]);
    }
  }

  lemma One(s: System, a: Action)
    ensures Interleave(s, [a]) == Do(s, a)
  {
    assert [a][..0] == [];
  }

  /** One row is dumped. */
  lemma RowDumped(s: System, t: Tid, id: Id)
    requires Inv(s) && At(s, t).Dumping? && At(s, t).half.None? && id in At(s, t).todo
    ensures var s1 := Interleave(s, [DumpGraph(t, id), DumpRev(t)]);
            var pc := At(s, t);
            && s1 == s.(lock := Some(t), pcs := s1.pcs) && Inv(s1)
            && At(s1, t) == pc.(todo := pc.todo - {id}, rows := pc.rows[id := s.configs[id]])
  {
    hide Inv, StartDump, Insert, WriteFile, Drop, GraphIn, RevIn, CopyOne, CopyOthers, Assign;
    HolderIs(s, t);
    Joined(s, [DumpGraph(t, id)], [DumpRev(t)]);
    assert [DumpGraph(t, id)] + [DumpRev(t)] == [DumpGraph(t, id), DumpRev(t)];
    One(s, DumpGraph(t, id));
    One(Do(s, DumpGraph(t, id)), DumpRev(t));
    DoKeeps(s, DumpGraph(t, id));
    DoKeeps(Do(s, DumpGraph(t, id)), DumpRev(t));
  }

  /** A dump that is let run holds every bot of its snapshot with its pair in memory. */
  lemma {:induction false} DumpRuns(s: System, t: Tid) returns (actions: seq<Action>)
    requires Inv(s) && At(s, t).Dumping? && At(s, t).half.None?
    ensures var s1 := Interleave(s, actions);
            var pc := At(s, t);
            && s1 == s.(lock := s1.lock, pcs := s1.pcs) && Inv(s1)
            && At(s1, t).Dumping? && At(s1, t) == pc.(todo := {}, rows := At(s1, t).rows) && At(s1, t).rows.Keys == pc.snap
    decreases At(s, t).todo
  {
    hide Inv, Do;
    var pc := At(s, t);
    DumpingIs(s, t);
    if pc.todo == {} {
      actions := [];
    } else {
      var id :| id in pc.todo;
      var first := [DumpGraph(t, id), DumpRev(t)];
      RowDumped(s, t, id);
      var more := DumpRuns(Interleave(s, first), t);
      Joined(s, first, more);
      actions := first + more;
    }
  }

  lemma DumpingIs(s: System, t: Tid)
    requires Inv(s) && At(s, t).Dumping?
    ensures At(s, t).todo + At(s, t).rows.Keys == At(s, t).snap
    ensures forall id <- At(s, t).rows :: id in s.configs && At(s, t).rows[id] == s.configs[id]
  {
    HolderIs(s, t);
  }

  /** A save that finds the lock free and is let run, and whose file is written, leaves exactly the bots in
      memory on disk, with their pairs. */
  lemma SaveRuns(s: System, t: Tid) returns (actions: seq<Action>)
    requires Inv(s) && s.lock.None? && At(s, t).Idle?
    ensures var s1 := Interleave(s, actions);
            && s1.lock.None? && At(s1, t).Idle? && s1.bots == s.bots && s1.configs == s.configs
            && s1.disk.Keys == s.bots && forall id <- s1.disk :: id in s.configs && s1.disk[id] == s.configs[id]
  {
    hide Inv;
    DoKeeps(s, BeginSave(t));
    One(s, BeginSave(t));
    var s0 := Do(s, BeginSave(t));
    var dump := DumpRuns(s0, t);
    var s1 := Interleave(s0, dump);
    DumpingIs(s1, t);
    One(s1, Write(t, true));
    Joined(s0, dump, [Write(t, true)]);
    Joined(s, [BeginSave(t)], dump + [Write(t, true)]);
    actions := [BeginSave(t)] + (dump + [Write(t, true)]);
  }

  /** An add that finds the lock free and is let run: with its file written the batch is saved, in memory
      and on disk with its pairs. */
  lemma AddRuns(s: System, t: Tid, legs: map<Id, Pair>) returns (actions: seq<Action>)
    requires Inv(s) && s.lock.None? && At(s, t).Idle? && legs != map[] && legs.Keys !! s.configs.Keys
    ensures var s1 := Interleave(s, actions);
            && s1.lock.None? && At(s1, t).Idle? && legs.Keys in s1.batches && s1.bots == s.bots + legs.Keys && s1.configs == s.configs + legs
            && s1.disk.Keys == s1.bots && forall id <- legs :: s1.disk[id] == legs[id]
  {
    hide Inv, StartDump, Insert, DumpHalf, DumpRest, Drop, GraphIn, RevIn, CopyOne, CopyOthers, Assign;
    var begin := [BeginAdd(t, legs), InsertLegs(t), Snapshot(t)];
    AddBegins(s, t, legs);
    var s0 := Interleave(s, begin);
    var dump := DumpRuns(s0, t);
    var s1 := Interleave(s0, dump);
    DumpingIs(s1, t);
    One(s1, Write(t, true));
    Joined(s0, dump, [Write(t, true)]);
    Joined(s, begin, dump + [Write(t, true)]);
    actions := begin + (dump + [Write(t, true)]);
    forall id <- legs ensures id in s1.configs && s1.configs[id] == legs[id] { assert s1.configs == s.configs + legs; }
  }

  lemma AddBegins(s: System, t: Tid, legs: map<Id, Pair>)
    requires Inv(s) && s.lock.None? && At(s, t).Idle? && legs != map[] && legs.Keys !! s.configs.Keys
    ensures var s1 := Interleave(s, [BeginAdd(t, legs), InsertLegs(t), Snapshot(t)]);
            && Inv(s1) && s1.bots == s.bots + legs.Keys && s1.configs == s.configs + legs && s1.batches == s.batches
            && At(s1, t) == Dumping(Some(legs.Keys), s1.bots, None, map[], s1.clock, s1.bots)
  {
    hide Inv, DumpHalf, DumpRest, WriteFile, Drop, GraphIn, RevIn, CopyOne, CopyOthers, Assign;
    var a, b, d := BeginAdd(t, legs), InsertLegs(t), Snapshot(t);
    Joined(s, [a], [b]);
    Joined(s, [a] + [b], [d]);
    assert [a] + [b] + [d] == [a, b, d];
    One(s, a);
    One(Do(s, a), b);
    One(Do(Do(s, a), b), d);
    DoKeeps(s, a);
    DoKeeps(Do(s, a), b);
    DoKeeps(Do(Do(s, a), b), d);
  }

  /** An update of a bot in memory that finds the lock free and is let run puts its pair in force. */
  lemma UpdateRuns(s: System, t: Tid, id: Id, pair: Pair)
    requires Inv(s) && s.lock.None? && At(s, t).Idle? && id in s.bots
    ensures var s1 := Interleave(s, [BeginUpdate(t, id, pair), SetGraph(t), SetRev(t)]);
            s1.lock.None? && At(s1, t).Idle? && s1.configs == s.configs[id := pair] && (id, pair) in s1.inForce && s1.bots == s.bots
  {
    hide Inv, StartDump, Insert, DumpHalf, DumpRest, WriteFile, Drop, CopyOne, CopyOthers, Assign;
    InvIs(s);
    var a, b, d := BeginUpdate(t, id, pair), SetGraph(t), SetRev(t);
    Joined(s, [a], [b]);
    Joined(s, [a] + [b], [d]);
    assert [a] + [b] + [d] == [a, b, d];
    One(s, a);
    One(Do(s, a), b);
    One(Do(Do(s, a), b), d);
  }

  /** A deleted bot is out of memory at once, and counts as deleted. */
  lemma DeleteRuns(s: System, id: Id)
    requires id in s.bots
    ensures var s1 := Do(s, Delete(id));
            s1.bots == s.bots - {id} && s1.due == s.due - {id} && s1.deleted == s.deleted + {id} && s1.disk == s.disk && s1.configs == s.configs
  {
  }

  // ---- who is in memory and on disk ----

  /** All of the batch, but what was deleted since. */
  predicate Has(batch: set<Id>, ids: set<Id>, deleted: set<Id>) {
    batch - deleted <= ids
  }

  /** The legs a failed add is about to pop. */
  function Popping(s: System): set<Id> {
    match s.lock
    case None => {}
    case Some(t) =>
      match At(s, t)
      case RollingBack(_, todo) => todo
      case _ => {}
  }

  /** The same bots, but for legs about to be popped. */
  ghost predicate Same(s: System, a: set<Id>, b: set<Id>) {
    forall id: Id :: id !in Popping(s) ==> (id in a <==> id in b)
  }

  /** Memory holds the bots that are due. */
  ghost predicate MemoryRight(s: System) {
    Same(s, s.bots, s.due)
  }

  /** What a reorder is about to assign is still what is there. */
  ghost predicate Current(s: System, a: Action) {
    a.AssignBots? && At(s, a.t).Copying? && At(s, a.t).whole ==> Same(s, At(s, a.t).copy, s.bots)
  }

  ghost predicate AllCurrent(s: System, actions: seq<Action>) {
    actions == [] ||
    (AllCurrent(s, actions[..|actions| - 1])
     && Current(Interleave(s, actions[..|actions| - 1]), actions[|actions| - 1]))
  }

  ghost predicate RightThroughout(s: System, actions: seq<Action>) {
    MemoryRight(Interleave(s, actions)) && (actions == [] || RightThroughout(s, actions[..|actions| - 1]))
  }

  /** The legs of an add that is under way: nowhere on disk, in no saved batch and no failed one. */
  predicate New(s: System, legs: set<Id>) {
    legs !! s.disk.Keys && legs !! s.failed && forall b <- s.batches :: legs !! b
  }

  predicate PcWhole(s: System, pc: Pc) {
    match pc
    case Inserting(legs, done) => New(s, legs) && if done then Has(legs, s.bots, s.deleted) else legs !! s.due && legs !! s.deleted
    case Dumping(adding, todo, _, rows, _, _) =>
      && (forall b <- s.batches :: Has(b, todo + rows.Keys, s.deleted)) && todo + rows.Keys !! s.failed
      && (adding.Some? ==> && New(s, adding.value) && Has(adding.value, todo + rows.Keys, s.deleted)
                           && Has(adding.value, s.bots, s.deleted))
    case RollingBack(legs, todo) => New(s, legs) && (legs - todo) !! s.bots
    case _ => true
  }

  ghost predicate Whole(s: System) {
    && (forall b <- s.batches :: Has(b, s.bots, s.deleted) && Has(b, s.disk.Keys, s.deleted) && b !! s.failed)
    && s.failed !! s.bots && s.failed !! s.disk.Keys
    && MemoryRight(s) && s.due !! s.deleted && s.due <= s.configs.Keys
    && (s.lock.Some? ==> PcWhole(s, At(s, s.lock.value)))
  }

  lemma AddWhole(s: System, t: Tid, legs: map<Id, Pair>)
    requires Inv(s) && Whole(s)
    ensures Whole(Do(s, BeginAdd(t, legs)))
  {
    var s1 := Do(s, BeginAdd(t, legs));
    if s1 != s {
      forall ids: set<Id> | ids <= s.configs.Keys ensures legs.Keys !! ids {}
      assert s.disk.Keys <= s.configs.Keys && s.bots <= s.configs.Keys && s.failed <= s.configs.Keys;
    }
  }

  lemma InsertWhole(s: System, t: Tid)
    requires Inv(s) && Whole(s)
    ensures Whole(Insert(s, t))
  {
  }

  lemma DumpWhole(s: System, t: Tid, id: Id)
    requires Inv(s) && Whole(s)
    ensures Whole(DumpHalf(s, t, id)) && Whole(DumpRest(s, t))
  {
    var pc := At(s, t);
    if DumpRest(s, t) != s {
      assert pc.todo - {pc.half.value.id} + At(DumpRest(s, t), t).rows.Keys == pc.todo + pc.rows.Keys;
    }
  }

  lemma WriteWhole(s: System, t: Tid, ok: bool)
    requires Inv(s) && Whole(s)
    ensures Whole(WriteFile(s, t, ok))
  {
    var pc := At(s, t);
    if pc.Dumping? { assert pc.todo == {} ==> pc.todo + pc.rows.Keys == pc.rows.Keys; }
  }

  lemma DropWhole(s: System, t: Tid, id: Id)
    requires Inv(s) && Whole(s)
    ensures Whole(Drop(s, t, id))
  {
  }

  lemma DeleteWhole(s: System, id: Id)
    requires Inv(s) && Whole(s)
    ensures Whole(Do(s, Delete(id)))
  {
  }

  lemma AssignWholeIff(s: System, t: Tid)
    requires Inv(s) && Whole(s)
    ensures Current(s, AssignBots(t)) ==> Whole(Assign(s, t))
    ensures MemoryRight(Assign(s, t)) ==> Current(s, AssignBots(t))
  {
  }

  lemma SaveWhole(s: System, a: Action)
    requires Inv(s) && Whole(s) && (a.BeginSave? || a.Snapshot?)
    ensures Whole(Do(s, a))
  {
  }

  lemma UpdateWhole(s: System, a: Action)
    requires Inv(s) && Whole(s) && (a.BeginUpdate? || a.SetGraph? || a.SetRev?)
    ensures Whole(Do(s, a))
  {
    hide ConfigsOk;
  }

  lemma CopyWhole(s: System, a: Action)
    requires Inv(s) && Whole(s) && (a.BeginReorder? || a.CopyListed? || a.CopyRest?)
    ensures Whole(Do(s, a))
  {
    hide ConfigsOk;
  }

  lemma DoWholeIff(s: System, a: Action)
    requires Inv(s) && Whole(s)
    ensures Current(s, a) ==> Whole(Do(s, a))
    ensures MemoryRight(Do(s, a)) ==> Current(s, a)
  {
    hide Inv, Whole, MemoryRight, Waits, Goto, Move, StartDump, Insert, DumpHalf, DumpRest, WriteFile, Drop, GraphIn, RevIn,
         CopyOne, CopyOthers, Assign;
    match a
    case BeginAdd(t, legs) => AddWhole(s, t, legs);
    case InsertLegs(t) => InsertWhole(s, t);
    case DumpGraph(t, id) => DumpWhole(s, t, id);
    case DumpRev(t) => DumpWhole(s, t, 0);
    case Write(t, ok) => WriteWhole(s, t, ok);
    case DropLeg(t, id) => DropWhole(s, t, id);
    case Delete(id) => DeleteWhole(s, id);
    case AssignBots(t) => AssignWholeIff(s, t);
    case _ =>
      if a.BeginSave? || a.Snapshot? { SaveWhole(s, a); }
      else if a.BeginUpdate? || a.SetGraph? || a.SetRev? { UpdateWhole(s, a); }
      else { CopyWhole(s, a); }
  }

  lemma {:induction false} CurrentKeepsWhole(s: System, actions: seq<Action>)
    requires Fresh(s) && AllCurrent(s, actions)
    ensures Whole(Interleave(s, actions))
  {
    if actions != [] {
      var before := Interleave(s, actions[..|actions| - 1]);
      CurrentKeepsWhole(s, actions[..|actions| - 1]);
      EveryInterleavingKeeps(s, actions[..|actions| - 1]);
      DoWholeIff(before, actions[|actions| - 1]);
    }
  }

  /** Memory holds the bots that are due at every moment exactly when every reorder assigns a copy
      that is still current: between its copy and its assignment no bot came that stays and none went. */
  lemma {:induction false} MemoryIsRightIff(s: System, actions: seq<Action>)
    requires Fresh(s)
    ensures RightThroughout(s, actions) <==> AllCurrent(s, actions)
  {
    if actions != [] {
      var n := |actions| - 1;
      MemoryIsRightIff(s, actions[..n]);
      if AllCurrent(s, actions[..n]) {
        CurrentKeepsWhole(s, actions[..n]);
        EveryInterleavingKeeps(s, actions[..n]);
        DoWholeIff(Interleave(s, actions[..n]), actions[n]);
      }
    }
  }

  /** With such reorders a file on disk holds every saved batch but what the user deleted, nothing of
      a batch under way and nothing of one whose save failed; the same of memory, where nothing
      deleted comes back. */
  lemma EveryFileIsWhole(s: System, actions: seq<Action>)
    requires Fresh(s) && AllCurrent(s, actions)
    ensures var s1 := Interleave(s, actions);
            && (forall b <- s1.batches :: Has(b, s1.disk.Keys, s1.deleted) && Has(b, s1.bots, s1.deleted))
            && (forall t <- s1.pcs :: s1.pcs[t].Inserting? ==> s1.pcs[t].legs !! s1.disk.Keys)
            && (forall t <- s1.pcs :: s1.pcs[t].RollingBack? ==> s1.pcs[t].legs !! s1.disk.Keys)
            && s1.disk.Keys !! s1.failed && s1.bots !! s1.failed && s1.bots - Popping(s1) !! s1.deleted
  {
    CurrentKeepsWhole(s, actions);
    EveryInterleavingKeeps(s, actions);
  }

  lemma BatchStays(s: System, a: Action, batch: set<Id>)
    requires batch in s.batches
    ensures batch in Do(s, a).batches
  {
  }

  /** Once its save is done, a batch is in memory and in every later file. */
  lemma SavedBatchStays(s: System, actions: seq<Action>, more: seq<Action>, batch: set<Id>)
    requires Fresh(s) && batch in Interleave(s, actions).batches && AllCurrent(s, actions + more)
    ensures var s1 := Interleave(s, actions + more);
            batch in s1.batches && Has(batch, s1.bots, s1.deleted) && Has(batch, s1.disk.Keys, s1.deleted)
    decreases |more|
  {
    if more == [] {
      assert actions + more == actions;
    } else {
      var n := |more| - 1;
      assert (actions + more)[..|actions + more| - 1] == actions + more[..n];
      assert (actions + more)[|actions + more| - 1] == more[n];
      SavedBatchStays(s, actions, more[..n], batch);
      BatchStays(Interleave(s, actions + more[..n]), more[n], batch);
    }
    EveryFileIsWhole(s, actions + more);
  }

  // ---- what a copy that is not current does ----

  const EMPTY := System(map[], {}, None, map[], map[], 0, [], {}, {}, {}, {}, {}, {})

  lemma Then(actions: seq<Action>, s: System, a: Action) returns (more: seq<Action>, s1: System)
    requires s == Interleave(EMPTY, actions)
    ensures more == actions + [a] && s1 == Do(s, a) && s1 == Interleave(EMPTY, more)
  {
    more, s1 := actions + [a], Do(s, a);
    assert more[..|more| - 1] == actions;
  }

  /** Thread 1 begins to add bot 5 to a manager that has none, up to the dump. */
  lemma AddOne(actions: seq<Action>, s: System, pair: Pair) returns (more: seq<Action>, s1: System)
    requires s == Interleave(EMPTY, actions) && s.lock.None? && At(s, 1).Idle? && s.bots == {} && s.configs == map[]
    ensures s1 == Interleave(EMPTY, more) && At(s1, 0) == At(s, 0)
    ensures 5 in s1.configs && s1.bots == {5} && s1.deleted == s.deleted && s1.failed == s.failed
    ensures s1.lock == Some(1) && At(s1, 1) == Dumping(Some({5}), {5}, None, map[], s1.clock, {5})
  {
    var legs := map[5 := pair];
    assert 5 in legs && legs.Keys == {5};
    more, s1 := Then(actions, s, BeginAdd(1, legs));
    more, s1 := InsertThenDump(more, s1);
  }

  lemma InsertThenDump(actions: seq<Action>, s: System) returns (more: seq<Action>, s1: System)
    requires s == Interleave(EMPTY, actions) && At(s, 1) == Inserting({5}, false) && s.bots == {}
    ensures s1 == Interleave(EMPTY, more) && At(s1, 0) == At(s, 0) && s1.configs == s.configs && s1.bots == {5}
    ensures s1.deleted == s.deleted && s1.failed == s.failed
    ensures s1.lock == Some(1) && At(s1, 1) == Dumping(Some({5}), {5}, None, map[], s1.clock, {5})
  {
    more, s1 := Then(actions, s, InsertLegs(1));
    assert At(s1, 1) == Inserting({5}, true) && s1.bots == {5} && At(s1, 0) == At(s, 0);
    more, s1 := Then(more, s1, Snapshot(1));
  }

  lemma CopyAll(actions: seq<Action>, s: System) returns (more: seq<Action>, s1: System)
    requires s == Interleave(EMPTY, actions) && At(s, 0).Idle?
    ensures s1 == Interleave(EMPTY, more) && s1 == s.(pcs := s1.pcs)
    ensures At(s1, 0) == Copying(s.bots, true) && At(s1, 1) == At(s, 1)
  {
    hide Interleave, Do;
    more, s1 := Then(actions, s, BeginReorder(0));
    ReorderBegins(s);
    more, s1 := Then(more, s1, CopyRest(0));
    AllCopied(Do(s, BeginReorder(0)));
  }

  lemma ReorderBegins(s: System)
    requires At(s, 0).Idle?
    ensures var s1 := Do(s, BeginReorder(0));
            s1 == s.(pcs := s1.pcs) && At(s1, 0) == Copying({}, false) && At(s1, 1) == At(s, 1)
  {
  }

  lemma AllCopied(s: System)
    requires At(s, 0) == Copying({}, false)
    ensures var s1 := Do(s, CopyRest(0));
            s1 == s.(pcs := s1.pcs) && At(s1, 0) == Copying(s.bots, true) && At(s1, 1) == At(s, 1)
  {
  }

  /** Thread t dumps the row of bot 5. */
  lemma DumpRow(actions: seq<Action>, s: System, t: Tid) returns (more: seq<Action>, s1: System)
    requires s == Interleave(EMPTY, actions) && At(s, t).Dumping? && At(s, t).half.None? && At(s, t).todo == {5} && 5 in s.configs
    ensures s1 == Interleave(EMPTY, more) && s1 == s.(lock := Some(t), pcs := s1.pcs)
    ensures At(s1, t) == Dumping(At(s, t).adding, {}, None, At(s, t).rows[5 := s.configs[5]], At(s, t).stamp, At(s, t).snap)
    ensures t == 1 ==> At(s1, 0) == At(s, 0)
  {
    more, s1 := Then(actions, s, DumpGraph(t, 5));
    assert At(s1, t) == Dumping(At(s, t).adding, At(s, t).todo, Some(Half(5, s.configs[5].graph)), At(s, t).rows, At(s, t).stamp, At(s, t).snap);
    more, s1 := Then(more, s1, DumpRev(t));
  }

  /** A reorder copies, a batch is added and saved, the reorder assigns its copy and saves: the batch
      is gone from memory and disk. */
  lemma ReorderLosesASavedBatch(pair: Pair) returns (actions: seq<Action>, batch: set<Id>)
    ensures var s := Interleave(EMPTY, actions);
            Fresh(EMPTY) && batch in s.batches && s.deleted == {} && batch != {} && batch !! s.bots && batch !! s.disk.Keys
  {
    hide Do;
    var s;
    batch := {5};
    actions, s := CopyAll([], EMPTY);
    actions, s := AddOne(actions, s, pair);
    actions, s := DumpRow(actions, s, 1);
    actions, s := SavedThenAssigned(actions, s);
  }

  lemma SavedThenAssigned(actions: seq<Action>, s: System) returns (more: seq<Action>, s1: System)
    requires s == Interleave(EMPTY, actions) && s.deleted == {} && At(s, 0) == Copying({}, true)
    requires At(s, 1).Dumping? && At(s, 1).adding == Some({5}) && At(s, 1).todo == {} && At(s, 1).half.None?
    ensures s1 == Interleave(EMPTY, more) && {5} in s1.batches && s1.deleted == {} && s1.bots == {} && s1.disk == map[]
  {
    hide Interleave, Do;
    more, s1 := Then(actions, s, Write(1, true));
    BatchWritten(s);
    var saved := s1;
    more, s1 := Then(more, s1, AssignBots(0));
    EmptyAssigned(saved);
    more, s1 := EmptySaved(more, s1);
  }

  lemma BatchWritten(s: System)
    requires At(s, 0) == Copying({}, true) && s.deleted == {}
    requires At(s, 1).Dumping? && At(s, 1).adding == Some({5}) && At(s, 1).todo == {} && At(s, 1).half.None?
    ensures var s1 := Do(s, Write(1, true));
            At(s1, 0) == Copying({}, true) && s1.lock.None? && {5} in s1.batches && s1.deleted == {}
  {
  }

  lemma EmptyAssigned(s: System)
    requires At(s, 0) == Copying({}, true)
    ensures var s1 := Do(s, AssignBots(0));
            At(s1, 0) == Idle && s1.lock == s.lock && s1.batches == s.batches && s1.deleted == s.deleted && s1.bots == {}
  {
  }

  lemma EmptySaved(actions: seq<Action>, s: System) returns (more: seq<Action>, s1: System)
    requires s == Interleave(EMPTY, actions) && At(s, 0).Idle? && s.lock.None? && s.bots == {}
    ensures s1 == Interleave(EMPTY, more) && s1.bots == {} && s1.disk == map[] && s1.deleted == s.deleted
    ensures s1.batches == s.batches
  {
    hide Interleave;
    more, s1 := Then(actions, s, BeginSave(0));
    assert At(s1, 0) == Dumping(None, {}, None, map[], s.clock, {});
    more, s1 := Then(more, s1, Write(0, true));
  }

  /** A batch is added, a reorder copies its leg, the save fails and the leg is popped, the reorder
      assigns its copy and saves: the failed leg is in memory and on disk. */
  lemma ReorderSavesAFailedBatch(pair: Pair) returns (actions: seq<Action>, batch: set<Id>)
    ensures var s := Interleave(EMPTY, actions);
            Fresh(EMPTY) && batch != {} && batch <= s.failed && batch <= s.bots && batch <= s.disk.Keys
  {
    hide Do;
    var s;
    batch := {5};
    actions, s := AddOne([], EMPTY, pair);
    actions, s := CopyAll(actions, s);
    actions, s := DumpRow(actions, s, 1);
    actions, s := FailedThenAssigned(actions, s);
    actions, s := DumpRow(actions, s, 0);
    actions, s := WriteDump(actions, s);
  }

  lemma FailedThenAssigned(actions: seq<Action>, s: System) returns (more: seq<Action>, s1: System)
    requires s == Interleave(EMPTY, actions) && At(s, 0) == Copying({5}, true)
    requires At(s, 1).Dumping? && At(s, 1).adding == Some({5}) && At(s, 1).todo == {} && At(s, 1).half.None?
    ensures s1 == Interleave(EMPTY, more) && s1.failed == s.failed + {5} && s1.bots == {5} && s1.configs == s.configs
    ensures At(s1, 0) == Dumping(None, {5}, None, map[], s1.clock, {5})
  {
    hide Do;
    more, s1 := FailedThenPopped(actions, s);
    more, s1 := AssignThenDump(more, s1);
  }

  lemma FailedThenPopped(actions: seq<Action>, s: System) returns (more: seq<Action>, s1: System)
    requires s == Interleave(EMPTY, actions) && At(s, 0) == Copying({5}, true)
    requires At(s, 1).Dumping? && At(s, 1).adding == Some({5}) && At(s, 1).todo == {} && At(s, 1).half.None?
    ensures s1 == Interleave(EMPTY, more) && At(s1, 0) == Copying({5}, true) && s1.lock.None?
    ensures s1.failed == s.failed + {5} && s1.configs == s.configs
  {
    more, s1 := Then(actions, s, Write(1, false));
    assert At(s1, 0) == Copying({5}, true) && At(s1, 1) == RollingBack({5}, {5}) && s1.failed == s.failed && s1.configs == s.configs;
    more, s1 := Then(more, s1, DropLeg(1, 5));
  }

  lemma AssignThenDump(actions: seq<Action>, s: System) returns (more: seq<Action>, s1: System)
    requires s == Interleave(EMPTY, actions) && At(s, 0) == Copying({5}, true) && s.lock.None?
    ensures s1 == Interleave(EMPTY, more) && s1.failed == s.failed && s1.bots == {5} && s1.configs == s.configs
    ensures At(s1, 0) == Dumping(None, {5}, None, map[], s1.clock, {5})
  {
    more, s1 := Then(actions, s, AssignBots(0));
    more, s1 := Then(more, s1, BeginSave(0));
  }

  lemma WriteDump(actions: seq<Action>, s: System) returns (more: seq<Action>, s1: System)
    requires s == Interleave(EMPTY, actions)
    requires At(s, 0).Dumping? && At(s, 0).adding.None? && At(s, 0).todo == {} && At(s, 0).half.None?
    ensures s1 == Interleave(EMPTY, more) && s1.disk == At(s, 0).rows && s1.failed == s.failed && s1.bots == s.bots
  {
    more, s1 := Then(actions, s, Write(0, true));
  }
}
