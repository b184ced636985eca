/** What a tick must do, the other direction of RunnerInputs: when a bar's tick enters, when it gives a
    missing position up, when it attempts an exit and what becomes of the attempt, and when it flips.
    Each is an if and only if over the state before the tick and what the tick was told. */
module RunnerActs {
  import opened BotTypes
  import opened PriceExits
  import opened ExitLaws
  import opened RunnerSpec
  import opened RunnerInputs
  import opened RunnerTheorems
  import RunnerSafety

  /** A tick that comes to act on a bar: the bar is new, and its signals are known. */
  predicate OnNewBar(c: Config, w: World, i: TickIn, bar: int) {
    && i.fetch == Some(bar) && w.lastBar != Some(bar)
    && if c.graph then !w.codeFailed && (w.compiled || i.compile.Compiles?) && !i.referenceDown && i.cook.Cooked?
       else !i.indicatorsFail
  }

  /** The world a tick acts from. */
  function Ready(c: Config, w: World, bar: int): World {
    Log(w.(raised := false, problem := false, compiled := w.compiled || c.graph, lastBar := Some(bar)), TickBegan)
  }

  lemma TickActs(c: Config, w: World, i: TickIn, bar: int)
    requires OnNewBar(c, w, i, bar) && (i.inHours || w.entryPrice.Some?)
    ensures Tick(c, w, i) == Act(c, Ready(c, w, bar), i, bar, w.lastBar)
  {
    hide Working, Bars, Act, CodeTick;
    var b := Begin(w);
    TickWorks(c, w, i);
    hide Tick;
    var b1 := b.(compiled := w.compiled || c.graph);
    WorksOnBars(c, b, i, b1);
    BarsAct(c, b1, i, bar);
  }

  lemma TickWorks(c: Config, w: World, i: TickIn)
    requires !(c.graph && w.codeFailed) && (i.inHours || w.entryPrice.Some?)
    ensures Tick(c, w, i) == Working(c, Begin(w), i)
  {
    hide Working, CodeTick;
  }

  lemma WorksOnBars(c: Config, w: World, i: TickIn, w1: World)
    requires (c.graph ==> w.compiled || i.compile.Compiles?) && w1 == w.(compiled := w.compiled || c.graph)
    ensures Working(c, w, i) == Bars(c, w1, i)
  {
    hide Bars, CodeTick, EnterCodeFailure;
  }

  lemma BarsAct(c: Config, w: World, i: TickIn, bar: int)
    requires i.fetch == Some(bar) && w.lastBar != Some(bar)
    requires if c.graph then !i.referenceDown && i.cook.Cooked? else !i.indicatorsFail
    ensures Bars(c, w, i) == Act(c, w.(lastBar := Some(bar)), i, bar, w.lastBar)
  {
    hide Act, Manage, ManageAfterFailure, EnterCodeFailure;
  }

  lemma TickOutOfHours(c: Config, w: World, i: TickIn)
    requires !i.inHours && w.entryPrice.None? && !(c.graph && w.codeFailed)
    ensures Tick(c, w, i) == Begin(w)
  {
  }

  // ---- entering ----

  /** The side an entry would go out on. */
  function EntrySide(c: Config, i: TickIn): Side {
    if c.isRegime && i.regimeDir.Some? then i.regimeDir.value else c.direction
  }

  /** The buy signal of a bot that may act on it. */
  predicate Asked(c: Config, i: TickIn) {
    i.inHours && i.buySignal && !i.entryBlocked && (c.isRegime ==> i.regimeDir.Some?)
  }

  /** From a flat bot that had these candidates to skip: it enters exactly when it is asked to with none
      left, a reply leaves room, the spread is right and the order is filled; and how the position starts. */
  predicate EntryLaw(c: Config, i: TickIn, skips: int, w1: World) {
    && w1.skipLeft == (if Asked(c, i) && skips > 0 then skips - 1 else skips)
    && (w1.entryPrice.Some? <==>
          && Asked(c, i) && skips <= 0 && i.entryCheck.Ok? && Room(c, i.entryCheck.positions, EntrySide(c, i))
          && i.spreadOk && i.entry.Filled?)
    && (w1.entryPrice.Some? ==>
          && w1.entryPrice == Some(i.entry.price) && w1.entryTime == Some(i.now) && w1.dir == Some(EntrySide(c, i))
          && w1.barCount == 0 && w1.trailPeak == Some(i.entry.price) && w1.trailStop.None?)
  }

  lemma RoomIsAllowed(c: Config, ps: seq<Position>, side: Side)
    ensures EntryAllowed(c, ps, side) <==> Room(c, ps, side)
  {
    FindIsFirst(ps, c.symbol, None);
    if EntryAllowed(c, ps, side) {
      AllowedHasRoom(c, ps, side);
    } else {
      var p := Find(ps, c.symbol, None).value;
      var n :| 0 <= n < |ps| && ps[n] == p && forall j | 0 <= j < n :: !Suits(ps[j], c.symbol, None);
      assert ps[n].symbol == c.symbol;
      forall j | 0 <= j < n ensures ps[j].symbol != c.symbol { assert !Suits(ps[j], c.symbol, None); }
    }
  }

  lemma TryEntryLaw(c: Config, w: World, i: TickIn)
    requires Flat(w)
    ensures EntryLaw(c, i, w.skipLeft, TryEntry(c, w, i))
  {
    hide EntryAllowed, Room, TryEntry, EnterIfClear;
    TryEntryCases(c, w, i);
    if i.entryCheck.Ok? { RoomIsAllowed(c, i.entryCheck.positions, EntrySide(c, i)); }
    EnterIfClearFields(c, Log(w, CandidatePassed), i, EntrySide(c, i));
    assert !Asked(c, i) || EntryDir(c, i) == Some(EntrySide(c, i));
  }

  lemma EnterIfClearFields(c: Config, w: World, i: TickIn, side: Side)
    requires Flat(w)
    ensures var w1 := EnterIfClear(c, w, i, side);
            var enters := i.entryCheck.Ok? && EntryAllowed(c, i.entryCheck.positions, side) && i.spreadOk && !i.entryBlocked && i.entry.Filled?;
            && w1.skipLeft == w.skipLeft && (!enters ==> w1.entryPrice.None?)
            && (enters ==>
                  && w1.entryPrice == Some(i.entry.price) && w1.entryTime == Some(i.now) && w1.dir == Some(side)
                  && w1.barCount == 0 && w1.trailPeak == Some(i.entry.price) && w1.trailStop.None?)
  {
    hide EntryAllowed;
  }

  // ---- a look at the broker ----

  /** The reply lists a position on the side the bot asks for, or came without one. */
  predicate ShowsOne(c: Config, w: World, i: TickIn) {
    i.check.Ok? && !NoneSuits(i.check.positions, c.symbol, WantedSide(c, w.dir))
  }

  predicate ShowsNone(c: Config, w: World, i: TickIn) {
    i.check.Ok? && NoneSuits(i.check.positions, c.symbol, WantedSide(c, w.dir))
  }

  /** After a reply without the position. */
  function Unseen(c: Config, w: World, i: TickIn): World {
    Log(w.(lastEmpty := i.check.Ok? && i.check.positions == []), Checked(i.check, WantedSide(c, w.dir)))
  }

  lemma LookMisses(c: Config, w: World, i: TickIn)
    requires ShowsNone(c, w, i)
    ensures BrokerPosition(c, w, c.isRegime, i) == Sighting(Unseen(c, w, i), Missing)
  {
    hide CheckSide, WantedSide, NoneSuits, Find;
    WantIs(c, w, c.isRegime);
    FindSuits(i.check.positions, c.symbol, WantedSide(c, w.dir));
  }

  lemma FindSuits(ps: seq<Position>, symbol: string, want: Option<Side>)
    ensures Find(ps, symbol, want).None? <==> NoneSuits(ps, symbol, want)
  {
    FindIsFirst(ps, symbol, want);
  }

  // ---- a flat bot's bar ----

  lemma ActOnNone(c: Config, w: World, i: TickIn, bar: int, prev: Option<int>)
    requires w.entryPrice.None? && ShowsNone(c, w, i) && !(c.isRegime && w.pendingFlip)
    ensures Act(c, w, i, bar, prev) == TryEntry(c, Forget(Unseen(c, w, i)), i)
  {
    hide BrokerPosition, TryEntry, ShowsNone;
    LookMisses(c, w, i);
  }

  /** On a new bar a flat bot that the broker shows no position of enters exactly when it is asked to with
      no candidate left to skip, a reply leaves room, the spread is right and the order is filled. */
  lemma EntersIff(c: Config, w: World, i: TickIn, bar: int)
    requires OnNewBar(c, w, i, bar) && w.entryPrice.None? && ShowsNone(c, w, i) && !(c.isRegime && w.pendingFlip)
    ensures EntryLaw(c, i, w.skipLeft, Tick(c, w, i))
  {
    hide Tick, Act, TryEntry, EntryLaw, Room, ShowsNone;
    if !i.inHours {
      TickOutOfHours(c, w, i);
      IdleEntryLaw(c, w, i);
    } else {
      TickActs(c, w, i, bar);
      ReadyShows(c, w, i, bar);
      var r := Ready(c, w, bar);
      ActOnNone(c, r, i, bar, w.lastBar);
      ForgetIsFlat(Unseen(c, r, i));
      TryEntryLaw(c, Forget(Unseen(c, r, i)), i);
    }
  }

  lemma IdleEntryLaw(c: Config, w: World, i: TickIn)
    requires !i.inHours && w.entryPrice.None?
    ensures EntryLaw(c, i, w.skipLeft, Begin(w))
  {
    hide Room;
  }

  lemma ReadyShows(c: Config, w: World, i: TickIn, bar: int)
    ensures ShowsNone(c, Ready(c, w, bar), i) == ShowsNone(c, w, i) && ShowsOne(c, Ready(c, w, bar), i) == ShowsOne(c, w, i)
  {
    hide NoneSuits;
  }

  // ---- giving a missing position up ----

  /** The order shows that the position was closed: the bot's own pending close, or a closing-side fill
      no more than five seconds before the position's entry. */
  predicate Proves(o: Order, pendingId: Option<int>, since: Option<real>, side: Side) {
    && Closes(o, side)
    && (pendingId == Some(o.id) || (since.Some? && o.filledAt.Some? && since.value - o.filledAt.value <= 5.0))
  }

  predicate ProvesFirst(os: seq<Order>, n: nat, pendingId: Option<int>, since: Option<real>, side: Side)
    requires n < |os|
  {
    Proves(os[n], pendingId, since, side) && forall j | 0 <= j < n :: !Proves(os[j], pendingId, since, side)
  }

  predicate NoneProves(f: FillReply, pendingId: Option<int>, since: Option<real>, side: Side) {
    f.Fills? ==> forall o <- f.orders :: !Proves(o, pendingId, since, side)
  }

  /** The evidence an order gives for the position. */
  predicate IsProof(ev: Evidence, o: Order, w: World) {
    match ev
    case ByOwnOrder(id) => w.pendingId == Some(o.id) && id == o.id
    case ByFill(side, at, since) => w.pendingId != Some(o.id) && side == o.side && o.filledAt == Some(at) && w.entryTime == Some(since)
    case ByTwoReplies => false
  }

  lemma EvidenceIsProof(o: Order, w: World, side: Side)
    ensures var ev := FillEvidence(w.pendingId, w.entryTime, side == Short, o);
            && (ev.Some? <==> Proves(o, w.pendingId, w.entryTime, side))
            && (ev.Some? ==> IsProof(ev.value, o, w))
  {
  }

  /** The order found is the first that proves the close; none is found only when none proves it. */
  lemma {:induction false} ClosingFillIsFirst(w: World, side: Side, os: seq<Order>)
    ensures match ClosingFill(w.pendingId, w.entryTime, side == Short, os)
            case None => NoneProves(Fills(os), w.pendingId, w.entryTime, side)
            case Some(f) => exists n: nat | n < |os| ::
              ProvesFirst(os, n, w.pendingId, w.entryTime, side) && f.order == os[n] && IsProof(f.evidence, os[n], w)
  {
    hide Proves, FillEvidence, IsProof;
    if os != [] {
      EvidenceIsProof(os[0], w, side);
      ClosingFillIsFirst(w, side, os[1..]);
      assert os == [os[0]] + os[1..];
      var found := ClosingFill(w.pendingId, w.entryTime, side == Short, os);
      if Proves(os[0], w.pendingId, w.entryTime, side) {
        assert ProvesFirst(os, 0, w.pendingId, w.entryTime, side);
      } else if found.Some? {
        var n: nat :| n < |os| - 1 && ProvesFirst(os[1..], n, w.pendingId, w.entryTime, side)
                      && found.value.order == os[1..][n] && IsProof(found.value.evidence, os[1..][n], w);
        assert os[n + 1] == os[1..][n];
        forall j | 0 <= j < n + 1 ensures !Proves(os[j], w.pendingId, w.entryTime, side) {
          if j > 0 { assert os[j] == os[1..][j - 1]; }
        }
        assert ProvesFirst(os, n + 1, w.pendingId, w.entryTime, side);
      }
    }
  }

  /** The side the bot holds: its recorded direction, else its own. */
  function Mine(c: Config, w: World): Side {
    match w.dir
    case Some(side) => side
    case None => c.direction
  }

  lemma FindFillIsFirst(c: Config, w: World, i: TickIn)
    ensures match FindFill(c, w, i)
            case None => NoneProves(i.fills, w.pendingId, w.entryTime, Mine(c, w))
            case Some(f) => i.fills.Fills? && exists n: nat | n < |i.fills.orders| ::
              ProvesFirst(i.fills.orders, n, w.pendingId, w.entryTime, Mine(c, w))
              && f.order == i.fills.orders[n] && IsProof(f.evidence, i.fills.orders[n], w)
  {
    hide ClosingFill, Proves, IsProof, ProvesFirst, NoneProves;
    assert IsShort(c, w) == (Mine(c, w) == Short);
    if i.fills.Fills? {
      ClosingFillIsFirst(w, Mine(c, w), i.fills.orders);
    } else {
      NoFillsProve(w, Mine(c, w));
    }
  }

  lemma NoFillsProve(w: World, side: Side)
    ensures NoneProves(NoFills, w.pendingId, w.entryTime, side)
  {
  }

  /** How the close of a position that is gone is booked: from the first order that proves it, for the
      reason its close was sent or what its kind says; else at the bar's price, for an external close. */
  ghost predicate BookedFrom(c: Config, w: World, i: TickIn, ev: Evidence, reason: Reason, qty: real, price: real) {
    if NoneProves(i.fills, w.pendingId, w.entryTime, Mine(c, w)) then
      ev == ByTwoReplies && reason == External && qty == 0.0 && price == i.quote.price
    else
      && i.fills.Fills?
      && exists n: nat | n < |i.fills.orders| ::
           var o := i.fills.orders[n];
           && ProvesFirst(i.fills.orders, n, w.pendingId, w.entryTime, Mine(c, w)) && IsProof(ev, o, w)
           && qty == o.qty && o.avgPrice == Some(price)
           && reason == if w.pendingId == Some(o.id) && w.pendingReason.Some? then w.pendingReason.value else KindReason(o.kind)
  }

  /** The candidates left to skip once an exit is booked. */
  function SkipsAfter(c: Config, skips: int, reason: Reason): int {
    if c.skipOn && Counts(reason, c.skipTrigger) then c.skipCount else skips
  }

  lemma FoundIsFirst(os: seq<Order>, n: nat, pendingId: Option<int>, since: Option<real>, side: Side)
    requires n < |os| && ProvesFirst(os, n, pendingId, since, side)
    ensures !NoneProves(Fills(os), pendingId, since, side) && os[n].avgPrice.Some?
  {
    assert os[n] in os;
  }

  /** The missing position is given up: an order proves it closed, or this is the second reply that
      lists other positions. */
  predicate SeenGone(c: Config, w: World, i: TickIn) {
    || !NoneProves(i.fills, w.pendingId, w.entryTime, Mine(c, w))
    || (i.check.Ok? && i.check.positions != [] && w.missing >= 1)
  }

  /** The world once the booking is made. */
  lemma ExternalBooking(c: Config, w: World, w1: World, i: TickIn)
    requires w1 == w.(missing := w1.missing, lastEmpty := w1.lastEmpty, history := w1.history)
    ensures var found := FindFill(c, w, i);
            var b := BookExternal(c, w1, found, i);
            && b.history.Then? && b.history.past == w1.history && b.history.last.Booked? && b.history.last.kind == ExternalClose
            && BookedFrom(c, w, i, EvidenceOf(found), b.history.last.reason, b.history.last.qty, b.history.last.price)
            && b.skipLeft == SkipsAfter(c, w.skipLeft, b.history.last.reason)
  {
    hide FindFill, Proves, ProvesFirst, NoneProves, IsProof;
    FindFillIsFirst(c, w, i);
    var found := FindFill(c, w, i);
    if found.Some? {
      var n: nat :| n < |i.fills.orders| && ProvesFirst(i.fills.orders, n, w.pendingId, w.entryTime, Mine(c, w))
                    && found.value.order == i.fills.orders[n] && IsProof(found.value.evidence, i.fills.orders[n], w);
      FoundIsFirst(i.fills.orders, n, w.pendingId, w.entryTime, Mine(c, w));
      assert i.fills == Fills(i.fills.orders);
    }
    BookExternalEvent(c, w1, found, i);
    BookExternalSkips(c, w1, found, i);
    hide BookExternal;
  }

  lemma BookExternalSkips(c: Config, w: World, found: Option<Found>, i: TickIn)
    ensures var b := BookExternal(c, w, found, i);
            b.history.Then? && b.history.last.Booked? && b.skipLeft == SkipsAfter(c, w.skipLeft, b.history.last.reason)
  {
    hide ExternalReason;
  }

  /** The tick waits for another reply: the position stays tracked, and its bar is looked at again. */
  predicate Waits(w: World, w1: World, i: TickIn) {
    && w1.entryPrice == w.entryPrice && w1.lastBar == w.lastBar && w1.raised
    && w1.missing == w.missing + if i.check.Ok? && i.check.positions == [] then 0 else 1
  }

  /** Given up: confirmed and booked right after the reply at h, and then flat; a new entry may follow. */
  ghost predicate GivesUpAt(c: Config, w: World, i: TickIn, h: History, w1: World) {
    exists ev, reason, qty, price ::
      && BookedFrom(c, w, i, ev, reason, qty, price)
      && Within(Then(Then(h, Gone(ev)), Booked(ExternalClose, reason, qty, price)), w1.history)
      && if i.drawdown then w1.paused && w1.entryPrice.None?
         else EntryLaw(c, i, SkipsAfter(c, w.skipLeft, reason), w1)
  }

  lemma EnterAppends(c: Config, w: World, i: TickIn)
    ensures Within(w.history, TryEntry(c, w, i).history)
  {
    hide TryEntry, EnterIfClear, Within;
    TryEntryCases(c, w, i);
    WithinTwo(w.history, CandidateSkipped, CandidateSkipped);
    if EntryDir(c, i).Some? { ClearAppends(c, w, i, EntryDir(c, i).value); }
  }

  lemma ClearAppends(c: Config, w: World, i: TickIn, side: Side)
    ensures Within(w.history, EnterIfClear(c, Log(w, CandidatePassed), i, side).history)
  {
    hide Within, EntryAllowed;
    var h := EnterIfClear(c, Log(w, CandidatePassed), i, side).history;
    WithinTwo(w.history, CandidatePassed, h.last);
  }

  lemma WithinTwo(h: History, a: Event, b: Event)
    ensures Within(h, h) && Within(h, Then(h, a)) && Within(h, Then(Then(h, a), b))
  {
    assert Within(h, h);
    assert Within(h, Then(h, a));
  }

  /** What ConfirmGone decides on the reply. */
  lemma ConfirmIff(c: Config, w: World, i: TickIn)
    requires w.missing <= 1 && i.check.Ok? && w.lastEmpty == (i.check.positions == [])
    ensures var found, a := FindFill(c, w, i), ConfirmGone(w, FindFill(c, w, i));
            && (a.yes <==> SeenGone(c, w, i))
            && (a.yes ==> a.w == w.(missing := 0, history := Then(w.history, Gone(EvidenceOf(found)))))
            && (!a.yes ==> a.w == w.(missing := w.missing + if i.check.positions == [] then 0 else 1))
  {
    hide FindFill, Proves, ProvesFirst, NoneProves, IsProof;
    FindFillIsFirst(c, w, i);
    var found := FindFill(c, w, i);
    if found.Some? {
      var n: nat :| n < |i.fills.orders| && ProvesFirst(i.fills.orders, n, w.pendingId, w.entryTime, Mine(c, w))
                    && found.value.order == i.fills.orders[n] && IsProof(found.value.evidence, i.fills.orders[n], w);
      FoundIsFirst(i.fills.orders, n, w.pendingId, w.entryTime, Mine(c, w));
      assert i.fills == Fills(i.fills.orders);
    }
  }

  lemma NoPositionGivesUp(c: Config, w: World, w1: World, i: TickIn)
    requires w.entryPrice.Some? && w1 == w.(missing := w1.missing, lastEmpty := w1.lastEmpty, history := w1.history)
    requires w1.history.Then? && w1.history.last == Gone(EvidenceOf(FindFill(c, w, i)))
    ensures GivesUpAt(c, w, i, w1.history.past, NoPosition(c, w1, i, FindFill(c, w, i)))
  {
    hide FindFill, BookedFrom, EntryLaw, BookExternal, TryEntry, Forget, SkipsAfter;
    var found := FindFill(c, w, i);
    ExternalBooking(c, w, w1, i);
    var b := BookExternal(c, w1, found, i);
    var e := b.history.last;
    ForgetIsFlat(b);
    ForgetSkips(b);
    if !i.drawdown {
      TryEntryLaw(c, Forget(b), i);
      EnterAppends(c, Forget(b), i);
    }
    assert b.history == Then(w1.history, e) && w1.history == Then(w1.history.past, w1.history.last);
    assert e == Booked(ExternalClose, e.reason, e.qty, e.price);
    assert BookedFrom(c, w, i, EvidenceOf(found), e.reason, e.qty, e.price);
  }

  lemma ForgetSkips(w: World)
    ensures Forget(w).skipLeft == w.skipLeft && Forget(w).entryPrice.None?
  {
  }

  lemma ActOnMissing(c: Config, w: World, i: TickIn, bar: int, prev: Option<int>)
    requires w.entryPrice.Some? && ShowsNone(c, w, i) && w.missing <= 1 && !(c.isRegime && w.pendingFlip)
    ensures var w1 := Act(c, w, i, bar, prev);
            && (!SeenGone(c, w, i) ==> Waits(w.(lastBar := prev), w1, i))
            && (SeenGone(c, w, i) ==> GivesUpAt(c, w, i, Unseen(c, w, i).history, w1))
  {
    hide Act, ShowsNone, SeenGone, GivesUpAt, NoPosition, ConfirmGone, FindFill, Waits, Unseen;
    ActOnMissingIs(c, w, i, bar, prev);
    ShowsNoneIs(c, w, i);
    var u := Unseen(c, w, i);
    UnseenSame(c, w, i);
    ConfirmIff(c, u, i);
    var gone := ConfirmGone(u, FindFill(c, u, i));
    if gone.yes {
      GoneFrom(c, w, u, gone.w, i);
      NoPositionGivesUp(c, w, gone.w, i);
    } else {
      WaitsIs(w, u, gone.w, i, prev);
    }
  }

  lemma GoneFrom(c: Config, w: World, u: World, g: World, i: TickIn)
    requires u == Unseen(c, w, i) && g == u.(missing := 0, history := Then(u.history, Gone(EvidenceOf(FindFill(c, u, i)))))
    ensures g == w.(missing := g.missing, lastEmpty := g.lastEmpty, history := g.history)
    ensures g.history.Then? && g.history.past == u.history && g.history.last == Gone(EvidenceOf(FindFill(c, u, i)))
  {
    hide FindFill;
  }

  lemma WaitsIs(w: World, u: World, g: World, i: TickIn, prev: Option<int>)
    requires u == w.(lastEmpty := u.lastEmpty, history := u.history) && i.check.Ok?
    requires g == u.(missing := u.missing + if i.check.positions == [] then 0 else 1)
    ensures Waits(w.(lastBar := prev), g.(lastBar := prev, raised := true), i)
  {
  }

  lemma ActOnMissingIs(c: Config, w: World, i: TickIn, bar: int, prev: Option<int>)
    requires w.entryPrice.Some? && ShowsNone(c, w, i) && !(c.isRegime && w.pendingFlip)
    ensures var u := Unseen(c, w, i);
            var found := FindFill(c, u, i);
            var gone := ConfirmGone(u, found);
            && (gone.yes ==> Act(c, w, i, bar, prev) == NoPosition(c, gone.w, i, found))
            && (!gone.yes ==> Act(c, w, i, bar, prev) == gone.w.(lastBar := prev, raised := true))
  {
    hide BrokerPosition, ShowsNone, NoPosition, FindFill, ActMissing;
    LookMisses(c, w, i);
    var u := Unseen(c, w, i);
    assert Act(c, w, i, bar, prev) == ActMissing(c, u, i, prev);
    ActMissingIs(c, u, i, prev);
  }

  lemma ActMissingIs(c: Config, w: World, i: TickIn, prev: Option<int>)
    requires w.entryPrice.Some? && !(c.isRegime && w.pendingFlip)
    ensures var found := FindFill(c, w, i);
            var gone := ConfirmGone(w, found);
            && (gone.yes ==> ActMissing(c, w, i, prev) == NoPosition(c, gone.w, i, found))
            && (!gone.yes ==> ActMissing(c, w, i, prev) == gone.w.(lastBar := prev, raised := true))
  {
    hide NoPosition, FindFill, ConfirmGone, CleanPendingFlip;
    ConfirmKeepsFlip(w, FindFill(c, w, i));
  }

  lemma ConfirmKeepsFlip(w: World, found: Option<Found>)
    ensures ConfirmGone(w, found).w.pendingFlip == w.pendingFlip
  {
    ConfirmGoneAlso(w, found);
    hide ConfirmGone;
  }

  lemma ShowsNoneIs(c: Config, w: World, i: TickIn)
    requires ShowsNone(c, w, i)
    ensures i.check.Ok?
  {
  }

  lemma UnseenSame(c: Config, w: World, i: TickIn)
    ensures var u := Unseen(c, w, i);
            && FindFill(c, u, i) == FindFill(c, w, i) && SeenGone(c, u, i) == SeenGone(c, w, i)
            && u == w.(lastEmpty := u.lastEmpty, history := u.history) && u.missing == w.missing
            && (i.check.Ok? ==> u.lastEmpty == (i.check.positions == []))
  {
    hide LookUp, NoneProves;
  }

  /** On a new bar a tracked position that a reply does not show is given up exactly when an order proves
      it closed or this is the second such reply that lists other positions; else the bar waits. */
  lemma GivenUpIff(c: Config, w: World, i: TickIn, bar: int)
    requires OnNewBar(c, w, i, bar) && w.entryPrice.Some? && ShowsNone(c, w, i) && w.missing <= 1 && !(c.isRegime && w.pendingFlip)
    ensures var w1 := Tick(c, w, i);
            && (!SeenGone(c, w, i) ==> Waits(w, w1, i))
            && (SeenGone(c, w, i) ==> GivesUpAt(c, w, i, Unseen(c, Ready(c, w, bar), i).history, w1))
  {
    hide Tick, Act, ShowsNone, Unseen, SeenGone, GivesUpAt;
    TickActs(c, w, i, bar);
    ReadyShows(c, w, i, bar);
    ReadySame(c, w, i, bar, Unseen(c, Ready(c, w, bar), i).history, Tick(c, w, i));
    ActOnMissing(c, Ready(c, w, bar), i, bar, w.lastBar);
  }

  lemma ReadySame(c: Config, w: World, i: TickIn, bar: int, h: History, w1: World)
    ensures var r := Ready(c, w, bar);
            SeenGone(c, r, i) == SeenGone(c, w, i) && GivesUpAt(c, r, i, h, w1) == GivesUpAt(c, w, i, h, w1)
  {
    hide NoneProves, EntryLaw, SkipsAfter;
    var r := Ready(c, w, bar);
    forall ev, reason, qty, price
      ensures BookedFrom(c, r, i, ev, reason, qty, price) == BookedFrom(c, w, i, ev, reason, qty, price)
    {
      BookedSame(c, w, r, i, ev, reason, qty, price);
    }
  }

  lemma BookedSame(c: Config, w: World, r: World, i: TickIn, ev: Evidence, reason: Reason, qty: real, price: real)
    requires r.pendingId == w.pendingId && r.pendingReason == w.pendingReason && r.entryTime == w.entryTime && r.dir == w.dir
    ensures BookedFrom(c, r, i, ev, reason, qty, price) == BookedFrom(c, w, i, ev, reason, qty, price)
  {
    hide NoneProves, ProvesFirst;
  }

  // ---- an exit attempt ----

  predicate ShowsSide(r: Reply, symbol: string, side: Side) {
    r.Ok? && exists p <- r.positions :: p.symbol == symbol && p.side == side
  }

  /** Poll n is the one that no longer shows the side, and every one before, from poll k on, did. */
  predicate ClearsAt(post: seq<Reply>, symbol: string, side: Side, k: nat, n: nat) {
    && k <= n < 6 && n < |post| && post[n].Ok? && !ShowsSide(post[n], symbol, side)
    && forall m | k <= m < n :: ShowsSide(post[m], symbol, side)
  }

  predicate Clears(post: seq<Reply>, symbol: string, side: Side, k: nat) {
    exists n: nat | n < 6 :: ClearsAt(post, symbol, side, k, n)
  }

  /** The polls after a close end with the position gone exactly when one of six comes without it, and all
      before it with it. */
  lemma {:induction false} PollIff(c: Config, h: History, side: Side, post: seq<Reply>, k: nat)
    requires k <= POLLS
    ensures Poll(c, h, Some(side), post, k).result == Cleared <==> Clears(post, c.symbol, side, k)
    decreases POLLS - k
  {
    hide ShowsSide;
    if k < POLLS {
      var reply := if k < |post| then post[k] else Unavailable;
      var asked := Then(h, PolledAfterClose(reply, Some(side)));
      PollIff(c, asked, side, post, k + 1);
      ShowsIs(reply, c.symbol, side);
      if ShowsSide(reply, c.symbol, side) {
        ClearsLater(post, c.symbol, side, k);
      } else {
        ClearsNow(post, c.symbol, side, k);
      }
    }
  }

  lemma ShowsIs(r: Reply, symbol: string, side: Side)
    ensures ShowsSide(r, symbol, side) <==> r.Ok? && Lists(r.positions, symbol, Some(side))
  {
  }

  lemma ClearsLater(post: seq<Reply>, symbol: string, side: Side, k: nat)
    requires k < 6 && k < |post| && ShowsSide(post[k], symbol, side)
    ensures Clears(post, symbol, side, k) <==> Clears(post, symbol, side, k + 1)
  {
    hide ShowsSide;
    if Clears(post, symbol, side, k) {
      var n: nat :| n < 6 && ClearsAt(post, symbol, side, k, n);
      assert ClearsAt(post, symbol, side, k + 1, n);
    }
    if Clears(post, symbol, side, k + 1) {
      var n: nat :| n < 6 && ClearsAt(post, symbol, side, k + 1, n);
      assert ClearsAt(post, symbol, side, k, n);
    }
  }

  lemma ClearsNow(post: seq<Reply>, symbol: string, side: Side, k: nat)
    requires k < 6 && (k < |post| ==> !ShowsSide(post[k], symbol, side))
    ensures Clears(post, symbol, side, k) <==> k < |post| && post[k].Ok?
  {
    hide ShowsSide;
    if Clears(post, symbol, side, k) {
      var n: nat :| n < 6 && ClearsAt(post, symbol, side, k, n);
      assert n == k;
    }
    if k < |post| && post[k].Ok? { assert ClearsAt(post, symbol, side, k, k); }
  }

  /** The first position a reply lists on the symbol is on the side. */
  predicate FirstOn(r: Reply, symbol: string, side: Side) {
    r.Ok? && exists p <- r.positions :: IsFirst(r.positions, symbol, None, p) && p.side == side
  }

  /** The symbol's first position is on the tracked side, the close is accepted and the polls show it
      closed. */
  predicate ClosesNow(c: Config, i: TickIn, side: Side) {
    FirstOn(i.verify, c.symbol, side) && i.close.Accepted? && Clears(i.post, c.symbol, side, 0)
  }

  /** What becomes of a position held on the side when its exit is attempted for the reason. */
  predicate Outcomes(c: Config, i: TickIn, w: World, side: Side, reason: Reason, w1: World) {
    && (w1.entryPrice == w.entryPrice || w1.entryPrice.None?)
    && (w1.entryPrice.None? <==> ClosesNow(c, i, side) || FirstOn(i.verify, c.symbol, Opposite(side)))
    && (w1.outcome == Some(NotSent) <==> !i.verify.Ok? || NoneSuits(i.verify.positions, c.symbol, None))
    && (w1.outcome == Some(CloseFailed) <==> FirstOn(i.verify, c.symbol, side) && i.close.Refused?)
    && (w1.outcome == Some(Sent) <==> FirstOn(i.verify, c.symbol, side) && i.close.Accepted? && !ClosesNow(c, i, side))
    && (w1.outcome == Some(Sent) ==> w1.pendingId == Some(i.close.id) && w1.pendingReason == Some(reason))
    && (ClosesNow(c, i, side) ==> w1.skipLeft == SkipsAfter(c, w.skipLeft, reason) && w1.pendingId.None?)
    && (!ClosesNow(c, i, side) ==> w1.skipLeft == w.skipLeft)
  }

  /** ... with its booking last, and a pause when the drawdown limit is met. */
  predicate AttemptLaw(c: Config, i: TickIn, w: World, side: Side, reason: Reason, w1: World) {
    && Outcomes(c, i, w, side, reason, w1)
    && (ClosesNow(c, i, side) ==>
          && w1.history.Then? && w1.history.last.Booked? && w1.history.last.reason == reason && w1.history.last.kind == OwnClose
          && w1.history.last.price == i.exitFill && w1.paused == (w.paused || i.drawdown))
    && (!ClosesNow(c, i, side) ==> w1.paused == w.paused)
  }

  lemma TrackedIsMine(c: Config, w: World)
    ensures TrackedSide(c, w) == Mine(c, w)
  {
  }

  lemma FirstOnIs(r: Reply, symbol: string, side: Side)
    ensures var check := ReadReply(r, symbol, None);
            && (check.Listed? && check.p.side == side <==> FirstOn(r, symbol, side))
            && (!check.Listed? <==> !r.Ok? || NoneSuits(r.positions, symbol, None))
  {
    if r.Ok? {
      FindIsFirst(r.positions, symbol, None);
      forall p <- r.positions | IsFirst(r.positions, symbol, None, p) ensures Find(r.positions, symbol, None) == Some(p) {
        OneFirst(r.positions, symbol, p, Find(r.positions, symbol, None).value);
      }
    }
  }

  lemma OneFirst(ps: seq<Position>, symbol: string, p: Position, q: Position)
    requires IsFirst(ps, symbol, None, p) && IsFirst(ps, symbol, None, q)
    ensures p == q
  {
    var n :| 0 <= n < |ps| && ps[n] == p && forall j | 0 <= j < n :: !Suits(ps[j], symbol, None);
    var m :| 0 <= m < |ps| && ps[m] == q && forall j | 0 <= j < m :: !Suits(ps[j], symbol, None);
    assert !(n < m) && !(m < n);
  }

  lemma FinishExitFields(c: Config, w: World, i: TickIn, reason: Reason, qty: real)
    ensures var w1 := FinishExit(c, w, i, reason, qty);
            && w1.entryPrice.None? && w1.outcome == Some(Closed) && w1.pendingId.None?
            && w1.history == Then(w.history, Booked(OwnClose, reason, qty, i.exitFill))
            && w1.paused == (w.paused || i.drawdown) && w1.skipLeft == SkipsAfter(c, w.skipLeft, reason)
  {
  }

  lemma CloseAndBookFields(c: Config, w: World, i: TickIn, bar: int, reason: Reason, qty: real)
    requires w.entryPrice.Some?
    ensures var w1 := CloseAndBook(c, w, i, bar, reason, qty);
            var gone := i.close.Accepted? && Clears(i.post, c.symbol, Mine(c, w), 0);
            && (i.close.Refused? ==> w1.entryPrice == w.entryPrice && w1.outcome == Some(CloseFailed) && w1.paused == w.paused && w1.skipLeft == w.skipLeft)
            && (i.close.Accepted? && !gone ==>
                  && w1.entryPrice == w.entryPrice && w1.outcome == Some(Sent) && w1.paused == w.paused && w1.skipLeft == w.skipLeft
                  && w1.pendingId == Some(i.close.id) && w1.pendingReason == Some(reason))
            && (gone ==>
                  && w1.entryPrice.None? && w1.outcome == Some(Closed) && w1.pendingId.None?
                  && w1.history.Then? && w1.history.last == Booked(OwnClose, reason, qty, i.exitFill)
                  && w1.paused == (w.paused || i.drawdown) && w1.skipLeft == SkipsAfter(c, w.skipLeft, reason))
  {
    hide Poll, Clears, FinishExit, TrackedSide, SkipsAfter;
    TrackedIsMine(c, w);
    if i.close.Accepted? {
      var id := i.close.id;
      PollIff(c, Then(w.history, CloseAccepted(bar, reason, Some(Mine(c, w)), id)), Mine(c, w), i.post, 0);
      var polled := PollAfter(c, w, i, bar, reason, Some(TrackedSide(c, w)), id);
      var sent := w.(outcome := Some(Sent), pendingId := Some(id), pendingReason := Some(reason), history := polled.h);
      FinishExitFields(c, sent, i, reason, qty);
    }
  }

  /** An attempted exit obeys the law of attempts. */
  lemma ExecuteExitLaw(c: Config, w: World, i: TickIn, bar: int, reason: Reason)
    requires w.entryPrice.Some?
    ensures AttemptLaw(c, i, w, Mine(c, w), reason, ExecuteExit(c, w, i, bar, reason))
  {
    hide AttemptLaw, ReadReply, ExitSeen;
    TrackedIsMine(c, w);
    var asked := Log(w, AskedAtExit(i.verify, TrackedSide(c, w), reason, bar));
    ExitSeenLaw(c, asked, i, ReadReply(i.verify, c.symbol, None), bar, reason);
    LoggedLaw(c, i, w, asked, Mine(c, w), reason, ExecuteExit(c, w, i, bar, reason));
  }

  lemma LoggedLaw(c: Config, i: TickIn, w: World, asked: World, side: Side, reason: Reason, w1: World)
    requires asked.entryPrice == w.entryPrice && asked.paused == w.paused && asked.skipLeft == w.skipLeft
    ensures AttemptLaw(c, i, asked, side, reason, w1) == AttemptLaw(c, i, w, side, reason, w1)
  {
    hide ClosesNow, FirstOn, NoneSuits, SkipsAfter;
  }

  lemma ExitSeenLaw(c: Config, w: World, i: TickIn, check: Check, bar: int, reason: Reason)
    requires w.entryPrice.Some? && check == ReadReply(i.verify, c.symbol, None)
    ensures AttemptLaw(c, i, w, Mine(c, w), reason, ExitSeen(c, w, check, i, bar, reason))
  {
    hide Clears, FirstOn, ReadReply, CloseAndBook, ClearOtherSide, NoneSuits, SkipsAfter, Abs, TrackedSide;
    TrackedIsMine(c, w);
    FirstOnIs(i.verify, c.symbol, Mine(c, w));
    FirstOnIs(i.verify, c.symbol, Opposite(Mine(c, w)));
    ClearedFields(w);
    if check.Listed? { CloseAndBookFields(c, w, i, bar, reason, Abs(check.p.qty)); }
  }

  lemma ClearedFields(w: World)
    ensures var w1 := ClearOtherSide(w);
            w1.entryPrice.None? && w1.outcome == Some(Closed) && w1.paused == w.paused && w1.skipLeft == w.skipLeft
  {
  }

  // ---- a held position's bar ----

  function HoldOf(w: World): Hold
    requires w.entryPrice.Some?
  {
    Hold(w.entryPrice.value, w.barCount, w.trailPeak, w.trailStop)
  }

  /** What a bar makes of the hold, and the exit it finds: by the law, or for a bar counted before what was
      found then. */
  ghost predicate BarFinds(c: Config, w: World, i: TickIn, bar: int, hold: Hold, due: Option<Reason>)
    requires w.entryPrice.Some?
  {
    if w.exitsBar == Some(bar) then hold == HoldOf(w) && due == w.exitsReason
    else
      var short := Mine(c, w) == Short;
      exists r: Rules ::
        InForce(i.settings, w.dir, r) && BarLaw(HoldOf(w), hold, r, short, i.quote) && ExitLaw(hold, r, short, i.quote.price, due)
  }

  lemma EvaluateFound(c: Config, w: World, i: TickIn, bar: int)
    requires w.entryPrice.Some? && w.exitsBar != Some(bar)
    ensures var ran := Evaluate(c, w, i, bar);
            && ran.w == w.(barCount := ran.w.barCount, trailPeak := ran.w.trailPeak, trailStop := ran.w.trailStop, history := ran.w.history)
            && ran.w.entryPrice == w.entryPrice && BarFinds(c, w, i, bar, HoldOf(ran.w), ran.due)
  {
    hide Advance, Due, Resolve, ExitLaw, BarLaw, InForce, IsShort;
    assert IsShort(c, w) == (Mine(c, w) == Short) by { MineIsShort(c, w); }
    var rules := Resolve(i.settings, w.dir);
    var short := IsShort(c, w);
    ResolveInForce(i.settings, w.dir);
    var h := Advance(HoldOf(w), rules, short, i.quote);
    AdvanceByLaw(HoldOf(w), rules, short, i.quote);
    DueByLaw(h, rules, short, i.quote.price);
    assert BarLaw(HoldOf(w), h, rules, short, i.quote);
    assert h.entry == HoldOf(w).entry by { BarKeepsEntry(HoldOf(w), h, rules, short, i.quote); }
    assert HoldOf(Evaluate(c, w, i, bar).w) == h;
  }

  lemma MineIsShort(c: Config, w: World)
    ensures IsShort(c, w) == (Mine(c, w) == Short)
  {
  }

  lemma BarKeepsEntry(h: Hold, h1: Hold, r: Rules, short: bool, q: Quote)
    requires BarLaw(h, h1, r, short, q)
    ensures h1.entry == h.entry
  {
  }

  /** The bar's exits of a position a reply shows: none, or an attempt, whose bar is done unless the exit
      could not be sent. */
  predicate Exits(c: Config, i: TickIn, w: World, bar: int, hold: Hold, why: Option<Reason>, w1: World) {
    && (w1.entryPrice.Some? ==> w1.entryPrice == w.entryPrice && HoldOf(w1) == hold)
    && match why
       case None => w1.entryPrice == w.entryPrice && w1.lastBar == Some(bar) && !w1.raised
       case Some(reason) =>
         && AttemptLaw(c, i, w, Mine(c, w), reason, w1)
         && if w1.outcome == Some(NotSent) then w1.exitsBar == Some(bar) && w1.exitsReason == why && w1.lastBar == w.lastBar && w1.raised
            else w1.lastBar == Some(bar) && !w1.raised
  }

  /** The exit found, else the sell signal. */
  function WithSignal(i: TickIn, due: Option<Reason>): Option<Reason> {
    if due.None? && i.sellSignal then Some(Signal) else due
  }

  lemma ExitDueFound(c: Config, w: World, i: TickIn, bar: int)
    requires w.entryPrice.Some?
    ensures var ran := ExitDue(c, w, i, bar);
            && ran.w == w.(barCount := ran.w.barCount, trailPeak := ran.w.trailPeak, trailStop := ran.w.trailStop, history := ran.w.history)
            && ran.w.entryPrice == w.entryPrice
            && exists due :: BarFinds(c, w, i, bar, HoldOf(ran.w), due) && ran.due == WithSignal(i, due)
  {
    hide Evaluate;
    if w.exitsBar != Some(bar) {
      EvaluateFound(c, w, i, bar);
      assert BarFinds(c, w, i, bar, HoldOf(Evaluate(c, w, i, bar).w), Evaluate(c, w, i, bar).due);
    } else {
      assert BarFinds(c, w, i, bar, HoldOf(w), w.exitsReason);
    }
  }

  /** An attempt leaves the hold and the marks of a position that stays. */
  lemma AttemptKeeps(c: Config, w: World, i: TickIn, bar: int, reason: Reason)
    requires w.entryPrice.Some?
    ensures Leaves(w, ExecuteExit(c, w, i, bar, reason))
  {
    hide ReadReply, ExitSeen, Leaves;
    var asked := Log(w, AskedAtExit(i.verify, TrackedSide(c, w), reason, bar));
    LogLeaves(w, asked.history.last, ExecuteExit(c, w, i, bar, reason));
    ExitSeenLeaves(c, asked, i, ReadReply(i.verify, c.symbol, None), bar, reason);
  }

  lemma LogLeaves(w: World, e: Event, w1: World)
    requires w.entryPrice.Some?
    ensures Leaves(Log(w, e), w1) == Leaves(w, w1)
  {
  }

  lemma ExitSeenLeaves(c: Config, w: World, i: TickIn, check: Check, bar: int, reason: Reason)
    requires w.entryPrice.Some?
    ensures Leaves(w, ExitSeen(c, w, check, i, bar, reason))
  {
    hide TrackedSide, Abs, CloseAndBook, ClearOtherSide;
    ClearLeaves(w);
    if check.Listed? { CloseLeaves(c, w, i, bar, reason, Abs(check.p.qty)); }
  }

  /** The marks are as before, and the hold of a position that stays. */
  predicate Leaves(w: World, w1: World)
    requires w.entryPrice.Some?
  {
    && w1.lastBar == w.lastBar && w1.raised == w.raised && w1.exitsBar == w.exitsBar && w1.exitsReason == w.exitsReason
    && w1.problem == w.problem && w1.problemBar == w.problemBar
    && (w1.entryPrice.Some? ==> w1.entryPrice == w.entryPrice && HoldOf(w1) == HoldOf(w))
  }

  lemma ClearLeaves(w: World)
    requires w.entryPrice.Some?
    ensures Leaves(w, ClearOtherSide(w))
  {
  }

  lemma CloseLeaves(c: Config, w: World, i: TickIn, bar: int, reason: Reason, qty: real)
    requires w.entryPrice.Some?
    ensures Leaves(w, CloseAndBook(c, w, i, bar, reason, qty))
  {
    hide PollAfter, TrackedSide, FinishExit;
    if i.close.Accepted? {
      var id := i.close.id;
      var polled := PollAfter(c, w, i, bar, reason, Some(TrackedSide(c, w)), id);
      FinishLeaves(c, w.(outcome := Some(Sent), pendingId := Some(id), pendingReason := Some(reason), history := polled.h), i, reason, qty);
    }
  }

  lemma FinishLeaves(c: Config, w: World, i: TickIn, reason: Reason, qty: real)
    requires w.entryPrice.Some?
    ensures Leaves(w, FinishExit(c, w, i, reason, qty))
  {
    hide Triggers;
  }

  lemma HeldExitsLaw(c: Config, w: World, i: TickIn, bar: int, prev: Option<int>)
    requires w.entryPrice.Some? && w.lastBar == Some(bar) && !w.raised
    ensures exists hold, due ::
              BarFinds(c, w, i, bar, hold, due) && Exits(c, i, w.(lastBar := prev), bar, hold, WithSignal(i, due), HeldExits(c, w, i, bar, prev))
  {
    hide ExitDue, ExecuteExit, BarFinds, AttemptLaw, HeldExits, WithSignal, Exits;
    ExitDueFound(c, w, i, bar);
    HeldExitsIs(c, w, i, bar, prev);
    var ran := ExitDue(c, w, i, bar);
    var due :| BarFinds(c, w, i, bar, HoldOf(ran.w), due) && ran.due == WithSignal(i, due);
    if ran.due.Some? {
      var ready := ran.w.(outcome := None);
      var tried := ExecuteExit(c, ready, i, bar, ran.due.value);
      ExecuteExitLaw(c, ready, i, bar, ran.due.value);
      AttemptKeeps(c, ready, i, bar, ran.due.value);
      AttemptExits(c, i, w, ready, bar, ran.due.value, prev, tried, HeldExits(c, w, i, bar, prev));
    } else {
      NoExits(c, i, w, ran.w, bar, prev);
    }
  }

  lemma HeldExitsIs(c: Config, w: World, i: TickIn, bar: int, prev: Option<int>)
    ensures var ran := ExitDue(c, w, i, bar);
            && (ran.due.None? ==> HeldExits(c, w, i, bar, prev) == ran.w)
            && (ran.due.Some? ==> HeldExits(c, w, i, bar, prev)
                                  == KeepUnsent(ExecuteExit(c, ran.w.(outcome := None), i, bar, ran.due.value), bar, ran.due.value, prev))
  {
    hide ExitDue, ExecuteExit;
  }

  /** An exit that could not be sent is kept for its bar. */
  function KeepUnsent(w: World, bar: int, reason: Reason, prev: Option<int>): World {
    if w.entryPrice.Some? && w.outcome == Some(NotSent)
    then w.(exitsBar := Some(bar), exitsReason := Some(reason), lastBar := prev, raised := true) else w
  }

  lemma NoExits(c: Config, i: TickIn, w: World, ran: World, bar: int, prev: Option<int>)
    requires w.entryPrice.Some? && w.lastBar == Some(bar) && !w.raised && ran.entryPrice == w.entryPrice
    requires ran == w.(barCount := ran.barCount, trailPeak := ran.trailPeak, trailStop := ran.trailStop, history := ran.history)
    ensures Exits(c, i, w.(lastBar := prev), bar, HoldOf(ran), None, ran)
  {
  }

  lemma AttemptExits(c: Config, i: TickIn, w: World, ready: World, bar: int, reason: Reason, prev: Option<int>, tried: World, w1: World)
    requires w.entryPrice.Some? && ready.lastBar == Some(bar) && !ready.raised && ready.entryPrice == w.entryPrice
    requires ready.paused == w.paused && ready.skipLeft == w.skipLeft && ready.dir == w.dir
    requires AttemptLaw(c, i, ready, Mine(c, ready), reason, tried) && Leaves(ready, tried) && w1 == KeepUnsent(tried, bar, reason, prev)
    ensures Exits(c, i, w.(lastBar := prev), bar, HoldOf(ready), Some(reason), w1)
  {
    hide AttemptLaw, KeepUnsent, SameAttempt, Exits, Leaves, HoldOf;
    var w0 := w.(lastBar := prev);
    NotSentStays(c, i, ready, reason, tried);
    LeavesHold(ready, tried);
    if tried.outcome == Some(NotSent) {
      UnsentIsKept(tried, bar, reason, prev);
      AttemptFrom(c, i, w0, ready, reason, tried, w1);
      UnsentExits(c, i, w0, bar, HoldOf(ready), reason, w1);
    } else {
      SentIsDone(tried, bar, reason, prev);
      AttemptFrom(c, i, w0, ready, reason, tried, w1);
      SentExits(c, i, w0, bar, HoldOf(ready), reason, w1);
    }
  }

  lemma LeavesHold(w: World, w1: World)
    requires w.entryPrice.Some? && Leaves(w, w1)
    ensures w1.entryPrice.Some? ==> w1.entryPrice == w.entryPrice && HoldOf(w1) == HoldOf(w)
    ensures w1.lastBar == w.lastBar && w1.raised == w.raised
  {
  }

  lemma UnsentIsKept(w: World, bar: int, reason: Reason, prev: Option<int>)
    requires w.outcome == Some(NotSent) && w.entryPrice.Some?
    ensures var w1 := KeepUnsent(w, bar, reason, prev);
            && SameAttempt(w, w1) && w1.entryPrice == w.entryPrice && HoldOf(w1) == HoldOf(w) && w1.outcome == w.outcome
            && w1.exitsBar == Some(bar) && w1.exitsReason == Some(reason) && w1.lastBar == prev && w1.raised
  {
  }

  lemma SentIsDone(w: World, bar: int, reason: Reason, prev: Option<int>)
    requires w.outcome != Some(NotSent)
    ensures KeepUnsent(w, bar, reason, prev) == w && SameAttempt(w, w)
  {
  }

  lemma UnsentExits(c: Config, i: TickIn, w: World, bar: int, hold: Hold, reason: Reason, w1: World)
    requires w.entryPrice.Some? && w1.entryPrice == w.entryPrice && HoldOf(w1) == hold && AttemptLaw(c, i, w, Mine(c, w), reason, w1)
    requires w1.outcome == Some(NotSent) && w1.exitsBar == Some(bar) && w1.exitsReason == Some(reason) && w1.lastBar == w.lastBar && w1.raised
    ensures Exits(c, i, w, bar, hold, Some(reason), w1)
  {
    hide AttemptLaw;
  }

  lemma SentExits(c: Config, i: TickIn, w: World, bar: int, hold: Hold, reason: Reason, w1: World)
    requires w.entryPrice.Some? && (w1.entryPrice.Some? ==> w1.entryPrice == w.entryPrice && HoldOf(w1) == hold)
    requires AttemptLaw(c, i, w, Mine(c, w), reason, w1)
    requires w1.outcome != Some(NotSent) && w1.lastBar == Some(bar) && !w1.raised
    ensures Exits(c, i, w, bar, hold, Some(reason), w1)
  {
    hide AttemptLaw;
  }

  lemma NotSentStays(c: Config, i: TickIn, w: World, reason: Reason, w1: World)
    requires w.entryPrice.Some? && AttemptLaw(c, i, w, Mine(c, w), reason, w1)
    ensures w1.outcome == Some(NotSent) ==> w1.entryPrice.Some?
  {
    hide Clears, SkipsAfter;
  }

  /** But for the marks. */
  predicate SameAttempt(tried: World, w1: World) {
    && w1.entryPrice == tried.entryPrice && w1.outcome == tried.outcome && w1.history == tried.history
    && w1.pendingId == tried.pendingId && w1.pendingReason == tried.pendingReason
    && w1.paused == tried.paused && w1.skipLeft == tried.skipLeft
  }

  /** The law of an attempt does not look at the hold, the marks or the history before it. */
  lemma AttemptFrom(c: Config, i: TickIn, w: World, ready: World, reason: Reason, tried: World, w1: World)
    requires ready.entryPrice == w.entryPrice && ready.paused == w.paused && ready.skipLeft == w.skipLeft && ready.dir == w.dir
    requires AttemptLaw(c, i, ready, Mine(c, ready), reason, tried)
    requires SameAttempt(tried, w1)
    ensures AttemptLaw(c, i, w, Mine(c, w), reason, w1)
  {
    hide ClosesNow, FirstOn, NoneSuits, SkipsAfter;
  }

  /** After a reply that shows the position. */
  function Sighted(c: Config, w: World, i: TickIn): World {
    Log(w.(missing := 0, lastEmpty := i.check.Ok? && i.check.positions == []), Checked(i.check, WantedSide(c, w.dir)))
  }

  lemma LookSees(c: Config, w: World, i: TickIn)
    requires ShowsOne(c, w, i) && w.entryPrice.Some?
    ensures var s := BrokerPosition(c, w, c.isRegime, i);
            && s.w == Sighted(c, w, i) && s.check.Listed? && s.check == Listed(s.check.p)
            && s.check.p in i.check.positions && IsFirst(i.check.positions, c.symbol, WantedSide(c, w.dir), s.check.p)
  {
    hide CheckSide, WantedSide, NoneSuits, Find, IsFirst;
    WantIs(c, w, c.isRegime);
    FindIsFirst(i.check.positions, c.symbol, WantedSide(c, w.dir));
    FindSuits(i.check.positions, c.symbol, WantedSide(c, w.dir));
  }

  /** A regime bot's flip: one is pending, or the regime has left the recorded direction. */
  predicate FlipsNow(c: Config, w: World, i: TickIn) {
    c.isRegime && (w.pendingFlip || (w.dir.Some? && i.regimeDir != w.dir && c.onFlip != HoldOn))
  }

  lemma ActOnHeld(c: Config, w: World, i: TickIn, bar: int, prev: Option<int>)
    requires w.entryPrice.Some? && ShowsOne(c, w, i) && !FlipsNow(c, w, i)
    ensures Act(c, w, i, bar, prev) == HeldExits(c, Sighted(c, w, i), i, bar, prev)
  {
    hide BrokerPosition, HeldExits, HandleFlip, ShowsOne, IsFirst;
    LookSees(c, w, i);
    var s := BrokerPosition(c, w, c.isRegime, i);
    assert Act(c, w, i, bar, prev) == ActHeld(c, s.w, i, bar, prev, s.check.p);
  }

  /** What a new bar does to a position a reply shows: the exit found by the law, else the sell signal, is
      attempted, and nothing else. */
  ghost predicate HeldLaw(c: Config, w: World, i: TickIn, bar: int, w1: World)
    requires w.entryPrice.Some?
  {
    exists hold, due :: BarFinds(c, w, i, bar, hold, due) && Exits(c, i, w, bar, hold, WithSignal(i, due), w1)
  }

  /** On a new bar a position the broker shows is judged once by the law of exits, unless the bar was judged
      before; the exit found, or else the sell signal, is attempted, and what becomes of it is told by the
      replies. */
  lemma ExitIff(c: Config, w: World, i: TickIn, bar: int)
    requires OnNewBar(c, w, i, bar) && w.entryPrice.Some? && ShowsOne(c, w, i) && !FlipsNow(c, w, i)
    ensures HeldLaw(c, w, i, bar, Tick(c, w, i))
  {
    hide Tick, Act, HeldExits, ShowsOne, BarFinds, Exits;
    TickActs(c, w, i, bar);
    ReadyShows(c, w, i, bar);
    var r := Ready(c, w, bar);
    ActOnHeld(c, r, i, bar, w.lastBar);
    var s := Sighted(c, r, i);
    HeldExitsLaw(c, s, i, bar, w.lastBar);
    var hold, due :| BarFinds(c, s, i, bar, hold, due)
                     && Exits(c, i, s.(lastBar := w.lastBar), bar, hold, WithSignal(i, due), Tick(c, w, i));
    SightedSame(c, w, s, i, bar, hold, due, Tick(c, w, i));
  }

  lemma SightedSame(c: Config, w: World, s: World, i: TickIn, bar: int, hold: Hold, due: Option<Reason>, w1: World)
    requires w.entryPrice.Some? && s == Sighted(c, Ready(c, w, bar), i)
    ensures BarFinds(c, s, i, bar, hold, due) == BarFinds(c, w, i, bar, hold, due)
    ensures Exits(c, i, s.(lastBar := w.lastBar), bar, hold, WithSignal(i, due), w1) == Exits(c, i, w, bar, hold, WithSignal(i, due), w1)
  {
    hide InForce, BarLaw, ExitLaw, ClosesNow, FirstOn, NoneSuits, SkipsAfter;
  }

  // ---- flips ----

  /** After the end of a flip: a bot that reverses enters on the regime's side, in hours, unless candidates
      are left to skip, entries are blocked or the order is not filled. */
  predicate ReverseLaw(c: Config, i: TickIn, skips: int, w1: World) {
    var asked := i.inHours && c.onFlip == CloseAndReverse && i.regimeDir.Some?;
    && w1.skipLeft == (if asked && skips > 0 then skips - 1 else skips)
    && (w1.entryPrice.Some? <==> asked && skips <= 0 && !i.entryBlocked && i.entry.Filled?)
    && (w1.entryPrice.Some? ==>
          && w1.entryPrice == Some(i.entry.price) && w1.entryTime == Some(i.now) && w1.dir == i.regimeDir
          && w1.barCount == 0 && w1.trailPeak == Some(i.entry.price) && w1.trailStop.None?)
  }

  lemma ReverseEntryLaw(c: Config, w: World, i: TickIn)
    requires Flat(w)
    ensures var w1 := ReverseEntry(c, w, i, i.regimeDir);
            && ReverseLaw(c, i, w.skipLeft, w1) && w1.pendingFlip == w.pendingFlip && w1.consecStops == w.consecStops
            && Within(w.history, w1.history)
  {
    hide Within, Enter, ReverseEntry;
    ReverseCases(c, w, i);
    WithinTwo(w.history, CandidateSkipped, CandidateSkipped);
    if i.regimeDir.Some? { EnterFields(c, w, Log(w, CandidatePassed), i, i.regimeDir.value); }
  }

  lemma ReverseCases(c: Config, w: World, i: TickIn)
    ensures var w1 := ReverseEntry(c, w, i, i.regimeDir);
            var asked := i.inHours && c.onFlip == CloseAndReverse && i.regimeDir.Some?;
            && (!asked ==> w1 == w)
            && (asked && w.skipLeft > 0 ==> w1 == Log(w.(skipLeft := w.skipLeft - 1), CandidateSkipped))
            && (asked && w.skipLeft <= 0 ==> w1 == Enter(Log(w, CandidatePassed), i, i.regimeDir.value))
  {
    hide Enter;
  }

  lemma EnterFields(c: Config, w: World, passed: World, i: TickIn, side: Side)
    requires Flat(w) && passed == Log(w, CandidatePassed)
    ensures var w1 := Enter(passed, i, side);
            var enters := !i.entryBlocked && i.entry.Filled?;
            && w1.skipLeft == w.skipLeft && w1.pendingFlip == w.pendingFlip && w1.consecStops == w.consecStops
            && Within(w.history, w1.history)
            && (!enters ==> w1.entryPrice.None?)
            && (enters ==>
                  && w1.entryPrice == Some(i.entry.price) && w1.entryTime == Some(i.now) && w1.dir == Some(side)
                  && w1.barCount == 0 && w1.trailPeak == Some(i.entry.price) && w1.trailStop.None?)
  {
    hide Within;
    WithinTwo(w.history, CandidatePassed, Entered(side, i.now, passed.missing, if i.entry.Filled? then i.entry.price else 0.0));
  }

  /** A flip: the position is closed and the reverse entry decided exactly when its close is accepted and
      the polls show it closed; else the flip stays pending and the position tracked. */
  ghost predicate FlipLaw(c: Config, i: TickIn, w: World, side: Side, w1: World) {
    var closed := i.close.Accepted? && Clears(i.post, c.symbol, side, 0);
    && (!closed ==>
          && w1.entryPrice == w.entryPrice && w1.pendingFlip && w1.skipLeft == w.skipLeft && w1.consecStops == w.consecStops
          && (i.close.Accepted? ==> w1.pendingId == Some(i.close.id) && w1.pendingReason == Some(RegimeFlip)))
    && (closed ==>
          && ReverseLaw(c, i, w.skipLeft, w1) && !w1.pendingFlip && w1.consecStops == 0
          && exists past, qty :: Within(Then(past, Booked(FlipClose, RegimeFlip, qty, i.exitFill)), w1.history))
  }

  lemma FinishFlipLaw(c: Config, w: World, i: TickIn, qty: real)
    ensures var w1 := FinishFlip(c, w, i, qty, i.regimeDir);
            && ReverseLaw(c, i, w.skipLeft, w1) && !w1.pendingFlip && w1.consecStops == 0
            && Within(Then(w.history, Booked(FlipClose, RegimeFlip, qty, i.exitFill)), w1.history)
  {
    hide ReverseEntry, ReverseLaw, Within;
    var w0 := Forget(Log(w.(consecStops := 0), Booked(FlipClose, RegimeFlip, qty, i.exitFill))).(pendingFlip := false);
    ReverseEntryLaw(c, w0, i);
  }

  lemma HandleFlipLaw(c: Config, w: World, i: TickIn, bar: int, qty: real)
    requires w.entryPrice.Some? && w.dir.Some?
    ensures FlipLaw(c, i, w, w.dir.value, HandleFlip(c, w, i, bar, qty, i.regimeDir))
  {
    hide Poll, Clears, FinishFlip, ReverseLaw, Within;
    if i.close.Accepted? {
      var id := i.close.id;
      PollIff(c, Then(w.history, CloseAccepted(bar, RegimeFlip, w.dir, id)), w.dir.value, i.post, 0);
      var polled := PollAfter(c, w, i, bar, RegimeFlip, w.dir, id);
      var sent := w.(pendingId := Some(id), pendingReason := Some(RegimeFlip), history := polled.h);
      FinishFlipLaw(c, sent, i, qty);
    }
  }

  lemma ActOnFlip(c: Config, w: World, i: TickIn, bar: int, prev: Option<int>)
    requires w.entryPrice.Some? && ShowsOne(c, w, i) && FlipsNow(c, w, i)
    ensures exists qty :: Act(c, w, i, bar, prev) == HandleFlip(c, Sighted(c, w, i), i, bar, qty, i.regimeDir)
  {
    hide BrokerPosition, HeldExits, HandleFlip, ShowsOne, IsFirst, Abs;
    LookSees(c, w, i);
    var s := BrokerPosition(c, w, c.isRegime, i);
    assert Act(c, w, i, bar, prev) == ActHeld(c, s.w, i, bar, prev, s.check.p);
  }

  /** On a new bar a regime bot that flips closes its position, and enters the other way, exactly as the
      replies allow. */
  lemma FlipIff(c: Config, w: World, i: TickIn, bar: int)
    requires OnNewBar(c, w, i, bar) && w.entryPrice.Some? && w.dir.Some? && ShowsOne(c, w, i) && FlipsNow(c, w, i)
    ensures FlipLaw(c, i, w, w.dir.value, Tick(c, w, i))
  {
    hide Tick, Act, HandleFlip, ShowsOne, FlipLaw;
    TickActs(c, w, i, bar);
    ReadyShows(c, w, i, bar);
    var r := Ready(c, w, bar);
    ActOnFlip(c, r, i, bar, w.lastBar);
    var qty :| Act(c, r, i, bar, w.lastBar) == HandleFlip(c, Sighted(c, r, i), i, bar, qty, i.regimeDir);
    HandleFlipLaw(c, Sighted(c, r, i), i, bar, qty);
    FlipSame(c, i, w, Sighted(c, r, i), w.dir.value, Tick(c, w, i));
  }

  lemma FlipSame(c: Config, i: TickIn, w: World, s: World, side: Side, w1: World)
    requires s.entryPrice == w.entryPrice && s.skipLeft == w.skipLeft && s.consecStops == w.consecStops
    ensures FlipLaw(c, i, s, side, w1) == FlipLaw(c, i, w, side, w1)
  {
    hide Clears, ReverseLaw, Within;
  }

  // ---- the price exits of a bot without signals ----

  /** A bar's price exits, when no signals are known: the exit found by the law is attempted, and kept for
      the bar when it could not be sent; done says that it could. */
  predicate BarExits(c: Config, i: TickIn, w: World, bar: int, hold: Hold, due: Option<Reason>, w1: World, done: bool) {
    && w1.exitsBar == Some(bar) && (w1.entryPrice.Some? ==> w1.entryPrice == w.entryPrice && HoldOf(w1) == hold)
    && w1.lastBar == w.lastBar && w1.problem == w.problem && w1.problemBar == w.problemBar
    && match due
       case None => !done && w1.entryPrice == w.entryPrice && w1.exitsReason.None?
       case Some(reason) =>
         && Outcomes(c, i, w, Mine(c, w), reason, w1)
         && (done <==> w1.outcome != Some(NotSent))
         && w1.exitsReason == (if done then None else due)
  }

  lemma PriceExitFound(c: Config, w: World, i: TickIn, bar: int)
    requires w.entryPrice.Some?
    ensures var ran := PriceExitOnce(c, w, i, bar);
            && ran.w == w.(barCount := ran.w.barCount, trailPeak := ran.w.trailPeak, trailStop := ran.w.trailStop,
                           history := ran.w.history, exitsBar := Some(bar), exitsReason := ran.due)
            && ran.w.entryPrice == w.entryPrice && BarFinds(c, w, i, bar, HoldOf(ran.w), ran.due)
  {
    hide Evaluate;
    if w.exitsBar != Some(bar) { EvaluateFound(c, w, i, bar); }
  }

  lemma AfterAttemptFields(w: World, reason: Reason)
    ensures var a := AfterExitAttempt(w, reason);
            && (a.yes <==> w.entryPrice.None? || w.outcome == Some(Sent) || w.outcome == Some(CloseFailed))
            && a.w == w.(exitsReason := if a.yes then None else Some(reason))
  {
  }

  lemma TryExitLaw(c: Config, w: World, i: TickIn, bar: int, reason: Reason)
    requires w.entryPrice.Some? && w.exitsBar == Some(bar)
    ensures var a := TryExit(c, w, i, bar, reason); BarExits(c, i, w, bar, HoldOf(w), Some(reason), a.w, a.yes)
  {
    hide ExecuteExit, AfterExitAttempt, Outcomes, Clears, FirstOn;
    var ready := w.(outcome := None);
    var x := ExecuteExit(c, ready, i, bar, reason);
    ExecuteExitLaw(c, ready, i, bar, reason);
    AttemptKeeps(c, ready, i, bar, reason);
    AfterAttemptFields(x, reason);
    OutcomeIs(c, i, ready, Mine(c, ready), reason, x);
    OutcomesFrom(c, i, w, ready, reason, x, AfterExitAttempt(x, reason).w);
  }

  /** An attempt whose position stays was sent, refused or not sent. */
  lemma OutcomeIs(c: Config, i: TickIn, w: World, side: Side, reason: Reason, w1: World)
    requires Outcomes(c, i, w, side, reason, w1) && w.entryPrice.Some?
    ensures w1.entryPrice.None? || w1.outcome == Some(Sent) || w1.outcome == Some(CloseFailed) <==> w1.outcome != Some(NotSent)
  {
    hide Clears, SkipsAfter;
    FirstOnIs(i.verify, c.symbol, side);
    FirstOnIs(i.verify, c.symbol, Opposite(side));
  }

  lemma OutcomesFrom(c: Config, i: TickIn, w: World, ready: World, reason: Reason, tried: World, w1: World)
    requires ready.entryPrice == w.entryPrice && ready.skipLeft == w.skipLeft && ready.dir == w.dir
    requires Outcomes(c, i, ready, Mine(c, ready), reason, tried)
    requires w1.entryPrice == tried.entryPrice && w1.outcome == tried.outcome && w1.skipLeft == tried.skipLeft
    requires w1.pendingId == tried.pendingId && w1.pendingReason == tried.pendingReason
    ensures Outcomes(c, i, w, Mine(c, w), reason, w1)
  {
    hide ClosesNow, FirstOn, NoneSuits, SkipsAfter;
  }

  /** The price exits of a tracked position, once a bar, and a repeat of one not sent. */
  lemma BarExitsLaw(c: Config, w: World, i: TickIn, bar: int)
    requires w.entryPrice.Some?
    ensures var ran := PriceExitOnce(c, w, i, bar);
            var a := if ran.due.None? then Answer(ran.w, false) else TryExit(c, ran.w, i, bar, ran.due.value);
            exists hold :: BarFinds(c, w, i, bar, hold, ran.due) && BarExits(c, i, w, bar, hold, ran.due, a.w, a.yes)
  {
    hide PriceExitOnce, TryExit, BarFinds, Outcomes;
    PriceExitFound(c, w, i, bar);
    var ran := PriceExitOnce(c, w, i, bar);
    if ran.due.Some? {
      TryExitLaw(c, ran.w, i, bar, ran.due.value);
      var a := TryExit(c, ran.w, i, bar, ran.due.value);
      OutcomesFrom(c, i, w, ran.w, ran.due.value, a.w, a.w);
      assert BarExits(c, i, w, bar, HoldOf(ran.w), ran.due, a.w, a.yes);
    } else {
      assert BarExits(c, i, w, bar, HoldOf(ran.w), None, ran.w, false);
    }
  }

  /** The settings a bot whose code failed is asked about with: without a plan, whether it can hold either
      side stands for whether it is a regime bot. */
  function AsPlanned(c: Config, i: TickIn): Config {
    AsRegime(c, if i.planLost then c.bidirectional else c.isRegime)
  }

  /** The settings with which _manage_without_signals asks. */
  function AsRegime(c: Config, regime: bool): Config {
    c.(isRegime := regime)
  }

  /** The bar is managed already, without a problem. */
  predicate DoneWith(w: World, bar: int) {
    w.exitsBar == Some(bar) && w.exitsReason.None? && w.problemBar != Some(bar)
  }

  /** What a failed bot's tick makes of a tracked position a reply shows, or cannot speak of: its price exits
      run, and once flat, as a reply showed it to be, the bot pauses. */
  predicate FailedBar(c: Config, i: TickIn, w: World, bar: int, hold: Hold, due: Option<Reason>, w1: World) {
    var unsent := due.Some? && (!i.verify.Ok? || NoneSuits(i.verify.positions, c.symbol, None));
    && w1.exitsBar == Some(bar) && (w1.entryPrice.Some? ==> w1.entryPrice == w.entryPrice && HoldOf(w1) == hold)
    && w1.raised == (unsent || i.check.Unavailable?)
    && w1.exitsReason == (if unsent then due else None)
    && w1.lastBar == (if unsent then w.lastBar else Some(bar))
    && (due.None? ==> w1.entryPrice == w.entryPrice)
    && (due.Some? ==> Outcomes(c, i, w, Mine(c, w), due.value, w1))
    && (i.check.Ok? && w1.entryPrice.None? ==> w1.paused && !w1.exitsOnly && w1.history.Then? && w1.history.last.PausedForCode?)
  }

  /** ... before the tick settles. */
  predicate Managed(c: Config, i: TickIn, w: World, bar: int, hold: Hold, due: Option<Reason>, asked: bool, m: Answer) {
    var unsent := due.Some? && (!i.verify.Ok? || NoneSuits(i.verify.positions, c.symbol, None));
    && m.w.exitsBar == Some(bar) && (m.w.entryPrice.Some? ==> m.w.entryPrice == w.entryPrice && HoldOf(m.w) == hold)
    && m.w.problem == (unsent || !asked)
    && m.w.exitsReason == (if unsent then due else None)
    && m.w.lastBar == (if unsent || due.None? then w.lastBar else Some(bar))
    && (due.None? ==> m.w.entryPrice == w.entryPrice)
    && (due.Some? ==> Outcomes(c, i, w, Mine(c, w), due.value, m.w))
    && (m.yes <==> asked && m.w.entryPrice.None?)
  }

  lemma UnsentIs(c: Config, i: TickIn, w: World, bar: int, hold: Hold, due: Option<Reason>, w1: World, done: bool)
    requires BarExits(c, i, w, bar, hold, due, w1, done) && due.Some?
    ensures done <==> !(!i.verify.Ok? || NoneSuits(i.verify.positions, c.symbol, None))
  {
    hide ClosesNow, FirstOn, NoneSuits, SkipsAfter;
  }

  lemma ManageHeldLaw(c: Config, w: World, i: TickIn, bar: int)
    requires w.entryPrice.Some? && !w.problem
    ensures exists hold, due :: BarFinds(c, w, i, bar, hold, due) && Managed(c, i, w, bar, hold, due, true, ManageHeld(c, w, i, bar))
  {
    hide PriceExitOnce, TryExit, BarFinds, Outcomes, NoneSuits;
    BarExitsLaw(c, w, i, bar);
    var ran := PriceExitOnce(c, w, i, bar);
    var a := if ran.due.None? then Answer(ran.w, false) else TryExit(c, ran.w, i, bar, ran.due.value);
    var hold :| BarFinds(c, w, i, bar, hold, ran.due) && BarExits(c, i, w, bar, hold, ran.due, a.w, a.yes);
    if ran.due.Some? { UnsentIs(c, i, w, bar, hold, ran.due, a.w, a.yes); }
    var m := ManageHeld(c, w, i, bar);
    if ran.due.Some? { OutcomesFrom(c, i, w, w, ran.due.value, a.w, m.w); }
    assert Managed(c, i, w, bar, hold, ran.due, true, m);
  }

  lemma ManageUncheckedLaw(c: Config, w: World, i: TickIn, bar: int)
    requires w.entryPrice.Some?
    ensures exists hold, due :: BarFinds(c, w, i, bar, hold, due) && Managed(c, i, w, bar, hold, due, false, ManageUnchecked(c, w, i, bar))
  {
    hide PriceExitOnce, TryExit, BarFinds, Outcomes, NoneSuits;
    var p := Problem(w, bar);
    BarExitsLaw(c, p, i, bar);
    var ran := PriceExitOnce(c, p, i, bar);
    var a := if ran.due.None? then Answer(ran.w, false) else TryExit(c, ran.w, i, bar, ran.due.value);
    var hold :| BarFinds(c, p, i, bar, hold, ran.due) && BarExits(c, i, p, bar, hold, ran.due, a.w, a.yes);
    if ran.due.Some? { UnsentIs(c, i, p, bar, hold, ran.due, a.w, a.yes); }
    var m := ManageUnchecked(c, w, i, bar);
    ProblemFinds(c, w, i, bar, hold, ran.due);
    if ran.due.Some? { OutcomesFrom(c, i, w, p, ran.due.value, a.w, m.w); }
    assert Managed(c, i, w, bar, hold, ran.due, false, m);
  }

  lemma ProblemFinds(c: Config, w: World, i: TickIn, bar: int, hold: Hold, due: Option<Reason>)
    requires w.entryPrice.Some?
    ensures BarFinds(c, Problem(w, bar), i, bar, hold, due) == BarFinds(c, w, i, bar, hold, due)
  {
    hide InForce, BarLaw, ExitLaw;
  }

  lemma SettleLaw(c: Config, i: TickIn, w: World, bar: int, hold: Hold, due: Option<Reason>, m: Answer)
    requires w.entryPrice.Some? && Managed(c, i, w, bar, hold, due, i.check.Ok?, m)
    ensures FailedBar(c, i, w, bar, hold, due, Settle(m, bar))
  {
    hide Outcomes, NoneSuits, Settle;
    if m.yes { SettlePauses(m, bar); } else { SettleMarks(m, bar); }
    if due.Some? { OutcomesFrom(c, i, w, w, due.value, m.w, Settle(m, bar)); }
  }

  /** The fields the laws look at. */
  predicate SameOutcome(w: World, w1: World) {
    && w1.entryPrice == w.entryPrice && w1.barCount == w.barCount && w1.trailPeak == w.trailPeak && w1.trailStop == w.trailStop
    && w1.outcome == w.outcome && w1.skipLeft == w.skipLeft && w1.pendingId == w.pendingId && w1.pendingReason == w.pendingReason
    && w1.exitsBar == w.exitsBar && w1.exitsReason == w.exitsReason
  }

  lemma SettlePauses(m: Answer, bar: int)
    requires m.yes
    ensures var w1 := Settle(m, bar);
            && SameOutcome(m.w, w1) && w1.raised == m.w.problem && w1.lastBar == m.w.lastBar
            && w1.paused && !w1.exitsOnly && w1.history.Then? && w1.history.last.PausedForCode?
  {
  }

  lemma SettleMarks(m: Answer, bar: int)
    requires !m.yes
    ensures var w1 := Settle(m, bar);
            && SameOutcome(m.w, w1) && w1.raised == m.w.problem
            && w1.lastBar == if m.w.exitsBar == Some(bar) && m.w.exitsReason.None? then Some(bar) else m.w.lastBar
  {
  }

  lemma LookAs(c: Config, w: World, regime: bool)
    ensures CheckSide(c, w, regime) == WantedSide(AsRegime(c, regime), w.dir)
  {
  }

  /** The world after a look that shows the position, or without a reply. */
  function Looked(c: Config, w: World, i: TickIn): World {
    var w0 := Log(w.(missing := if i.check.Ok? then 0 else w.missing), Checked(i.check, WantedSide(c, w.dir)));
    if i.check.Ok? then w0.(lastEmpty := i.check.positions == []) else w0
  }

  lemma ManageLooks(c: Config, w: World, i: TickIn, bar: int, regime: bool)
    requires w.entryPrice.Some? && (i.check.Unavailable? || ShowsOne(AsRegime(c, regime), w, i))
    ensures var a, l := ManageNow(c, w, i, bar, regime), Looked(AsRegime(c, regime), w, i);
            && (i.check.Ok? ==> a == ManageHeld(c, l, i, bar))
            && (i.check.Unavailable? ==> a == ManageUnchecked(c, l, i, bar))
  {
    hide CheckSide, WantedSide, NoneSuits, Find, ManageHeld, ManageUnchecked, ManageMissing;
    LookAs(c, w, regime);
    if i.check.Ok? { FindSuits(i.check.positions, c.symbol, WantedSide(AsRegime(c, regime), w.dir)); }
  }

  lemma FailedTickIs(c: Config, w: World, i: TickIn, bar: int, regime: bool)
    requires c.graph && w.codeFailed && i.fetch == Some(bar) && regime == (if i.planLost then c.bidirectional else c.isRegime)
    ensures !DoneWith(w, bar) ==> Tick(c, w, i) == Settle(ManageNow(c, Begin(w).(problemBar := None), i, bar, regime), bar)
    ensures DoneWith(w, bar) ==> Tick(c, w, i) == Settle(Answer(Begin(w), false), bar)
  {
    hide Settle, ManageNow;
    var b := Begin(w);
    assert b.(problem := false) == b && b.(problem := false, problemBar := None) == b.(problemBar := None);
    assert Tick(c, w, i) == Settle(Manage(c, b, i, bar, regime), bar);
  }

  /** A failed bot's bar: its price exits run once, by the law; the bar's tick comes again while the exit
      could not be sent. */
  lemma FailedExitIff(c: Config, w: World, i: TickIn, bar: int)
    requires c.graph && w.codeFailed && i.fetch == Some(bar) && w.entryPrice.Some? && !DoneWith(w, bar)
    requires i.check.Unavailable? || ShowsOne(AsPlanned(c, i), w, i)
    ensures exists hold, due :: BarFinds(c, w, i, bar, hold, due) && FailedBar(c, i, w, bar, hold, due, Tick(c, w, i))
  {
    hide Tick, ManageNow, ManageHeld, ManageUnchecked, Settle, BarFinds, Managed, FailedBar, NoneSuits, WantedSide;
    var regime := if i.planLost then c.bidirectional else c.isRegime;
    FailedTickIs(c, w, i, bar, regime);
    var w0 := Begin(w).(problemBar := None);
    ManageNowLaw(c, w0, i, bar, regime);
    var m := ManageNow(c, w0, i, bar, regime);
    var hold, due :| BarFinds(c, w0, i, bar, hold, due) && Managed(c, i, w0, bar, hold, due, i.check.Ok?, m);
    SettleLaw(c, i, w0, bar, hold, due, m);
    FindsSame(c, w, w0, i, bar, hold, due);
    FailedSame(c, i, w, w0, bar, hold, due, Tick(c, w, i));
  }

  /** The exits of a tracked position that a reply shows, or that no reply came for. */
  lemma ManageNowLaw(c: Config, w: World, i: TickIn, bar: int, regime: bool)
    requires w.entryPrice.Some? && !w.problem && (i.check.Unavailable? || ShowsOne(AsRegime(c, regime), w, i))
    ensures exists hold, due :: BarFinds(c, w, i, bar, hold, due)
                                && Managed(c, i, w, bar, hold, due, i.check.Ok?, ManageNow(c, w, i, bar, regime))
  {
    hide ManageNow, ManageHeld, ManageUnchecked, BarFinds, Managed, ShowsOne, Looked, AsRegime;
    ManageLooks(c, w, i, bar, regime);
    var l := Looked(AsRegime(c, regime), w, i);
    LookedKeeps(AsRegime(c, regime), w, i);
    var m := ManageNow(c, w, i, bar, regime);
    if i.check.Ok? { ManageHeldLaw(c, l, i, bar); } else { ManageUncheckedLaw(c, l, i, bar); }
    var hold, due :| BarFinds(c, l, i, bar, hold, due) && Managed(c, i, l, bar, hold, due, i.check.Ok?, m);
    FindsSame(c, w, l, i, bar, hold, due);
    ManagedSame(c, i, w, l, bar, hold, due, i.check.Ok?, m);
  }

  lemma ManagedSame(c: Config, i: TickIn, w: World, l: World, bar: int, hold: Hold, due: Option<Reason>, asked: bool, m: Answer)
    requires w.entryPrice.Some? && l.entryPrice == w.entryPrice && l.dir == w.dir && l.lastBar == w.lastBar && l.skipLeft == w.skipLeft
    ensures Managed(c, i, l, bar, hold, due, asked, m) == Managed(c, i, w, bar, hold, due, asked, m)
  {
    hide ClosesNow, FirstOn, NoneSuits, SkipsAfter;
  }

  lemma LookedKeeps(c: Config, w: World, i: TickIn)
    ensures var l := Looked(c, w, i); SameOutcome(w, l) && l.dir == w.dir && l.lastBar == w.lastBar && l.problem == w.problem
  {
    hide WantedSide;
    if i.check.Ok? {
      assert Looked(c, w, i).entryPrice == w.entryPrice;
    } else {
      assert Looked(c, w, i).entryPrice == w.entryPrice;
    }
  }

  lemma FindsSame(c: Config, w: World, l: World, i: TickIn, bar: int, hold: Hold, due: Option<Reason>)
    requires w.entryPrice.Some? && SameOutcome(w, l) && l.dir == w.dir
    ensures BarFinds(c, l, i, bar, hold, due) == BarFinds(c, w, i, bar, hold, due)
  {
    hide InForce, BarLaw, ExitLaw;
  }

  lemma FailedSame(c: Config, i: TickIn, w: World, l: World, bar: int, hold: Hold, due: Option<Reason>, w1: World)
    requires w.entryPrice.Some? && l.entryPrice == w.entryPrice && l.dir == w.dir && l.lastBar == w.lastBar && l.skipLeft == w.skipLeft
    ensures FailedBar(c, i, l, bar, hold, due, w1) == FailedBar(c, i, w, bar, hold, due, w1)
  {
    hide ClosesNow, FirstOn, NoneSuits, SkipsAfter;
  }

  /** A bar that is managed is left alone. */
  lemma FailedBarIsDone(c: Config, w: World, i: TickIn, bar: int)
    requires c.graph && w.codeFailed && i.fetch == Some(bar) && DoneWith(w, bar)
    ensures var w1 := Tick(c, w, i);
            w1.history == Then(w.history, TickBegan) && SameOutcome(w, w1) && w1.lastBar == Some(bar) && !w1.raised && w1.paused == w.paused
  {
    hide Tick, ManageNow;
    FailedTickIs(c, w, i, bar, if i.planLost then c.bidirectional else c.isRegime);
  }

  // ---- a bar the broker cannot be asked about ----

  /** The price exits of a tracked position when no reply came: the bar is done once its exit is attempted,
      and comes again otherwise. */
  predicate UncheckedBar(c: Config, i: TickIn, w: World, bar: int, hold: Hold, due: Option<Reason>, w1: World) {
    var unsent := due.Some? && (!i.verify.Ok? || NoneSuits(i.verify.positions, c.symbol, None));
    && w1.raised && w1.exitsBar == Some(bar) && (w1.entryPrice.Some? ==> w1.entryPrice == w.entryPrice && HoldOf(w1) == hold)
    && w1.exitsReason == (if unsent then due else None)
    && w1.lastBar == (if due.Some? && !unsent then Some(bar) else w.lastBar)
    && (due.None? ==> w1.entryPrice == w.entryPrice)
    && (due.Some? ==> Outcomes(c, i, w, Mine(c, w), due.value, w1))
  }

  lemma ActUncheckedLaw(c: Config, w: World, i: TickIn, bar: int, prev: Option<int>)
    requires w.entryPrice.Some? && w.lastBar == Some(bar)
    ensures exists hold, due :: BarFinds(c, w, i, bar, hold, due)
                                && UncheckedBar(c, i, w.(lastBar := prev), bar, hold, due, ActUnchecked(c, w, i, bar, prev))
  {
    hide PriceExitOnce, TryExit, BarFinds, Outcomes, NoneSuits;
    BarExitsLaw(c, w, i, bar);
    var ran := PriceExitOnce(c, w, i, bar);
    var a := if ran.due.None? then Answer(ran.w, false) else TryExit(c, ran.w, i, bar, ran.due.value);
    var hold :| BarFinds(c, w, i, bar, hold, ran.due) && BarExits(c, i, w, bar, hold, ran.due, a.w, a.yes);
    if ran.due.Some? { UnsentIs(c, i, w, bar, hold, ran.due, a.w, a.yes); }
    ActUncheckedIs(c, w, i, bar, prev);
    hide ActUnchecked;
    UncheckedFrom(c, i, w, bar, prev, hold, ran.due, a, ActUnchecked(c, w, i, bar, prev));
  }

  lemma UncheckedFrom(c: Config, i: TickIn, w: World, bar: int, prev: Option<int>, hold: Hold, due: Option<Reason>, a: Answer, w1: World)
    requires w.entryPrice.Some? && w.lastBar == Some(bar) && BarExits(c, i, w, bar, hold, due, a.w, a.yes)
    requires due.Some? ==> (a.yes <==> !(!i.verify.Ok? || NoneSuits(i.verify.positions, c.symbol, None)))
    requires w1 == a.w.(lastBar := if a.yes then a.w.lastBar else prev, raised := true)
    ensures UncheckedBar(c, i, w.(lastBar := prev), bar, hold, due, w1)
  {
    hide Outcomes, NoneSuits;
    if due.Some? { OutcomesFrom(c, i, w.(lastBar := prev), w, due.value, a.w, w1); }
  }

  lemma ActUncheckedIs(c: Config, w: World, i: TickIn, bar: int, prev: Option<int>)
    requires w.entryPrice.Some?
    ensures var ran := PriceExitOnce(c, w, i, bar);
            var a := if ran.due.None? then Answer(ran.w, false) else TryExit(c, ran.w, i, bar, ran.due.value);
            ActUnchecked(c, w, i, bar, prev) == a.w.(lastBar := if a.yes then a.w.lastBar else prev, raised := true)
  {
    hide PriceExitOnce, TryExit;
  }

  lemma LookFails(c: Config, w: World, i: TickIn)
    requires i.check.Unavailable?
    ensures BrokerPosition(c, w, c.isRegime, i) == Sighting(Log(w, Checked(i.check, WantedSide(c, w.dir))), CheckFailed)
  {
    hide CheckSide, WantedSide;
    WantIs(c, w, c.isRegime);
  }

  /** On a new bar a tracked position gets its price exits when the broker cannot be asked for it. */
  lemma UncheckedIff(c: Config, w: World, i: TickIn, bar: int)
    requires OnNewBar(c, w, i, bar) && w.entryPrice.Some? && i.check.Unavailable?
    ensures exists hold, due :: BarFinds(c, w, i, bar, hold, due) && UncheckedBar(c, i, w, bar, hold, due, Tick(c, w, i))
  {
    hide Tick, Act, ActUnchecked, BarFinds, UncheckedBar, WantedSide;
    TickActs(c, w, i, bar);
    var r := Ready(c, w, bar);
    var u := Log(r, Checked(i.check, WantedSide(c, w.dir)));
    ActOnUnchecked(c, r, i, bar, w.lastBar, u);
    ActUncheckedLaw(c, u, i, bar, w.lastBar);
    var hold, due :| BarFinds(c, u, i, bar, hold, due) && UncheckedBar(c, i, u.(lastBar := w.lastBar), bar, hold, due, Tick(c, w, i));
    UncheckedSame(c, i, w, u, bar, hold, due, Tick(c, w, i));
  }

  lemma ActOnUnchecked(c: Config, w: World, i: TickIn, bar: int, prev: Option<int>, u: World)
    requires i.check.Unavailable? && u == Log(w, Checked(i.check, WantedSide(c, w.dir)))
    ensures Act(c, w, i, bar, prev) == ActUnchecked(c, u, i, bar, prev)
  {
    hide BrokerPosition, ActUnchecked, WantedSide;
    LookFails(c, w, i);
  }

  lemma UncheckedSame(c: Config, i: TickIn, w: World, u: World, bar: int, hold: Hold, due: Option<Reason>, w1: World)
    requires w.entryPrice.Some? && SameOutcome(w, u) && u.dir == w.dir
    ensures BarFinds(c, u, i, bar, hold, due) == BarFinds(c, w, i, bar, hold, due)
    ensures UncheckedBar(c, i, u.(lastBar := w.lastBar), bar, hold, due, w1) == UncheckedBar(c, i, w, bar, hold, due, w1)
  {
    hide ClosesNow, FirstOn, NoneSuits, SkipsAfter, BarFinds;
    FindsSame(c, w, u, i, bar, hold, due);
  }

  // ---- a pending flip whose position is missing ----

  /** The flip is cleaned up, and the reverse entry decided. */
  ghost predicate CleansUp(c: Config, w: World, i: TickIn, w1: World) {
    && ReverseLaw(c, i, w.skipLeft, w1) && !w1.pendingFlip
    && exists past :: Within(Then(past, FlipCleaned(w.entryPrice.Some?)), w1.history)
  }

  lemma CleanPendingFlipLaw(c: Config, w: World, i: TickIn)
    ensures CleansUp(c, w, i, CleanPendingFlip(c, w, i, i.regimeDir))
  {
    hide ReverseEntry, ReverseLaw, Within;
    ReverseEntryLaw(c, Log(Forget(w).(pendingFlip := false), FlipCleaned(w.entryPrice.Some?)), i);
  }

  lemma ActCleans(c: Config, w: World, i: TickIn, bar: int, prev: Option<int>)
    requires c.isRegime && w.pendingFlip && ShowsNone(c, w, i)
    ensures var u := Unseen(c, w, i);
            var gone := ConfirmGone(u, FindFill(c, u, i));
            var w1 := Act(c, w, i, bar, prev);
            && (w.entryPrice.None? ==> w1 == CleanPendingFlip(c, u, i, i.regimeDir))
            && (w.entryPrice.Some? && gone.yes ==> w1 == CleanPendingFlip(c, gone.w, i, i.regimeDir))
            && (w.entryPrice.Some? && !gone.yes ==> w1 == gone.w.(lastBar := prev, raised := true))
  {
    hide BrokerPosition, ShowsNone, FindFill, ConfirmGone, CleanPendingFlip;
    LookMisses(c, w, i);
    var u := Unseen(c, w, i);
    ConfirmKeepsFlip(u, FindFill(c, u, i));
    assert Act(c, w, i, bar, prev) == ActMissing(c, u, i, prev);
  }

  /** A regime bot whose flip is pending and whose position a reply does not show cleans the flip up at once
      when it tracks nothing, else exactly when the position is seen to be gone; until then the bar waits. */
  lemma CleansIff(c: Config, w: World, i: TickIn, bar: int)
    requires OnNewBar(c, w, i, bar) && c.isRegime && w.pendingFlip && ShowsNone(c, w, i) && w.missing <= 1
    requires i.inHours || w.entryPrice.Some?
    ensures var w1 := Tick(c, w, i);
            && (w.entryPrice.None? || SeenGone(c, w, i) ==> CleansUp(c, w, i, w1))
            && (w.entryPrice.Some? && !SeenGone(c, w, i) ==> Waits(w, w1, i))
  {
    hide Tick, Act, ShowsNone, SeenGone, CleansUp, Waits;
    TickActs(c, w, i, bar);
    ReadyShows(c, w, i, bar);
    ReadySeen(c, w, i, bar);
    ReadyKeeps(c, w, bar);
    var r := Ready(c, w, bar);
    hide Ready;
    ActCleansLaw(c, r, i, bar, w.lastBar);
    CleansSame(c, w, r, i, Tick(c, w, i));
    WaitsSame(w, r.(lastBar := w.lastBar), i, Tick(c, w, i));
  }

  lemma ActCleansLaw(c: Config, w: World, i: TickIn, bar: int, prev: Option<int>)
    requires c.isRegime && w.pendingFlip && ShowsNone(c, w, i) && w.missing <= 1
    ensures var w1 := Act(c, w, i, bar, prev);
            && (w.entryPrice.None? || SeenGone(c, w, i) ==> CleansUp(c, w, i, w1))
            && (w.entryPrice.Some? && !SeenGone(c, w, i) ==> Waits(w.(lastBar := prev), w1, i))
  {
    hide Act, ShowsNone, Unseen, SeenGone, CleansUp, ConfirmGone, FindFill, CleanPendingFlip, Waits;
    ShowsNoneIs(c, w, i);
    var u := Unseen(c, w, i);
    ActCleans(c, w, i, bar, prev);
    UnseenSame(c, w, i);
    ConfirmIff(c, u, i);
    var gone := ConfirmGone(u, FindFill(c, u, i));
    if w.entryPrice.None? {
      CleanedFrom(c, w, u, i);
    } else if gone.yes {
      CleanedFrom(c, w, gone.w, i);
    } else {
      WaitsIs(w, u, gone.w, i, prev);
    }
  }

  lemma CleanedFrom(c: Config, w: World, u: World, i: TickIn)
    requires u.skipLeft == w.skipLeft && u.entryPrice == w.entryPrice
    ensures CleansUp(c, w, i, CleanPendingFlip(c, u, i, i.regimeDir))
  {
    hide CleanPendingFlip, CleansUp;
    CleanPendingFlipLaw(c, u, i);
    CleansSame(c, w, u, i, CleanPendingFlip(c, u, i, i.regimeDir));
  }

  lemma ReadyKeeps(c: Config, w: World, bar: int)
    ensures var r := Ready(c, w, bar);
            && r.entryPrice == w.entryPrice && r.missing == w.missing && r.skipLeft == w.skipLeft && r.pendingFlip == w.pendingFlip
  {
  }

  lemma ReadySeen(c: Config, w: World, i: TickIn, bar: int)
    ensures SeenGone(c, Ready(c, w, bar), i) == SeenGone(c, w, i)
  {
    hide NoneProves;
  }

  lemma CleansSame(c: Config, w: World, u: World, i: TickIn, w1: World)
    requires u.skipLeft == w.skipLeft && u.entryPrice == w.entryPrice
    ensures CleansUp(c, u, i, w1) == CleansUp(c, w, i, w1)
  {
    hide ReverseLaw, Within;
  }

  lemma WaitsSame(w: World, r: World, i: TickIn, w1: World)
    requires r.entryPrice == w.entryPrice && r.lastBar == w.lastBar && r.missing == w.missing
    ensures Waits(r, w1, i) == Waits(w, w1, i)
  {
  }

  // ---- a position found at the broker ----

  /** A position the broker shows and the bot does not track is taken over. */
  lemma ResumesWhenShown(c: Config, w: World, i: TickIn, bar: int)
    requires Told(w) && OnNewBar(c, w, i, bar) && i.inHours && w.entryPrice.None? && ShowsOne(c, w, i)
    ensures exists past, e: Event :: e.Resumed? && Within(Then(past, e), Tick(c, w, i).history)
  {
    hide Tick, Act, ActSeen, BrokerPosition, Told, ShowsOne, Fitting, Seen, Within;
    TickActs(c, w, i, bar);
    ReadyShows(c, w, i, bar);
    var r := Ready(c, w, bar);
    ReadyTold(c, w, i, bar);
    LookFitting(c, i, r, c.isRegime);
    LookResumes(c, r, i);
    var s := BrokerPosition(c, r, c.isRegime, i);
    FittingTold(c, i, r, s.w);
    ActSeenFitting(c, s, i, bar, w.lastBar);
    var w1 := ActSeen(c, s, i, bar, w.lastBar);
    FittingSince(c, i, s.w, w1);
    BeforeIsWithin(c, i, s.w.history, w1.history);
    assert Act(c, r, i, bar, w.lastBar) == w1 by { ActIsSeen(c, r, i, bar, w.lastBar); }
    assert s.w.history == Then(s.w.history.past, s.w.history.last);
  }

  lemma ActIsSeen(c: Config, w: World, i: TickIn, bar: int, prev: Option<int>)
    ensures Act(c, w, i, bar, prev) == ActSeen(c, BrokerPosition(c, w, c.isRegime, i), i, bar, prev)
  {
    hide BrokerPosition, ActSeen;
  }

  lemma ReadyTold(c: Config, w: World, i: TickIn, bar: int)
    requires Told(w)
    ensures Told(Ready(c, w, bar))
  {
    hide Told, Fitting, Begin;
    var b := Begin(w);
    BeginFitting(c, w, i);
    MarkFitting(c, i, w, b, b.(compiled := w.compiled || c.graph, lastBar := Some(bar)));
    FittingTold(c, i, w, b.(compiled := w.compiled || c.graph, lastBar := Some(bar)));
    ReadyIs(c, w, bar);
  }

  lemma ReadyIs(c: Config, w: World, bar: int)
    ensures Ready(c, w, bar) == Begin(w).(compiled := w.compiled || c.graph, lastBar := Some(bar))
  {
  }

  lemma LookResumes(c: Config, w: World, i: TickIn)
    requires w.entryPrice.None? && ShowsOne(c, w, i)
    ensures var h := BrokerPosition(c, w, c.isRegime, i).w.history; h.Then? && h.last.Resumed?
  {
    hide CheckSide, WantedSide, NoneSuits, Find, Resume;
    WantIs(c, w, c.isRegime);
    FindSuits(i.check.positions, c.symbol, WantedSide(c, w.dir));
    var s := BrokerPosition(c, w, c.isRegime, i);
    var noted := Log(w.(missing := 0), Checked(i.check, CheckSide(c, w, c.isRegime))).(lastEmpty := NoPositions(i.check));
    assert s.w == Resume(c, noted, s.check.p, c.isRegime, i);
    ResumeLogs(c, noted, s.check.p, i);
  }

  lemma ResumeLogs(c: Config, w: World, p: Position, i: TickIn)
    ensures var h := Resume(c, w, p, c.isRegime, i).history; h.Then? && h.last.Resumed?
  {
  }

  // ---- a failed bot whose position is missing ----

  /** Booked right after the reply at h, and paused. */
  ghost predicate PausesAfter(c: Config, w: World, i: TickIn, h: History, w1: World) {
    && w1.entryPrice.None? && w1.paused && !w1.exitsOnly
    && exists ev, reason, qty, price ::
         && BookedFrom(c, w, i, ev, reason, qty, price) && w1.skipLeft == SkipsAfter(c, w.skipLeft, reason)
         && w1.history == Then(Then(Then(h, Gone(ev)), Booked(ExternalClose, reason, qty, price)), PausedForCode)
  }

  lemma AfterExternalCloseLaw(c: Config, w: World, w1: World, i: TickIn)
    requires w1 == w.(missing := w1.missing, lastEmpty := w1.lastEmpty, history := w1.history)
    requires w1.history.Then? && w1.history.last == Gone(EvidenceOf(FindFill(c, w, i)))
    ensures var d := AfterExternalClose(c, w1, FindFill(c, w, i), i);
            && d.entryPrice.None? && d.history.Then? && d.history.past == w1.history
            && d.history.last.Booked? && d.history.last.kind == ExternalClose
            && BookedFrom(c, w, i, EvidenceOf(FindFill(c, w, i)), d.history.last.reason, d.history.last.qty, d.history.last.price)
            && d.skipLeft == SkipsAfter(c, w.skipLeft, d.history.last.reason)
  {
    hide FindFill, BookedFrom, BookExternal, Forget, SkipsAfter;
    ExternalBooking(c, w, w1, i);
    ForgetSkips(BookExternal(c, w1, FindFill(c, w, i), i));
    ForgetIsFlat(BookExternal(c, w1, FindFill(c, w, i), i));
  }

  lemma ManageMissingLaw(c: Config, w: World, i: TickIn, bar: int)
    requires w.entryPrice.Some? && w.missing <= 1 && i.check.Ok? && w.lastEmpty == (i.check.positions == []) && !w.problem
    ensures var w1 := Settle(ManageMissing(c, w, i, bar), bar);
            && (SeenGone(c, w, i) ==> PausesAfter(c, w, i, w.history, w1))
            && (!SeenGone(c, w, i) ==>
                  && w1.entryPrice == w.entryPrice && w1.raised && w1.missing == w.missing + if i.check.positions == [] then 0 else 1)
  {
    hide FindFill, ConfirmGone, SeenGone, PausesAfter, ManageMissing, Settle;
    ConfirmIff(c, w, i);
    ManageMissingIs(c, w, i, bar);
    var gone := ConfirmGone(w, FindFill(c, w, i));
    if gone.yes { GonePauses(c, w, gone.w, i, bar); } else { KeptWaits(w, gone.w, i, bar); }
  }

  lemma ManageMissingIs(c: Config, w: World, i: TickIn, bar: int)
    requires w.entryPrice.Some?
    ensures var found := FindFill(c, w, i);
            var gone := ConfirmGone(w, found);
            && (gone.yes ==> ManageMissing(c, w, i, bar) == Answer(AfterExternalClose(c, gone.w, found, i), true))
            && (!gone.yes ==> ManageMissing(c, w, i, bar) == Answer(Problem(gone.w, bar), false))
  {
    hide FindFill, ConfirmGone, AfterExternalClose, Problem;
  }

  lemma GonePauses(c: Config, w: World, g: World, i: TickIn, bar: int)
    requires g == w.(missing := 0, history := Then(w.history, Gone(EvidenceOf(FindFill(c, w, i)))))
    ensures PausesAfter(c, w, i, w.history, Settle(Answer(AfterExternalClose(c, g, FindFill(c, w, i), i), true), bar))
  {
    hide FindFill, AfterExternalClose, BookedFrom, SkipsAfter, Settle;
    AfterExternalCloseLaw(c, w, g, i);
    var d := AfterExternalClose(c, g, FindFill(c, w, i), i);
    SettlePauses(Answer(d, true), bar);
    SettledHistory(d, bar);
    var e := d.history.last;
    assert e == Booked(ExternalClose, e.reason, e.qty, e.price);
    assert d.history == Then(Then(w.history, Gone(EvidenceOf(FindFill(c, w, i)))), e);
  }

  lemma KeptWaits(w: World, g: World, i: TickIn, bar: int)
    requires i.check.Ok? && g == w.(missing := w.missing + if i.check.positions == [] then 0 else 1)
    ensures var w1 := Settle(Answer(Problem(g, bar), false), bar);
            w1.entryPrice == w.entryPrice && w1.raised && w1.missing == w.missing + if i.check.positions == [] then 0 else 1
  {
    hide Settle;
    SettleMarks(Answer(Problem(g, bar), false), bar);
    SettledMissing(Problem(g, bar), bar);
  }

  lemma SettledHistory(w: World, bar: int)
    ensures Settle(Answer(w, true), bar).history == Then(w.history, PausedForCode)
  {
  }

  lemma SettledMissing(w: World, bar: int)
    ensures Settle(Answer(w, false), bar).missing == w.missing
  {
  }

  lemma FailedLookMisses(c: Config, w: World, i: TickIn, bar: int, regime: bool)
    requires regime == (if i.planLost then c.bidirectional else c.isRegime) && ShowsNone(AsPlanned(c, i), w, i)
    ensures ManageNow(c, w, i, bar, regime) == ManageMissing(c, Unseen(AsPlanned(c, i), w, i), i, bar)
  {
    hide CheckSide, WantedSide, NoneSuits, Find, ManageMissing;
    LookAs(c, w, regime);
    FindSuits(i.check.positions, c.symbol, WantedSide(AsPlanned(c, i), w.dir));
  }

  /** A failed bot gives a missing position up exactly as a working one does, and then pauses. */
  lemma FailedGoneIff(c: Config, w: World, i: TickIn, bar: int)
    requires c.graph && w.codeFailed && i.fetch == Some(bar) && w.entryPrice.Some? && !DoneWith(w, bar) && w.missing <= 1
    requires ShowsNone(AsPlanned(c, i), w, i)
    ensures var w1 := Tick(c, w, i);
            && (SeenGone(c, w, i) ==> PausesAfter(c, w, i, Unseen(AsPlanned(c, i), Begin(w), i).history, w1))
            && (!SeenGone(c, w, i) ==>
                  && w1.entryPrice == w.entryPrice && w1.raised
                  && w1.missing == w.missing + if i.check.Ok? && i.check.positions == [] then 0 else 1)
  {
    hide Tick, ManageNow, ManageMissing, Settle, SeenGone, PausesAfter, NoneSuits, WantedSide;
    var regime := if i.planLost then c.bidirectional else c.isRegime;
    FailedTickIs(c, w, i, bar, regime);
    var w0 := Begin(w).(problemBar := None);
    FailedLookMisses(c, w0, i, bar, regime);
    var u := Unseen(AsPlanned(c, i), w0, i);
    FailedUnseen(c, w, u, i);
    ShowsNoneIs(AsPlanned(c, i), w, i);
    hide Unseen;
    ManageMissingLaw(c, u, i, bar);
    MissingSame(c, w, u, i, u.history, Tick(c, w, i));
  }

  lemma FailedUnseen(c: Config, w: World, u: World, i: TickIn)
    requires u == Unseen(AsPlanned(c, i), Begin(w).(problemBar := None), i)
    ensures u.pendingId == w.pendingId && u.pendingReason == w.pendingReason && u.entryTime == w.entryTime && u.dir == w.dir
    ensures u.missing == w.missing && u.skipLeft == w.skipLeft && u.entryPrice == w.entryPrice && !u.problem
    ensures u.lastEmpty == (i.check.Ok? && i.check.positions == []) && u.history == Unseen(AsPlanned(c, i), Begin(w), i).history
  {
    hide WantedSide, AsPlanned, Unseen;
    UnseenFields(AsPlanned(c, i), Begin(w).(problemBar := None), i);
    UnseenFields(AsPlanned(c, i), Begin(w), i);
  }

  lemma UnseenFields(c: Config, w: World, i: TickIn)
    ensures var u := Unseen(c, w, i);
            && u.pendingId == w.pendingId && u.pendingReason == w.pendingReason && u.entryTime == w.entryTime && u.dir == w.dir
            && u.missing == w.missing && u.skipLeft == w.skipLeft && u.entryPrice == w.entryPrice && u.problem == w.problem
            && u.lastEmpty == (i.check.Ok? && i.check.positions == [])
            && u.history == Then(w.history, Checked(i.check, WantedSide(c, w.dir)))
  {
    hide WantedSide;
  }

  lemma MissingSame(c: Config, w: World, u: World, i: TickIn, h: History, w1: World)
    requires u.pendingId == w.pendingId && u.pendingReason == w.pendingReason && u.entryTime == w.entryTime && u.dir == w.dir
    requires u.missing == w.missing && u.skipLeft == w.skipLeft
    ensures SeenGone(c, u, i) == SeenGone(c, w, i) && PausesAfter(c, u, i, h, w1) == PausesAfter(c, w, i, h, w1)
  {
    hide NoneProves, SkipsAfter, BookedFrom;
    forall ev, reason, qty, price
      ensures BookedFrom(c, u, i, ev, reason, qty, price) == BookedFrom(c, w, i, ev, reason, qty, price)
    {
      BookedSame(c, w, u, i, ev, reason, qty, price);
    }
  }

  /** A failed bot that tracks nothing pauses at once when it can hold nothing it does not know of, else
      exactly at the second reply that lists other positions. */
  lemma UntrackedPausesIff(c: Config, w: World, i: TickIn, bar: int)
    requires c.graph && w.codeFailed && i.fetch == Some(bar) && w.entryPrice.None? && !DoneWith(w, bar) && !w.paused
    requires ShowsNone(AsPlanned(c, i), w, i)
    ensures Tick(c, w, i).paused <==> !w.mayHold || (i.check.Ok? && i.check.positions != [] && w.missing >= 1)
  {
    hide Tick, ManageNow, NoneSuits, WantedSide, Settle, ManageMissing;
    var regime := if i.planLost then c.bidirectional else c.isRegime;
    FailedTickIs(c, w, i, bar, regime);
    var w0 := Begin(w).(problemBar := None);
    FailedLookMisses(c, w0, i, bar, regime);
    UntrackedSettles(c, Unseen(AsPlanned(c, i), w0, i), i, bar);
  }

  lemma UntrackedSettles(c: Config, w: World, i: TickIn, bar: int)
    requires w.entryPrice.None? && w.codeFailed && !w.paused
    ensures Settle(ManageMissing(c, w, i, bar), bar).paused <==> !w.mayHold || (!w.lastEmpty && w.missing >= 1)
  {
    hide ManageTrackedMissing, ManageUntracked, Settle;
    RunnerSafety.UntrackedIs(w, bar);
    SettledPaused(ManageUntracked(w, bar), bar);
  }

  lemma SettledPaused(m: Answer, bar: int)
    ensures Settle(m, bar).paused == (m.yes || m.w.paused)
  {
  }

  // ---- a graph bot whose reference series is down ----

  /** A new bar whose signals cannot be known for want of a reference series. */
  predicate WithoutReference(c: Config, w: World, i: TickIn, bar: int) {
    c.graph && i.fetch == Some(bar) && w.lastBar != Some(bar) && !w.codeFailed && (w.compiled || i.compile.Compiles?) && i.referenceDown
  }

  /** The price exits run all the same; the tick raises. */
  lemma ReferenceDownIff(c: Config, w: World, i: TickIn, bar: int)
    requires WithoutReference(c, w, i, bar) && w.entryPrice.Some? && !DoneWith(w, bar)
    requires i.check.Unavailable? || ShowsOne(c, w, i)
    ensures exists hold, due, m :: BarFinds(c, w, i, bar, hold, due) && Managed(c, i, w, bar, hold, due, i.check.Ok?, m)
                                   && Tick(c, w, i) == m.w.(raised := true)
  {
    hide Tick, ManageNow, BarFinds, Managed, NoneSuits, WantedSide;
    var w0 := Begin(w).(compiled := true, problemBar := None);
    ReferenceTickIs(c, w, i, bar);
    ShowsAsRegime(c, w, w0, i);
    ManageNowLaw(c, w0, i, bar, c.isRegime);
    var m := ManageNow(c, w0, i, bar, c.isRegime);
    var hold, due :| BarFinds(c, w0, i, bar, hold, due) && Managed(c, i, w0, bar, hold, due, i.check.Ok?, m);
    FindsSame(c, w, w0, i, bar, hold, due);
    ManagedSame(c, i, w, w0, bar, hold, due, i.check.Ok?, m);
  }

  lemma ShowsAsRegime(c: Config, w: World, w0: World, i: TickIn)
    requires w0.dir == w.dir
    ensures ShowsOne(AsRegime(c, c.isRegime), w0, i) == ShowsOne(c, w, i)
  {
    hide NoneSuits;
  }

  lemma ReferenceTickIs(c: Config, w: World, i: TickIn, bar: int)
    requires WithoutReference(c, w, i, bar) && w.entryPrice.Some? && !DoneWith(w, bar)
    ensures Tick(c, w, i) == ManageNow(c, Begin(w).(compiled := true, problemBar := None), i, bar, c.isRegime).w.(raised := true)
  {
    hide Working, ManageNow, NewBar;
    TickWorks(c, w, i);
    hide Tick;
    var b := Begin(w).(compiled := true);
    WorksOnBars(c, Begin(w), i, b);
    assert b.(problem := false) == b && b.(problem := false, problemBar := None) == b.(problemBar := None);
    assert Bars(c, b, i) == Manage(c, b, i, bar, c.isRegime).w.(raised := true);
    assert Begin(w).(compiled := w.compiled || c.graph) == b;
  }

  // ---- when the code fails ----

  /** The code of a graph bot fails in a tick exactly when the compiler refuses it, or a new bar's code
      raises. */
  lemma CodeFailsIff(c: Config, w: World, i: TickIn)
    requires RunnerSafety.Inv(c, w) && !w.codeFailed
    ensures Tick(c, w, i).codeFailed <==>
              && c.graph && (i.inHours || w.entryPrice.Some?)
              && ((!w.compiled && i.compile.CodeRefused?)
                  || ((w.compiled || i.compile.Compiles?) && i.fetch.Some? && w.lastBar != i.fetch && !i.referenceDown && i.cook.CodeError?))
  {
    hide Tick, Working, RunnerSafety.Inv;
    if !i.inHours && w.entryPrice.None? {
      TickOutOfHours(c, w, i);
    } else {
      TickWorks(c, w, i);
      RunnerSafety.BeginSafe(c, w);
      WorkingFailsIff(c, Begin(w), i);
    }
  }

  lemma WorkingFailsIff(c: Config, w: World, i: TickIn)
    requires RunnerSafety.Inv(c, w) && !w.codeFailed
    ensures Working(c, w, i).codeFailed <==>
              && c.graph
              && ((!w.compiled && i.compile.CodeRefused?)
                  || ((w.compiled || i.compile.Compiles?) && i.fetch.Some? && w.lastBar != i.fetch && !i.referenceDown && i.cook.CodeError?))
  {
    hide Working, Bars, RunnerSafety.Inv;
    if !c.graph || w.compiled || i.compile.Compiles? {
      WorksOnBars(c, w, i, w.(compiled := w.compiled || c.graph));
      CompiledInv(c, w);
      BarsFailIff(c, w.(compiled := w.compiled || c.graph), i);
    } else {
      UncompiledFailsIff(c, w, i);
    }
  }

  lemma CompiledInv(c: Config, w: World)
    requires RunnerSafety.Inv(c, w)
    ensures RunnerSafety.Inv(c, w.(compiled := w.compiled || c.graph))
  {
    hide RunnerSafety.Safe, RunnerSafety.SafeThen, RunnerSafety.Sum, RunnerSafety.SumThen;
  }

  lemma UncompiledFailsIff(c: Config, w: World, i: TickIn)
    requires RunnerSafety.Inv(c, w) && !w.codeFailed && c.graph && !w.compiled && !i.compile.Compiles?
    ensures Working(c, w, i).codeFailed <==> i.compile.CodeRefused?
  {
    hide Working, Bars, CodeTick, EnterCodeFailure, RunnerSafety.Inv;
    WorkingCases(c, w, i);
    RunnerSafety.EnterCodeFailureSafe(c, w);
    RunnerSafety.CodeTickSafe(c, EnterCodeFailure(w), i);
  }

  lemma BarsFailIff(c: Config, w: World, i: TickIn)
    requires RunnerSafety.Inv(c, w) && !w.codeFailed
    ensures Bars(c, w, i).codeFailed <==>
              c.graph && i.fetch.Some? && w.lastBar != i.fetch && !i.referenceDown && i.cook.CodeError?
  {
    hide RunnerSafety.Inv, Manage, NewBar;
    if i.fetch.Some? {
      ManageFailsNot(c, w, i, i.fetch.value);
      NewBarFailsIff(c, w, i, i.fetch.value);
    }
  }

  lemma NewBarFailsIff(c: Config, w: World, i: TickIn, bar: int)
    requires RunnerSafety.Inv(c, w) && !w.codeFailed
    ensures NewBar(c, w, i, bar).codeFailed <==> c.graph && i.cook.CodeError?
  {
    hide RunnerSafety.Inv, ManageAfterFailure, Act, EnterCodeFailure;
    ActFailsNot(c, w, i, bar);
    if c.graph { FailureFails(c, w, i, bar); }
  }

  lemma ManageFailsNot(c: Config, w: World, i: TickIn, bar: int)
    requires RunnerSafety.Inv(c, w) && !w.codeFailed
    ensures !Manage(c, w, i, bar, c.isRegime).w.codeFailed
  {
    hide RunnerSafety.Inv, Manage;
    RunnerSafety.ManageSafe(c, w, i, bar, c.isRegime);
  }

  lemma ActFailsNot(c: Config, w: World, i: TickIn, bar: int)
    requires RunnerSafety.Inv(c, w) && !w.codeFailed
    ensures !Act(c, w.(lastBar := Some(bar)), i, bar, w.lastBar).codeFailed
  {
    hide RunnerSafety.Inv, Act;
    RunnerSafety.MarksSafe(c, w, w.(lastBar := Some(bar)));
    RunnerSafety.ActSafe(c, w.(lastBar := Some(bar)), i, bar, w.lastBar);
  }

  lemma FailureFails(c: Config, w: World, i: TickIn, bar: int)
    requires RunnerSafety.Inv(c, w) && c.graph
    ensures ManageAfterFailure(c, EnterCodeFailure(w), i, bar, c.isRegime).codeFailed
  {
    hide RunnerSafety.Inv, ManageAfterFailure, EnterCodeFailure;
    RunnerSafety.EnterCodeFailureSafe(c, w);
    RunnerSafety.ManageAfterFailureSafe(c, EnterCodeFailure(w), i, bar, c.isRegime);
  }
}
