/** What a tick does, against what it was told: every event of a run fits the input of the tick it
    happened in and what the history says of the position, its pending flip and the closes sent before.
    What "fits" means is said without the functions of the tick. */
module RunnerInputs {
  import opened BotTypes
  import opened PriceExits
  import opened ExitLaws
  import opened RunnerSpec
  import RunnerSafety
  import opened RunnerTheorems

  // ---- reading a history ----

  /** A tracked position: what the exits know of it, and its recorded direction. */
  datatype Held = Held(hold: Hold, dir: Option<Side>)

  /** The bars, the stop and the direction of a flat bot. */
  datatype Rest = Rest(bars: int, stop: Option<real>, dir: Option<Side>)

  const NOTHING := Rest(0, None, None)

  datatype Known = Known(
    held: Option<Held>,                     // the position tracked
    flip: bool,                             // a flip is pending
    rest: Rest,                             // without one: what a bot that begins flat was saved with
    want: Option<Side>,                     // the side the broker was last asked for
    asked: set<(int, Reason)>,              // exits attempted, with their bars
    sent: set<(int, Option<Reason>)>)       // closes sent, or pending when the run began, with their reasons

  function Start(s: Saved): Known {
    Known(if s.entryPrice.Some? then Some(Held(Hold(s.entryPrice.value, s.barCount, s.trailPeak, s.trailStop), s.dir)) else None,
          s.pendingFlip, if s.entryPrice.Some? then NOTHING else Rest(s.barCount, s.trailStop, s.dir), None, {}, if s.pendingId.Some? then {(s.pendingId.value, s.pendingReason)} else {})
  }

  function Add(k: Known, e: Event): Known {
    match e
    case Checked(_, want) => k.(want := want)
    case AskedAtExit(_, _, why, bar) => k.(asked := k.asked + {(bar, why)})
    case Evaluated(_, _, _, hold) => k.(held := if k.held.Some? then Some(k.held.value.(hold := hold)) else None)
    case CloseAccepted(_, why, _, id) => k.(sent := k.sent + {(id, Some(why))})
    case Booked(kind, _, _, _) => k.(held := None, flip := k.flip && kind != FlipClose, rest := NOTHING)
    case SideCleared => k.(held := None, rest := NOTHING)
    case FlipCleaned(_) => k.(held := None, flip := false, rest := NOTHING)
    case FlipLeft => k.(flip := true)
    case Entered(side, _, _, price) => k.(held := Some(Held(Hold(price, 0, Some(price), None), Some(side))))
    case Resumed(_, dir, _, hold) => k.(held := Some(Held(hold, dir)))
    case _ => k
  }

  function KnownOf(h: History): Known
    decreases h, 0
  {
    match h
    case Began(s) => Start(s)
    case Then(past, e) => KnownThen(past, e)
  }

  // Apart, so that the verifier opens only the events a proof is about.
  function KnownThen(past: History, e: Event): Known
    decreases past, 1
  {
    Add(KnownOf(past), e)
  }

  lemma Grows(h: History, e: Event)
    ensures KnownOf(Then(h, e)) == Add(KnownOf(h), e)
  {
    assert KnownThen(h, e) == Add(KnownOf(h), e);
  }

  // ---- what fits an input ----

  predicate Suits(p: Position, symbol: string, want: Option<Side>) {
    p.symbol == symbol && (want.None? || want == Some(p.side))
  }

  /** The first position on the symbol, and on the wanted side. */
  predicate IsFirst(ps: seq<Position>, symbol: string, want: Option<Side>, p: Position) {
    Suits(p, symbol, want)
    && exists n | 0 <= n < |ps| :: ps[n] == p && forall j | 0 <= j < n :: !Suits(ps[j], symbol, want)
  }

  predicate NoneSuits(ps: seq<Position>, symbol: string, want: Option<Side>) {
    forall p <- ps :: !Suits(p, symbol, want)
  }

  /** The side the broker is asked for: the recorded direction of a bot that can hold either, no side
      of such a bot without one, else the bot's own. */
  function WantedSide(c: Config, dir: Option<Side>): Option<Side> {
    if !c.isRegime && !c.bidirectional then Some(c.direction)
    else if dir.Some? then dir
    else if c.bidirectional then None else Some(c.direction)
  }

  function HeldSide(c: Config, p: Held): Side {
    match p.dir
    case Some(side) => side
    case None => c.direction
  }

  predicate JustEvaluated(h: History) {
    h.Then? && h.last.Evaluated? && h.last.due.Some?
  }

  /** An exit for this reason on this bar: the one just found due, a sell signal, or one attempted
      before on the same bar. */
  predicate Reasoned(i: TickIn, past: History, bar: int, why: Reason) {
    if JustEvaluated(past) then past.last.bar == bar && past.last.due == Some(why)
    else (why == Signal && i.sellSignal) || (bar, why) in KnownOf(past).asked
  }

  predicate AskFits(c: Config, i: TickIn, past: History, reply: Reply, side: Side, why: Reason, bar: int) {
    var held := KnownOf(past).held;
    && reply == i.verify && held.Some? && side == HeldSide(c, held.value) && i.fetch == Some(bar) && Reasoned(i, past, bar, why)
  }

  /** The bar counted and the exit due are those of the law, under the settings in force. */
  ghost predicate EvaluationFits(c: Config, i: TickIn, past: History, bar: int, due: Option<Reason>, limit: Option<int>, hold: Hold) {
    var held := KnownOf(past).held;
    && held.Some? && i.fetch == Some(bar)
    && var short := HeldSide(c, held.value) == Short;
       exists r: Rules ::
         && InForce(i.settings, held.value.dir, r) && limit == r.maxBars
         && BarLaw(held.value.hold, hold, r, short, i.quote) && ExitLaw(hold, r, short, i.quote.price, due)
  }

  /** A regime bot's flip: one is pending, or the regime has left the recorded direction. */
  predicate Flips(c: Config, i: TickIn, k: Known) {
    c.isRegime && k.held.Some?
    && (k.flip || (k.held.value.dir.Some? && i.regimeDir != k.held.value.dir && c.onFlip != HoldOn))
  }

  predicate CloseFits(c: Config, i: TickIn, past: History, bar: int, why: Reason, onSide: Option<Side>, id: int) {
    var k := KnownOf(past);
    && i.close == Accepted(id) && i.fetch == Some(bar) && k.held.Some?
    && if why == RegimeFlip then
         Flips(c, i, k) && onSide == k.held.value.dir && i.check.Ok? && !NoneSuits(i.check.positions, c.symbol, k.want)
       else
         && onSide == Some(HeldSide(c, k.held.value))
         && past.Then? && past.last == AskedAtExit(i.verify, HeldSide(c, k.held.value), why, bar)
         && i.verify.Ok? && exists p <- i.verify.positions ::
              IsFirst(i.verify.positions, c.symbol, None, p) && p.side == HeldSide(c, k.held.value)
  }

  /** The looks at the broker since the close. */
  function Polls(h: History): nat {
    if h.Then? && h.last.PolledAfterClose? then Polls(h.past) + 1 else 0
  }

  /** The close they are for. */
  function ClosePolled(h: History): Option<Event> {
    if h.Began? then None
    else if h.last.PolledAfterClose? then ClosePolled(h.past)
    else if h.last.CloseAccepted? then Some(h.last) else None
  }

  predicate PollFits(c: Config, i: TickIn, past: History, reply: Reply, side: Option<Side>) {
    var n := Polls(past);
    && n < 6 && reply == (if n < |i.post| then i.post[n] else Unavailable)
    && ClosePolled(past).Some? && ClosePolled(past).value.CloseAccepted? && ClosePolled(past).value.onSide == side
    && (n > 0 ==> && past.last.PolledAfterClose? && past.last.reply.Ok?
                  && exists p <- past.last.reply.positions :: p.symbol == c.symbol && Some(p.side) == side)
  }

  /** The last look at the broker after the close on this side no longer shows the position. */
  predicate GoneAtPoll(c: Config, past: History, why: Reason) {
    && ClosePolled(past).Some? && ClosePolled(past).value.CloseAccepted? && ClosePolled(past).value.why == why
    && past.Then? && past.last.PolledAfterClose? && past.last.reply.Ok?
    && forall p <- past.last.reply.positions :: p.symbol == c.symbol ==> Some(p.side) != ClosePolled(past).value.onSide
  }

  /** An order that can have closed a position of the side. */
  predicate Closes(o: Order, side: Side) {
    o.side == (match side case Long => Sell case Short => Buy) && o.avgPrice.Some? && o.avgPrice.value != 0.0
  }

  predicate Shows(o: Order, ev: Evidence, side: Side) {
    match ev
    case ByOwnOrder(id) => Closes(o, side) && o.id == id
    case ByFill(os, at, _) => Closes(o, side) && o.side == os && o.filledAt == Some(at)
    case ByTwoReplies => false
  }

  predicate GoneFits(c: Config, i: TickIn, past: History, ev: Evidence) {
    var held := KnownOf(past).held;
    && held.Some? && i.check.Ok? && NoneSuits(i.check.positions, c.symbol, KnownOf(past).want)
    && match ev
       case ByTwoReplies => i.check.positions != []
       case _ => i.fills.Fills? && exists o <- i.fills.orders :: Shows(o, ev, HeldSide(c, held.value))
  }

  function KindReason(k: OrderKind): Reason {
    match k
    case Stop => StopLoss
    case StopLimit => StopLoss
    case TrailStop => TrailingStop
    case OtherKind => External
  }

  /** The booking of an order found: its price and quantity, and the reason its close was sent for, or
      what its kind says. */
  predicate OrderBooked(k: Known, o: Order, ev: Evidence, reason: Reason, qty: real, price: real) {
    && qty == o.qty && o.avgPrice == Some(price)
    && if ev.ByOwnOrder? then (o.id, Some(reason)) in k.sent || ((o.id, None) in k.sent && reason == KindReason(o.kind))
       else reason == KindReason(o.kind)
  }

  predicate ExternalFits(c: Config, i: TickIn, past: History, reason: Reason, qty: real, price: real) {
    var k := KnownOf(past);
    && past.Then? && past.last.Gone? && k.held.Some?
    && match past.last.evidence
       case ByTwoReplies => reason == External && qty == 0.0 && price == i.quote.price
       case ev => i.fills.Fills? && exists o <- i.fills.orders :: Shows(o, ev, HeldSide(c, k.held.value)) && OrderBooked(k, o, ev, reason, qty, price)
  }

  /** The quantity of the position a reply lists, whatever its sign. */
  predicate QtyListed(reply: Reply, symbol: string, want: Option<Side>, qty: real) {
    reply.Ok? && exists p <- reply.positions :: IsFirst(reply.positions, symbol, want, p) && (qty == p.qty || qty == -p.qty) && qty >= 0.0
  }

  predicate BookingFits(c: Config, i: TickIn, past: History, kind: BookKind, reason: Reason, qty: real, price: real) {
    match kind
    case ExternalClose => ExternalFits(c, i, past, reason, qty, price)
    case OwnClose => price == i.exitFill && GoneAtPoll(c, past, reason) && QtyListed(i.verify, c.symbol, None, qty)
    case FlipClose =>
      price == i.exitFill && reason == RegimeFlip && GoneAtPoll(c, past, reason) && QtyListed(i.check, c.symbol, KnownOf(past).want, qty)
  }

  /** The last thing done was the end of a flip. */
  predicate Reverses(past: History) {
    past.Then? && (past.last.FlipCleaned? || (past.last.Booked? && past.last.kind == FlipClose))
  }

  /** An entry is wanted: by the buy signal, with nothing that blocks it, or after a flip that reverses. */
  predicate Wanted(c: Config, i: TickIn, past: History) {
    && i.inHours && (c.isRegime ==> i.regimeDir.Some?)
    && if Reverses(past) then c.isRegime && c.onFlip == CloseAndReverse else i.buySignal && !i.entryBlocked
  }

  /** The side an entry goes out on: the regime's, or the bot's own. */
  predicate OwnWay(c: Config, i: TickIn, side: Side) {
    if c.isRegime then i.regimeDir == Some(side) else side == c.direction
  }

  /** The first position listed on the symbol, if any, is on the side of a bot that holds one side only. */
  predicate Room(c: Config, ps: seq<Position>, side: Side) {
    forall n | 0 <= n < |ps| && ps[n].symbol == c.symbol && (forall j | 0 <= j < n :: ps[j].symbol != c.symbol) ::
      !c.bidirectional && ps[n].side == side
  }

  predicate EntryFits(c: Config, i: TickIn, past: History, side: Side, at: real, price: real) {
    && past.Then? && past.last.CandidatePassed? && Wanted(c, i, past.past)
    && at == i.now && i.entry == Filled(price) && !i.entryBlocked && OwnWay(c, i, side)
    && (Reverses(past.past) || (i.spreadOk && i.entryCheck.Ok? && Room(c, i.entryCheck.positions, side)))
  }

  predicate ResumeFits(c: Config, i: TickIn, past: History, at: real, dir: Option<Side>, hold: Hold) {
    var k := KnownOf(past);
    && k.held.None? && at == i.now && i.check.Ok? && hold.peak == Some(i.quote.price)
    && exists p <- i.check.positions ::
         && IsFirst(i.check.positions, c.symbol, k.want, p) && hold.entry == p.avgEntry
         && exists rest <- [k.rest, NOTHING] ::
              && hold.bars == rest.bars && hold.stop == rest.stop
              && (!i.planLost ==> dir == if (c.isRegime || c.bidirectional) && rest.dir.None? then Some(p.side) else rest.dir)
  }

  /** e fits the input of the tick it happened in, after past. */
  ghost predicate Fits(c: Config, i: TickIn, past: History, e: Event) {
    match e
    case Checked(reply, want) =>
      reply == i.check && (KnownOf(past).held.Some? && !i.planLost ==> want == WantedSide(c, KnownOf(past).held.value.dir))
    case AskedAtExit(reply, side, why, bar) => AskFits(c, i, past, reply, side, why, bar)
    case PolledAfterClose(reply, side) => PollFits(c, i, past, reply, side)
    case Evaluated(bar, due, limit, hold) => EvaluationFits(c, i, past, bar, due, limit, hold)
    case CloseAccepted(bar, why, onSide, id) => CloseFits(c, i, past, bar, why, onSide, id)
    case CloseRefused => i.close.Refused?
    case Gone(ev) => GoneFits(c, i, past, ev)
    case Booked(kind, reason, qty, price) => BookingFits(c, i, past, kind, reason, qty, price)
    case FlipCleaned(_) => c.isRegime && KnownOf(past).flip && i.check.Ok? && NoneSuits(i.check.positions, c.symbol, KnownOf(past).want)
    case FlipLeft => Flips(c, i, KnownOf(past))
    case CandidateSkipped => Wanted(c, i, past)
    case CandidatePassed => Wanted(c, i, past)
    case Entered(side, at, _, price) => EntryFits(c, i, past, side, at, price)
    case Resumed(at, dir, _, hold) => ResumeFits(c, i, past, at, dir, hold)
    case CodeFailed(_, _, _) => c.graph && (i.cook.CodeError? || i.compile.CodeRefused?)
    case _ => true
  }

  /** h goes on from h0 with events that fit. */
  ghost predicate FitsSince(c: Config, i: TickIn, h0: History, h: History) {
    h == h0 || (h.Then? && Fits(c, i, h.past, h.last) && FitsSince(c, i, h0, h.past))
  }

  lemma {:induction false} FitsTwice(c: Config, i: TickIn, a: History, b: History, d: History)
    requires FitsSince(c, i, a, b) && FitsSince(c, i, b, d)
    ensures FitsSince(c, i, a, d)
    decreases d
  {
    hide Fits;
    if b != d { FitsTwice(c, i, a, b, d.past); }
  }

  lemma {:induction false} AskedStays(c: Config, i: TickIn, a: History, b: History)
    requires FitsSince(c, i, a, b)
    ensures KnownOf(a).asked <= KnownOf(b).asked
    decreases b
  {
    hide Fits, KnownOf, KnownThen;
    if a != b {
      Grows(b.past, b.last);
      AskedStays(c, i, a, b.past);
    }
  }

  // ---- how the runner's fields go with what is known ----

  function HeldOf(w: World): Option<Held> {
    if w.entryPrice.None? then None
    else Some(Held(Hold(w.entryPrice.value, w.barCount, w.trailPeak, w.trailStop), w.dir))
  }

  function RestOf(w: World): Rest {
    Rest(w.barCount, w.trailStop, w.dir)
  }

  /** But for the exit kept for a bar. */
  predicate Agrees(w: World, k: Known) {
    && k.held == HeldOf(w) && k.flip == w.pendingFlip && w.missing <= 1
    && (w.entryPrice.None? ==> RestOf(w) == k.rest || RestOf(w) == NOTHING)
    && (w.pendingId.Some? ==> (w.pendingId.value, w.pendingReason) in k.sent)
  }

  predicate Kept(w: World, k: Known) {
    w.exitsReason.Some? ==>
      w.exitsReason != Some(RegimeFlip) && w.exitsBar.Some? && (w.exitsBar.value, w.exitsReason.value) in k.asked
  }

  predicate Told(w: World) {
    Agrees(w, KnownOf(w.history)) && Kept(w, KnownOf(w.history))
  }

  /** A step whose events fit. */
  ghost predicate Fitting(c: Config, i: TickIn, w: World, w1: World) {
    FitsSince(c, i, w.history, w1.history) && Told(w1)
  }

  lemma FittingTwice(c: Config, i: TickIn, a: World, b: World, d: World)
    requires Fitting(c, i, a, b) && Fitting(c, i, b, d)
    ensures Fitting(c, i, a, d)
  {
    hide Fits, Told;
    FitsTwice(c, i, a.history, b.history, d.history);
  }

  /** The fields it looks at. */
  predicate SameFields(w: World, w1: World) {
    && w1.history == w.history && HeldOf(w1) == HeldOf(w) && RestOf(w1) == RestOf(w) && w1.pendingFlip == w.pendingFlip
    && w1.pendingId == w.pendingId && w1.pendingReason == w.pendingReason && w1.missing <= w.missing
  }

  predicate Unmoved(w: World, w1: World) {
    SameFields(w, w1) && w1.exitsReason == w.exitsReason && w1.exitsBar == w.exitsBar
  }

  lemma SameFitting(c: Config, i: TickIn, w: World, w1: World)
    requires Told(w) && SameFields(w, w1) && (w1.exitsReason.None? || (w1.exitsReason == w.exitsReason && w1.exitsBar == w.exitsBar))
    ensures Fitting(c, i, w, w1)
  {
    hide KnownOf, KnownThen;
  }

  lemma OneFits(c: Config, i: TickIn, h: History, e: Event)
    requires Fits(c, i, h, e)
    ensures FitsSince(c, i, h, Then(h, e))
  {
    hide Fits;
    assert FitsSince(c, i, h, h);
  }

  // ---- a look at the broker ----

  lemma {:induction false} FindIsFirst(ps: seq<Position>, symbol: string, want: Option<Side>)
    ensures match Find(ps, symbol, want)
            case Some(p) => IsFirst(ps, symbol, want, p) && p in ps
            case None => NoneSuits(ps, symbol, want)
  {
    if ps != [] {
      FindIsFirst(ps[1..], symbol, want);
      if !Suits(ps[0], symbol, want) {
        assert ps == [ps[0]] + ps[1..];
        var f := Find(ps[1..], symbol, want);
        if f.Some? {
          var n :| 0 <= n < |ps| - 1 && ps[1..][n] == f.value && forall j | 0 <= j < n :: !Suits(ps[1..][j], symbol, want);
          assert ps[n + 1] == f.value;
          forall j | 0 <= j < n + 1 ensures !Suits(ps[j], symbol, want) {
            if j > 0 { assert ps[j] == ps[1..][j - 1]; }
          }
        }
      } else {
        var n := 0;
        assert ps[n] == ps[0];
      }
    }
  }

  lemma WantIs(c: Config, w: World, regime: bool)
    requires regime == c.isRegime
    ensures CheckSide(c, w, regime) == WantedSide(c, w.dir)
  {
  }

  /** The reply is in the history, and nothing else changed. */
  lemma CheckedFits(c: Config, i: TickIn, w: World, regime: bool)
    requires Told(w) && (regime == c.isRegime || i.planLost)
    ensures Fits(c, i, w.history, Checked(i.check, CheckSide(c, w, regime)))
  {
    hide KnownOf, KnownThen, CheckSide;
    if regime == c.isRegime { WantIs(c, w, regime); }
  }

  lemma CheckedTold(w: World, w0: World, r: Reply, want: Option<Side>)
    requires Told(w) && Unmoved(w, w0)
    ensures var w1 := Log(w0, Checked(r, want));
            Told(w1) && KnownOf(w1.history).want == want && !JustEvaluated(w1.history) && !Reverses(w1.history) && w1.history == Then(w.history, Checked(r, want))
  {
    hide KnownOf, KnownThen;
    Grows(w.history, Checked(r, want));
  }

  lemma ResumeFitting(c: Config, i: TickIn, w: World, p: Position, regime: bool)
    requires Told(w) && w.entryPrice.None? && (regime == c.isRegime || i.planLost)
    requires KnownOf(w.history).want == CheckSide(c, w, regime) && i.check.Ok?
    requires IsFirst(i.check.positions, c.symbol, CheckSide(c, w, regime), p) && p in i.check.positions
    ensures Fitting(c, i, w, Resume(c, w, p, regime, i))
  {
    hide KnownOf, KnownThen, IsFirst;
    var e := Resume(c, w, p, regime, i).history.last;
    Grows(w.history, e);
    ResumedRest(c, i, w, p, regime);
    OneFits(c, i, w.history, e);
  }

  lemma ResumedRest(c: Config, i: TickIn, w: World, p: Position, regime: bool)
    requires regime == c.isRegime || i.planLost
    ensures var e := Resume(c, w, p, regime, i).history.last;
            && e.hold.bars == RestOf(w).bars && e.hold.stop == RestOf(w).stop
            && (!i.planLost ==> e.dir == if (c.isRegime || c.bidirectional) && RestOf(w).dir.None? then Some(p.side) else RestOf(w).dir)
  {
  }

  /** The reply lists no position on the wanted side. */
  predicate Absent(c: Config, i: TickIn, w: World) {
    i.check.Ok? && NoneSuits(i.check.positions, c.symbol, KnownOf(w.history).want) && w.lastEmpty == (i.check.positions == [])
  }

  /** What a look at the broker shows, and what it leaves behind. */
  predicate Seen(c: Config, i: TickIn, w: World, check: Check) {
    && !JustEvaluated(w.history) && !Reverses(w.history)
    && (check.Missing? ==> Absent(c, i, w))
    && (check.Listed? ==>
          && w.entryPrice.Some? && i.check.Ok? && check.p in i.check.positions
          && IsFirst(i.check.positions, c.symbol, KnownOf(w.history).want, check.p))
  }

  lemma NoteFitting(c: Config, i: TickIn, w: World, check: Check, regime: bool)
    requires Told(w) && (regime == c.isRegime || i.planLost) && !JustEvaluated(w.history) && !Reverses(w.history)
    requires KnownOf(w.history).want == CheckSide(c, w, regime) && check == ReadReply(i.check, c.symbol, CheckSide(c, w, regime))
    ensures var w1 := NoteReply(c, w, check, regime, i); Fitting(c, i, w, w1) && Seen(c, i, w1, check)
  {
    hide KnownOf, KnownThen, Resume, NoteReply, CheckSide, Fitting, NoPositions, Find, NoneSuits, IsFirst, Told, HeldOf;
    if i.check.Ok? { FindIsFirst(i.check.positions, c.symbol, CheckSide(c, w, regime)); }
    if check.Listed? {
      assert check == Listed(check.p);
      RunnerSafety.NoteReplyIs(c, w, check.p, regime, i);
      var noted := w.(lastEmpty := NoPositions(i.check));
      NotedFields(c, w, noted, regime);
      SameFitting(c, i, w, noted);
      if w.entryPrice.None? {
        FittingTold(c, i, w, noted);
        ResumeFitting(c, i, noted, check.p, regime);
        FittingTwice(c, i, w, noted, Resume(c, noted, check.p, regime, i));
        ResumeLeaves(c, noted, check.p, regime, i);
      }
    } else {
      NoteElse(c, w, check, regime, i);
      SameFitting(c, i, w, NoteReply(c, w, check, regime, i));
    }
  }

  lemma IsFitting(c: Config, i: TickIn, w: World, w1: World)
    requires FitsSince(c, i, w.history, w1.history) && Told(w1)
    ensures Fitting(c, i, w, w1)
  {
  }

  lemma FittingTold(c: Config, i: TickIn, w: World, w1: World)
    requires Fitting(c, i, w, w1)
    ensures Told(w1)
  {
  }

  lemma NotedFields(c: Config, w: World, noted: World, regime: bool)
    requires noted == w.(lastEmpty := noted.lastEmpty)
    ensures SameFields(w, noted) && CheckSide(c, noted, regime) == CheckSide(c, w, regime)
  {
  }

  lemma ResumeLeaves(c: Config, w: World, p: Position, regime: bool, i: TickIn)
    ensures var w1 := Resume(c, w, p, regime, i);
            w1.entryPrice.Some? && !JustEvaluated(w1.history) && !Reverses(w1.history) && KnownOf(w1.history).want == KnownOf(w.history).want
  {
    hide KnownOf, KnownThen;
    Grows(w.history, Resume(c, w, p, regime, i).history.last);
  }

  lemma NoteElse(c: Config, w: World, check: Check, regime: bool, i: TickIn)
    requires !check.Listed?
    ensures var w1 := NoteReply(c, w, check, regime, i);
            Unmoved(w, w1) && (check.Missing? ==> w1.lastEmpty == (i.check.Ok? && i.check.positions == []))
  {
  }

  lemma LookFitting(c: Config, i: TickIn, w: World, regime: bool)
    requires Told(w) && (regime == c.isRegime || i.planLost)
    ensures var s := BrokerPosition(c, w, regime, i); Fitting(c, i, w, s.w) && Seen(c, i, s.w, s.check)
  {
    hide KnownOf, KnownThen, NoteReply, CheckSide, Fitting, ReadReply, Told, HeldOf, Seen, Unmoved, Fits, FitsSince;
    var want := CheckSide(c, w, regime);
    var check := ReadReply(i.check, c.symbol, want);
    var w0 := if check.Listed? then w.(missing := 0) else w;
    CountedSame(w, w0);
    CountedSide(c, w, w0, Checked(i.check, want), regime);
    CheckedFits(c, i, w, regime);
    CheckedTold(w, w0, i.check, want);
    OneFits(c, i, w.history, Checked(i.check, want));
    var w1 := Log(w0, Checked(i.check, want));
    IsFitting(c, i, w, w1);
    NoteFitting(c, i, w1, check, regime);
    FittingTwice(c, i, w, w1, NoteReply(c, w1, check, regime, i));
  }

  lemma CountedSame(w: World, w0: World)
    requires w0 == w || w0 == w.(missing := 0)
    ensures Unmoved(w, w0)
  {
  }

  lemma CountedSide(c: Config, w: World, w0: World, e: Event, regime: bool)
    requires w0 == w || w0 == w.(missing := 0)
    ensures CheckSide(c, Log(w0, e), regime) == CheckSide(c, w, regime)
  {
  }

  // ---- sending a close ----

  /** A step whose events fit, with the exit kept for a bar left as it was. */
  ghost predicate Going(c: Config, i: TickIn, w: World, w1: World) {
    FitsSince(c, i, w.history, w1.history) && Agrees(w1, KnownOf(w1.history)) && w1.exitsBar == w.exitsBar && w1.exitsReason == w.exitsReason
  }

  lemma GoingTwice(c: Config, i: TickIn, a: World, b: World, d: World)
    requires Going(c, i, a, b) && Going(c, i, b, d)
    ensures Going(c, i, a, d)
  {
    hide Fits, Agrees;
    FitsTwice(c, i, a.history, b.history, d.history);
  }

  lemma GoingFitting(c: Config, i: TickIn, w: World, w1: World)
    requires Told(w) && Going(c, i, w, w1)
    ensures Fitting(c, i, w, w1)
  {
    hide Fits, FitsSince, Agrees;
    AskedStays(c, i, w.history, w1.history);
  }

  lemma AskedLater(c: Config, i: TickIn, w: World, w1: World, exit: (int, Reason))
    requires Going(c, i, w, w1) && exit in KnownOf(w.history).asked
    ensures exit in KnownOf(w1.history).asked
  {
    hide Fits, FitsSince, Agrees;
    AskedStays(c, i, w.history, w1.history);
  }

  /** One event more, with the fields that go with it. */
  lemma LogGoing(c: Config, i: TickIn, w: World, w1: World, e: Event)
    requires Fits(c, i, w.history, e) && w1.history == Then(w.history, e) && Agrees(w1, Add(KnownOf(w.history), e))
    requires w1.exitsBar == w.exitsBar && w1.exitsReason == w.exitsReason
    ensures Going(c, i, w, w1)
  {
    hide Fits, FitsSince, Agrees, KnownOf;
    Grows(w.history, e);
    OneFits(c, i, w.history, e);
  }

  lemma TrackedIsHeld(c: Config, w: World)
    requires Agrees(w, KnownOf(w.history)) && w.entryPrice.Some?
    ensures KnownOf(w.history).held.Some? && TrackedSide(c, w) == HeldSide(c, KnownOf(w.history).held.value)
    ensures IsShort(c, w) == (HeldSide(c, KnownOf(w.history).held.value) == Short)
    ensures KnownOf(w.history).held.value.dir == w.dir
  {
    hide KnownOf;
  }

  /** The history stands at poll k of a close on the side. */
  predicate AtPoll(c: Config, h: History, side: Option<Side>, k: nat) {
    && Polls(h) == k && ClosePolled(h).Some? && ClosePolled(h).value.CloseAccepted? && ClosePolled(h).value.onSide == side
    && (k > 0 ==> && h.Then? && h.last.PolledAfterClose? && h.last.reply.Ok?
                  && exists p <- h.last.reply.positions :: p.symbol == c.symbol && Some(p.side) == side)
  }

  /** The last poll no longer shows the side. */
  predicate Off(c: Config, h: History, side: Option<Side>) {
    && h.Then? && h.last.PolledAfterClose? && h.last.reply.Ok?
    && forall p <- h.last.reply.positions :: p.symbol == c.symbol ==> Some(p.side) != side
  }

  lemma {:induction false} PollFitting(c: Config, i: TickIn, h: History, side: Option<Side>, k: nat)
    requires k <= POLLS && AtPoll(c, h, side, k)
    ensures var polled := Poll(c, h, side, i.post, k);
            && FitsSince(c, i, h, polled.h) && KnownOf(polled.h) == KnownOf(h) && ClosePolled(polled.h) == ClosePolled(h)
            && (polled.result == Cleared ==> Off(c, polled.h, side))
    decreases POLLS - k
  {
    hide KnownOf;
    if k < POLLS {
      var reply := if k < |i.post| then i.post[k] else Unavailable;
      var e := PolledAfterClose(reply, side);
      Grows(h, e);
      OneFits(c, i, h, e);
      if reply.Ok? && Lists(reply.positions, c.symbol, side) {
        PollFitting(c, i, Then(h, e), side, k + 1);
        FitsTwice(c, i, h, Then(h, e), Poll(c, Then(h, e), side, i.post, k + 1).h);
      }
    }
  }

  lemma PollAfterFitting(c: Config, i: TickIn, w: World, bar: int, reason: Reason, side: Option<Side>, id: int)
    requires CloseFits(c, i, w.history, bar, reason, side, id)
    ensures var polled := PollAfter(c, w, i, bar, reason, side, id);
            var h := polled.h;
            && FitsSince(c, i, w.history, h) && ClosePolled(h) == Some(CloseAccepted(bar, reason, side, id))
            && (polled.result == Cleared ==> GoneAtPoll(c, h, reason))
            && KnownOf(h) == KnownOf(w.history).(sent := KnownOf(w.history).sent + {(id, Some(reason))})
  {
    hide KnownOf, CloseFits;
    var e := CloseAccepted(bar, reason, side, id);
    Grows(w.history, e);
    OneFits(c, i, w.history, e);
    PollFitting(c, i, Then(w.history, e), side, 0);
    FitsTwice(c, i, w.history, Then(w.history, e), PollAfter(c, w, i, bar, reason, side, id).h);
  }

  lemma AbsQty(reply: Reply, symbol: string, want: Option<Side>, p: Position)
    requires reply.Ok? && p in reply.positions && IsFirst(reply.positions, symbol, want, p)
    ensures QtyListed(reply, symbol, want, Abs(p.qty))
  {
    hide IsFirst;
  }

  lemma FinishExitGoing(c: Config, w: World, i: TickIn, reason: Reason, qty: real)
    requires Agrees(w, KnownOf(w.history)) && QtyListed(i.verify, c.symbol, None, qty) && GoneAtPoll(c, w.history, reason)
    ensures Going(c, i, w, FinishExit(c, w, i, reason, qty))
  {
    hide KnownOf, Triggers, QtyListed, GoneAtPoll;
    LogGoing(c, i, w, FinishExit(c, w, i, reason, qty), Booked(OwnClose, reason, qty, i.exitFill));
  }

  lemma SentGoing(c: Config, w: World, i: TickIn, bar: int, reason: Reason, side: Option<Side>, id: int, sent: World)
    requires Agrees(w, KnownOf(w.history)) && CloseFits(c, i, w.history, bar, reason, side, id)
    requires sent == w.(outcome := sent.outcome, pendingId := Some(id), pendingReason := Some(reason),
                        history := PollAfter(c, w, i, bar, reason, side, id).h)
    ensures Going(c, i, w, sent) && KnownOf(sent.history).want == KnownOf(w.history).want
    ensures PollAfter(c, w, i, bar, reason, side, id).result == Cleared ==> GoneAtPoll(c, sent.history, reason)
  {
    hide KnownOf, CloseFits, PollAfter, FitsSince, GoneAtPoll;
    PollAfterFitting(c, i, w, bar, reason, side, id);
  }

  lemma ExitCloseFits(c: Config, w: World, i: TickIn, bar: int, reason: Reason, p: Position, id: int)
    requires Agrees(w, KnownOf(w.history)) && w.entryPrice.Some? && i.fetch == Some(bar) && reason != RegimeFlip && i.close == Accepted(id)
    requires w.history.Then? && w.history.last == AskedAtExit(i.verify, TrackedSide(c, w), reason, bar)
    requires i.verify.Ok? && p in i.verify.positions && IsFirst(i.verify.positions, c.symbol, None, p) && p.side == TrackedSide(c, w)
    ensures CloseFits(c, i, w.history, bar, reason, Some(TrackedSide(c, w)), id)
  {
    hide KnownOf, IsFirst, Agrees, TrackedSide, HeldSide;
    TrackedIsHeld(c, w);
  }

  lemma CloseAndBookGoing(c: Config, w: World, i: TickIn, bar: int, reason: Reason, p: Position)
    requires Agrees(w, KnownOf(w.history)) && w.entryPrice.Some? && i.fetch == Some(bar) && reason != RegimeFlip
    requires w.history.Then? && w.history.last == AskedAtExit(i.verify, TrackedSide(c, w), reason, bar)
    requires i.verify.Ok? && p in i.verify.positions && IsFirst(i.verify.positions, c.symbol, None, p) && p.side == TrackedSide(c, w)
    ensures Going(c, i, w, CloseAndBook(c, w, i, bar, reason, Abs(p.qty)))
  {
    hide KnownOf, IsFirst, Abs, PollAfter, FinishExit, Going, CloseFits, TrackedSide, QtyListed, GoneAtPoll, Fits;
    match i.close
    case Refused => RefusedGoing(c, w, i);
    case Accepted(id) =>
      ExitCloseFits(c, w, i, bar, reason, p, id);
      var polled := PollAfter(c, w, i, bar, reason, Some(TrackedSide(c, w)), id);
      var sent := w.(outcome := Some(Sent), pendingId := Some(id), pendingReason := Some(reason), history := polled.h);
      SentGoing(c, w, i, bar, reason, Some(TrackedSide(c, w)), id, sent);
      if polled.result == Cleared {
        AbsQty(i.verify, c.symbol, None, p);
        GoingAgrees(c, i, w, sent);
        FinishExitGoing(c, sent, i, reason, Abs(p.qty));
        GoingTwice(c, i, w, sent, FinishExit(c, sent, i, reason, Abs(p.qty)));
        assert CloseAndBook(c, w, i, bar, reason, Abs(p.qty)) == FinishExit(c, sent, i, reason, Abs(p.qty));
      } else {
        assert CloseAndBook(c, w, i, bar, reason, Abs(p.qty)) == sent;
      }
  }

  lemma GoingAgrees(c: Config, i: TickIn, w: World, w1: World)
    requires Going(c, i, w, w1)
    ensures Agrees(w1, KnownOf(w1.history))
  {
  }

  lemma RefusedGoing(c: Config, w: World, i: TickIn)
    requires Agrees(w, KnownOf(w.history)) && i.close.Refused?
    ensures Going(c, i, w, Log(w.(outcome := Some(CloseFailed)), CloseRefused))
  {
    hide KnownOf;
    LogGoing(c, i, w, Log(w.(outcome := Some(CloseFailed)), CloseRefused), CloseRefused);
  }

  lemma ClearOtherSideGoing(c: Config, w: World, i: TickIn)
    requires Agrees(w, KnownOf(w.history))
    ensures Going(c, i, w, ClearOtherSide(w))
  {
    hide KnownOf;
    LogGoing(c, i, w, ClearOtherSide(w), SideCleared);
  }

  lemma SameGoing(c: Config, i: TickIn, w: World, w1: World)
    requires Agrees(w, KnownOf(w.history)) && Unmoved(w, w1)
    ensures Going(c, i, w, w1)
  {
    hide KnownOf;
  }

  lemma ExitSeenGoing(c: Config, w: World, i: TickIn, bar: int, reason: Reason)
    requires Agrees(w, KnownOf(w.history)) && w.entryPrice.Some? && i.fetch == Some(bar) && reason != RegimeFlip
    requires w.history.Then? && w.history.last == AskedAtExit(i.verify, TrackedSide(c, w), reason, bar)
    ensures Going(c, i, w, ExitSeen(c, w, ReadReply(i.verify, c.symbol, None), i, bar, reason))
  {
    hide KnownOf, IsFirst, CloseAndBook, ClearOtherSide, TrackedSide, Going, Agrees, Abs, NoneSuits, Find;
    var check := ReadReply(i.verify, c.symbol, None);
    if i.verify.Ok? { FindIsFirst(i.verify.positions, c.symbol, None); }
    if !check.Listed? {
      SameGoing(c, i, w, w.(outcome := Some(NotSent)));
    } else if check.p.side != TrackedSide(c, w) {
      ClearOtherSideGoing(c, w, i);
    } else {
      CloseAndBookGoing(c, w, i, bar, reason, check.p);
    }
  }

  lemma ExecuteExitGoing(c: Config, w: World, i: TickIn, bar: int, reason: Reason)
    requires Agrees(w, KnownOf(w.history)) && w.entryPrice.Some? && i.fetch == Some(bar) && reason != RegimeFlip
    requires Reasoned(i, w.history, bar, reason)
    ensures var w1 := ExecuteExit(c, w, i, bar, reason);
            Going(c, i, w, w1) && (bar, reason) in KnownOf(w1.history).asked
  {
    hide KnownOf, ExitSeen, ReadReply, Going, Reasoned, TrackedSide, HeldSide;
    TrackedIsHeld(c, w);
    var e := AskedAtExit(i.verify, TrackedSide(c, w), reason, bar);
    var asked := Log(w, e);
    Grows(w.history, e);
    LogGoing(c, i, w, asked, e);
    LogTracks(c, w, e);
    ExitSeenGoing(c, asked, i, bar, reason);
    var w1 := ExecuteExit(c, w, i, bar, reason);
    AskedLater(c, i, asked, w1, (bar, reason));
    GoingTwice(c, i, w, asked, w1);
  }

  lemma LogTracks(c: Config, w: World, e: Event)
    ensures TrackedSide(c, Log(w, e)) == TrackedSide(c, w)
  {
  }

  // ---- the exits of a bar ----

  lemma EvaluationFitsIs(c: Config, w: World, i: TickIn, bar: int)
    requires Agrees(w, KnownOf(w.history)) && w.entryPrice.Some? && i.fetch == Some(bar)
    ensures var ran := Evaluate(c, w, i, bar);
            && ran.w.history.Then? && ran.w.history.past == w.history && ran.w.history.last.Evaluated?
            && var e := ran.w.history.last; EvaluationFits(c, i, w.history, e.bar, e.due, e.limit, e.hold)
  {
    hide KnownOf, Advance, Due, Resolve, ExitLaw, BarLaw, InForce, IsShort;
    TrackedIsHeld(c, w);
    var rules := Resolve(i.settings, w.dir);
    var short := IsShort(c, w);
    var h0 := Hold(w.entryPrice.value, w.barCount, w.trailPeak, w.trailStop);
    assert KnownOf(w.history).held.value.hold == h0;
    ResolveInForce(i.settings, w.dir);
    AdvanceByLaw(h0, rules, short, i.quote);
    DueByLaw(Advance(h0, rules, short, i.quote), rules, short, i.quote.price);
  }

  lemma EvaluateFields(c: Config, w: World, i: TickIn, bar: int)
    requires w.entryPrice.Some?
    ensures var ran := Evaluate(c, w, i, bar);
            && ran.w.entryPrice == w.entryPrice && ran.w.dir == w.dir && ran.w.pendingFlip == w.pendingFlip && ran.w.missing == w.missing
            && ran.w.pendingId == w.pendingId && ran.w.pendingReason == w.pendingReason
            && ran.w.exitsBar == w.exitsBar && ran.w.exitsReason == w.exitsReason && ran.w.history.Then? && ran.w.history.past == w.history
            && ran.w.history.last.Evaluated? && ran.w.history.last.bar == bar && ran.w.history.last.due == ran.due
            && ran.w.history.last.hold == Hold(w.entryPrice.value, ran.w.barCount, ran.w.trailPeak, ran.w.trailStop)
            && (ran.due.Some? ==> IsPriceExit(ran.due.value))
  {
    hide Resolve, IsShort, NextPeak, NextStop, StopDue, TrailDue;
  }

  lemma EvaluateGoing(c: Config, w: World, i: TickIn, bar: int)
    requires Agrees(w, KnownOf(w.history)) && w.entryPrice.Some? && i.fetch == Some(bar)
    ensures var ran := Evaluate(c, w, i, bar);
            && Going(c, i, w, ran.w) && ran.w.entryPrice.Some? && ran.w.exitsBar == w.exitsBar && ran.w.exitsReason == w.exitsReason
            && JustEvaluated(ran.w.history) == ran.due.Some?
            && (ran.due.Some? ==> IsPriceExit(ran.due.value) && Reasoned(i, ran.w.history, bar, ran.due.value))
  {
    hide KnownOf, Evaluate, EvaluationFits, Going, FitsSince;
    EvaluationFitsIs(c, w, i, bar);
    EvaluateFields(c, w, i, bar);
    var ran := Evaluate(c, w, i, bar);
    LogGoing(c, i, w, ran.w, ran.w.history.last);
  }

  lemma PriceExitOnceGoing(c: Config, w: World, i: TickIn, bar: int)
    requires Told(w) && w.entryPrice.Some? && i.fetch == Some(bar) && !JustEvaluated(w.history)
    ensures var ran := PriceExitOnce(c, w, i, bar);
            && FitsSince(c, i, w.history, ran.w.history) && Agrees(ran.w, KnownOf(ran.w.history)) && ran.w.entryPrice.Some?
            && ran.w.exitsBar == Some(bar) && ran.w.exitsReason == ran.due
            && (ran.due.Some? ==> ran.due != Some(RegimeFlip) && Reasoned(i, ran.w.history, bar, ran.due.value))
  {
    hide KnownOf, Evaluate, Agrees;
    if w.exitsBar != Some(bar) {
      EvaluateGoing(c, w, i, bar);
      var ran := Evaluate(c, w, i, bar);
      SameGoingMarks(c, i, ran.w, ran.w.(exitsBar := Some(bar), exitsReason := ran.due));
    }
  }

  lemma SameGoingMarks(c: Config, i: TickIn, w: World, w1: World)
    requires Agrees(w, KnownOf(w.history)) && SameFields(w, w1)
    ensures Agrees(w1, KnownOf(w1.history))
  {
    hide KnownOf;
  }

  lemma AfterAttemptTold(c: Config, w: World, i: TickIn, bar: int, reason: Reason)
    requires Agrees(w, KnownOf(w.history)) && w.exitsBar == Some(bar) && (bar, reason) in KnownOf(w.history).asked && reason != RegimeFlip
    ensures Told(AfterExitAttempt(w, reason).w) && AfterExitAttempt(w, reason).w.history == w.history
  {
    hide KnownOf, Agrees, SameFields;
    AfterAttemptIs(w, reason);
    hide AfterExitAttempt;
    SameGoingMarks(c, i, w, AfterExitAttempt(w, reason).w);
  }

  lemma AfterAttemptIs(w: World, reason: Reason)
    ensures var w1 := AfterExitAttempt(w, reason).w;
            SameFields(w, w1) && w1.exitsBar == w.exitsBar && (w1.exitsReason.None? || w1.exitsReason == Some(reason))
  {
  }

  lemma TryExitFitting(c: Config, w: World, i: TickIn, bar: int, reason: Reason)
    requires Agrees(w, KnownOf(w.history)) && w.entryPrice.Some? && i.fetch == Some(bar) && reason != RegimeFlip
    requires Reasoned(i, w.history, bar, reason) && w.exitsBar == Some(bar)
    ensures Fitting(c, i, w, TryExit(c, w, i, bar, reason).w)
  {
    hide KnownOf, ExecuteExit, AfterExitAttempt, Reasoned, Agrees, FitsSince, Told;
    var cleared := w.(outcome := None);
    SameGoingMarks(c, i, w, cleared);
    ExecuteExitGoing(c, cleared, i, bar, reason);
    var tried := ExecuteExit(c, cleared, i, bar, reason);
    AfterAttemptTold(c, tried, i, bar, reason);
    IsFitting(c, i, w, AfterExitAttempt(tried, reason).w);
  }

  /** A bar's price exits, run once, and the attempt when one is due. */
  lemma ExitsFitting(c: Config, w: World, i: TickIn, bar: int)
    requires Told(w) && w.entryPrice.Some? && i.fetch == Some(bar) && !JustEvaluated(w.history)
    ensures var ran := PriceExitOnce(c, w, i, bar);
            && (ran.due.None? ==> Fitting(c, i, w, ran.w))
            && (ran.due.Some? ==> Fitting(c, i, w, TryExit(c, ran.w, i, bar, ran.due.value).w))
  {
    hide KnownOf, PriceExitOnce, TryExit, Reasoned, Agrees, FitsSince;
    PriceExitOnceGoing(c, w, i, bar);
    var ran := PriceExitOnce(c, w, i, bar);
    if ran.due.Some? {
      TryExitFitting(c, ran.w, i, bar, ran.due.value);
      FitsTwice(c, i, w.history, ran.w.history, TryExit(c, ran.w, i, bar, ran.due.value).w.history);
    }
  }

  /** The marks of the bar and the tick's flags do not matter to it. */
  lemma MarkFitting(c: Config, i: TickIn, w: World, w1: World, w2: World)
    requires Fitting(c, i, w, w1)
    requires w2 == w1.(lastBar := w2.lastBar, problem := w2.problem, problemBar := w2.problemBar, raised := w2.raised,
                       missing := w2.missing, compiled := w2.compiled, paused := w2.paused, exitsOnly := w2.exitsOnly)
             && (w2.missing == w1.missing || w2.missing <= 1)
    ensures Fitting(c, i, w, w2)
  {
    hide KnownOf, FitsSince;
  }

  lemma SelfFitting(c: Config, i: TickIn, w: World)
    requires Told(w)
    ensures Fitting(c, i, w, w)
  {
    hide Told;
  }

  lemma ExitsWithoutCheckFitting(c: Config, w: World, i: TickIn, bar: int)
    requires Told(w) && i.fetch == Some(bar) && !JustEvaluated(w.history)
    ensures Fitting(c, i, w, ExitsWithoutCheck(c, w, i, bar).w)
  {
    hide Told, PriceExitOnce, TryExit, Fitting, JustEvaluated;
    if w.entryPrice.None? { SelfFitting(c, i, w); } else { ExitsFitting(c, w, i, bar); }
  }

  lemma ManageHeldFitting(c: Config, w: World, i: TickIn, bar: int)
    requires Told(w) && w.entryPrice.Some? && i.fetch == Some(bar) && !JustEvaluated(w.history)
    ensures Fitting(c, i, w, ManageHeld(c, w, i, bar).w)
  {
    hide Told, PriceExitOnce, TryExit, Fitting, JustEvaluated;
    ExitsFitting(c, w, i, bar);
    var ran := PriceExitOnce(c, w, i, bar);
    if ran.due.Some? {
      var tried := TryExit(c, ran.w, i, bar, ran.due.value);
      MarkFitting(c, i, w, tried.w, ManageHeld(c, w, i, bar).w);
    }
  }

  // ---- a position that is gone ----

  lemma FillShows(pendingId: Option<int>, since: Option<real>, side: Side, o: Order)
    ensures var ev := FillEvidence(pendingId, since, side == Short, o);
            ev.Some? ==> Shows(o, ev.value, side) && (ev.value.ByOwnOrder? <==> pendingId == Some(o.id))
  {
  }

  lemma {:induction false} ClosingFillShows(pendingId: Option<int>, since: Option<real>, side: Side, os: seq<Order>)
    ensures var f := ClosingFill(pendingId, since, side == Short, os);
            f.Some? ==> && f.value.order in os && Shows(f.value.order, f.value.evidence, side)
                        && (f.value.evidence.ByOwnOrder? <==> pendingId == Some(f.value.order.id))
  {
    hide FillEvidence, Shows;
    if os != [] {
      FillShows(pendingId, since, side, os[0]);
      ClosingFillShows(pendingId, since, side, os[1..]);
    }
  }

  /** What a fill found for the tracked position is. */
  predicate FillOk(c: Config, i: TickIn, w: World, found: Option<Found>) {
    found.Some? ==>
      && i.fills.Fills? && found.value.order in i.fills.orders && KnownOf(w.history).held.Some?
      && Shows(found.value.order, found.value.evidence, HeldSide(c, KnownOf(w.history).held.value))
      && (found.value.evidence.ByOwnOrder? <==> w.pendingId == Some(found.value.order.id))
  }

  lemma FindFillOk(c: Config, w: World, i: TickIn)
    requires Agrees(w, KnownOf(w.history)) && w.entryPrice.Some?
    ensures FillOk(c, i, w, FindFill(c, w, i))
  {
    hide KnownOf, ClosingFill, Shows, IsShort, HeldSide;
    TrackedIsHeld(c, w);
    if i.fills.Fills? {
      ClosingFillShows(w.pendingId, w.entryTime, HeldSide(c, KnownOf(w.history).held.value), i.fills.orders);
    }
  }

  function EvidenceOf(found: Option<Found>): Evidence {
    if found.Some? then found.value.evidence else ByTwoReplies
  }

  /** The position is confirmed gone: that is all that changed. */
  predicate JustGone(w: World, w1: World, found: Option<Found>) {
    w1 == w.(missing := 0, history := Then(w.history, Gone(EvidenceOf(found))))
  }

  lemma ConfirmGoneAlso(w: World, found: Option<Found>)
    ensures var a := ConfirmGone(w, found);
            && (a.yes ==> JustGone(w, a.w, found) && (found.Some? || (w.missing >= 1 && !w.lastEmpty) || w.missing >= 2))
            && (!a.yes ==> a.w == w.(missing := a.w.missing) && a.w.missing <= 1)
  {
  }

  lemma JustGoneGoing(c: Config, w: World, w1: World, found: Option<Found>, i: TickIn)
    requires Agrees(w, KnownOf(w.history)) && w.entryPrice.Some? && FillOk(c, i, w, found) && JustGone(w, w1, found)
    requires Absent(c, i, w) && (found.None? ==> i.check.positions != [])
    ensures Going(c, i, w, w1) && FillOk(c, i, w1, found) && KnownOf(w1.history) == KnownOf(w.history)
  {
    hide KnownOf, Shows, HeldSide, Absent;
    Grows(w.history, Gone(EvidenceOf(found)));
    GoneFitsIs(c, w, found, i);
    LogGoing(c, i, w, w1, Gone(EvidenceOf(found)));
  }

  lemma GoneFitsIs(c: Config, w: World, found: Option<Found>, i: TickIn)
    requires Agrees(w, KnownOf(w.history)) && w.entryPrice.Some? && FillOk(c, i, w, found)
    requires Absent(c, i, w) && (found.None? ==> i.check.positions != [])
    ensures GoneFits(c, i, w.history, EvidenceOf(found))
  {
    hide KnownOf, HeldSide, NoneSuits;
  }

  lemma ConfirmGoneFitting(c: Config, w: World, i: TickIn, found: Option<Found>)
    requires Told(w) && w.entryPrice.Some? && FillOk(c, i, w, found) && Absent(c, i, w)
    ensures var a := ConfirmGone(w, found);
            && Fitting(c, i, w, a.w) && a.w.entryPrice.Some?
            && (a.yes ==> FillOk(c, i, a.w, found) && JustGone(w, a.w, found) && KnownOf(a.w.history) == KnownOf(w.history))
  {
    hide KnownOf, ConfirmGone, FillOk, Going, HeldOf, FitsSince, NoneSuits;
    ConfirmGoneAlso(w, found);
    var a := ConfirmGone(w, found);
    if a.yes {
      JustGoneGoing(c, w, a.w, found, i);
      GoingFitting(c, i, w, a.w);
    } else {
      SelfFitting(c, i, w);
      MarkFitting(c, i, w, w, a.w);
    }
  }

  lemma ExternalBooked(c: Config, w: World, found: Option<Found>, i: TickIn)
    requires Agrees(w, KnownOf(w.history)) && w.entryPrice.Some? && FillOk(c, i, w, found)
    requires w.history.Then? && w.history.last == Gone(EvidenceOf(found))
    requires found.Some? ==> found.value.order.avgPrice.Some?
    ensures var h := BookExternal(c, w, found, i).history;
            && h.Then? && h.past == w.history && h.last.Booked? && h.last.kind == ExternalClose
            && ExternalFits(c, i, w.history, h.last.reason, h.last.qty, h.last.price)
  {
    hide KnownOf, HeldSide, Triggers, ExternalReason, Closes, OrderBooked, HeldOf, BookExternal;
    BookExternalEvent(c, w, found, i);
    TrackedIsHeld(c, w);
    if found.Some? { OrderBookedIs(c, w, found, i); }
  }

  lemma BookExternalEvent(c: Config, w: World, found: Option<Found>, i: TickIn)
    requires found.Some? ==> found.value.order.avgPrice.Some?
    ensures var h := BookExternal(c, w, found, i).history;
            && h.Then? && h.past == w.history
            && match found
               case None => h.last == Booked(ExternalClose, External, 0.0, i.quote.price)
               case Some(f) => h.last == Booked(ExternalClose, ExternalReason(w, found), f.order.qty, f.order.avgPrice.value)
  {
    hide Triggers;
  }

  lemma OrderBookedIs(c: Config, w: World, found: Option<Found>, i: TickIn)
    requires Agrees(w, KnownOf(w.history)) && found.Some? && FillOk(c, i, w, found)
    ensures var o := found.value.order;
            o.avgPrice.Some? && OrderBooked(KnownOf(w.history), o, found.value.evidence, ExternalReason(w, found), o.qty, o.avgPrice.value)
  {
    hide KnownOf, HeldSide, HeldOf;
  }

  lemma BookExternalFitting(c: Config, w: World, found: Option<Found>, i: TickIn)
    requires Told(w) && w.entryPrice.Some? && FillOk(c, i, w, found)
    requires w.history.Then? && w.history.last == Gone(EvidenceOf(found))
    ensures var b := BookExternal(c, w, found, i);
            && Fitting(c, i, w, Forget(b)) && Fitting(c, i, w, Forget(b).(entryTime := None, paused := true))
  {
    hide KnownOf, FillOk, ExternalFits, BookExternal, Going, Fitting, Forget, HeldOf, FitsSince;
    if found.Some? { OrderBookedIs(c, w, found, i); }
    ExternalBooked(c, w, found, i);
    BookExternalLeaves(c, w, found, i);
    var b := BookExternal(c, w, found, i);
    ForgotGoing(c, i, w, b, Forget(b), b.history.last);
    ForgotGoing(c, i, w, b, Forget(b).(entryTime := None, paused := true), b.history.last);
    GoingFitting(c, i, w, Forget(b));
    GoingFitting(c, i, w, Forget(b).(entryTime := None, paused := true));
  }

  /** A booking after which the position is forgotten. */
  lemma ForgotGoing(c: Config, i: TickIn, w: World, b: World, w1: World, e: Event)
    requires Agrees(w, KnownOf(w.history)) && b == w.(consecStops := b.consecStops, skipLeft := b.skipLeft, history := Then(w.history, e))
    requires w1 == Forget(b).(entryTime := w1.entryTime, paused := w1.paused)
    requires e.Booked? && e.kind == ExternalClose && ExternalFits(c, i, w.history, e.reason, e.qty, e.price)
    ensures Going(c, i, w, w1)
  {
    hide KnownOf, ExternalFits, Going;
    LogGoing(c, i, w, w1, e);
  }

  lemma BookExternalLeaves(c: Config, w: World, found: Option<Found>, i: TickIn)
    ensures var b := BookExternal(c, w, found, i);
            b == w.(consecStops := b.consecStops, skipLeft := b.skipLeft, history := b.history)
  {
    hide ExternalReason, Triggers;
  }

  lemma DetectExternalCloseFitting(c: Config, w: World, found: Option<Found>, i: TickIn)
    requires Told(w) && w.entryPrice.Some? && FillOk(c, i, w, found)
    requires w.history.Then? && w.history.last == Gone(EvidenceOf(found))
    ensures var a := DetectExternalClose(c, w, found, i);
            if a.yes then Fitting(c, i, w, a.w) else Fitting(c, i, w, Forget(a.w))
  {
    hide Told, BookExternal, Fitting, FillOk;
    BookExternalFitting(c, w, found, i);
  }

  lemma ManageTrackedMissingFitting(c: Config, w: World, i: TickIn, bar: int)
    requires Told(w) && w.entryPrice.Some? && Absent(c, i, w)
    ensures Fitting(c, i, w, ManageTrackedMissing(c, w, i, bar).w)
  {
    hide KnownOf, FindFill, ConfirmGone, DetectExternalClose, Fitting, FillOk, Forget, HeldOf, Agrees, Absent;
    FindFillOk(c, w, i);
    var found := FindFill(c, w, i);
    ConfirmGoneFitting(c, w, i, found);
    var gone := ConfirmGone(w, found);
    FittingTold(c, i, w, gone.w);
    MarkFitting(c, i, w, gone.w, Problem(gone.w, bar));
    if gone.yes {
      DetectExternalCloseFitting(c, gone.w, found, i);
      var booked := DetectExternalClose(c, gone.w, found, i);
      FittingTwice(c, i, w, gone.w, if booked.yes then booked.w else Forget(booked.w));
    }
  }

  // ---- managing without signals ----

  lemma ManageUntrackedFitting(c: Config, w: World, i: TickIn, bar: int)
    requires Told(w)
    ensures Fitting(c, i, w, ManageUntracked(w, bar).w)
  {
    hide Told, Fitting, ManageUntracked;
    SelfFitting(c, i, w);
    RunnerSafety.UntrackedIs(w, bar);
    MarkFitting(c, i, w, w, Problem(w, bar));
    MarkFitting(c, i, w, w, w.(missing := 0));
    if w.missing == 0 { MarkFitting(c, i, w, w, Problem(w.(missing := w.missing + 1), bar)); }
  }

  lemma ManageUncheckedFitting(c: Config, w: World, i: TickIn, bar: int)
    requires Told(w) && i.fetch == Some(bar) && !JustEvaluated(w.history)
    ensures Fitting(c, i, w, ManageUnchecked(c, w, i, bar).w)
  {
    hide Told, Fitting, ExitsWithoutCheck, JustEvaluated;
    var p := Problem(w, bar);
    SelfFitting(c, i, w);
    MarkFitting(c, i, w, w, p);
    FittingTold(c, i, w, p);
    ExitsWithoutCheckFitting(c, p, i, bar);
    ManageUncheckedIs(c, w, i, bar);
    hide ManageUnchecked, Problem;
    MarkFitting(c, i, p, ExitsWithoutCheck(c, p, i, bar).w, ManageUnchecked(c, w, i, bar).w);
    FittingTwice(c, i, w, p, ManageUnchecked(c, w, i, bar).w);
  }

  lemma ManageUncheckedIs(c: Config, w: World, i: TickIn, bar: int)
    ensures var w1, ran := ManageUnchecked(c, w, i, bar).w, ExitsWithoutCheck(c, Problem(w, bar), i, bar).w;
            w1 == ran.(lastBar := w1.lastBar)
  {
    hide ExitsWithoutCheck, Problem;
  }

  lemma ManageSeenFitting(c: Config, s: Sighting, i: TickIn, bar: int)
    requires Told(s.w) && Seen(c, i, s.w, s.check) && i.fetch == Some(bar)
    ensures Fitting(c, i, s.w, ManageSeen(c, s, i, bar).w)
  {
    hide Told, Fitting, ManageTrackedMissing, ManageUntracked, ManageHeld, ManageUnchecked, NoneSuits, IsFirst, KnownOf, JustEvaluated, NoPositions;
    match s.check
    case CheckFailed => ManageUncheckedFitting(c, s.w, i, bar);
    case Missing =>
      if s.w.entryPrice.Some? { ManageTrackedMissingFitting(c, s.w, i, bar); } else { ManageUntrackedFitting(c, s.w, i, bar); }
    case Listed(_) => ManageHeldFitting(c, s.w, i, bar);
  }

  lemma ManageFitting(c: Config, w: World, i: TickIn, bar: int, regime: bool)
    requires Told(w) && (regime == c.isRegime || i.planLost) && i.fetch == Some(bar)
    ensures Fitting(c, i, w, Manage(c, w, i, bar, regime).w)
  {
    hide Told, Fitting, BrokerPosition, ManageSeen, Seen;
    SelfFitting(c, i, w);
    MarkFitting(c, i, w, w, w.(problem := false));
    var w0 := w.(problem := false, problemBar := None);
    MarkFitting(c, i, w, w, w0);
    FittingTold(c, i, w, w0);
    LookFitting(c, i, w0, regime);
    var s := BrokerPosition(c, w0, regime, i);
    FittingTold(c, i, w0, s.w);
    ManageSeenFitting(c, s, i, bar);
    FittingTwice(c, i, w0, s.w, ManageSeen(c, s, i, bar).w);
    FittingTwice(c, i, w, w0, ManageSeen(c, s, i, bar).w);
  }

  // ---- a bot whose code failed ----

  lemma PauseFitting(c: Config, i: TickIn, w: World, m: World)
    requires Fitting(c, i, w, m)
    ensures Fitting(c, i, w, PauseForCode(m))
  {
    hide KnownOf, Fitting;
    FittingTold(c, i, w, m);
    LogGoing(c, i, m, PauseForCode(m), PausedForCode);
    GoingFitting(c, i, m, PauseForCode(m));
    FittingTwice(c, i, w, m, PauseForCode(m));
  }

  lemma SettleFitting(c: Config, i: TickIn, w: World, m: Answer, bar: int)
    requires Fitting(c, i, w, m.w)
    ensures Fitting(c, i, w, Settle(m, bar))
  {
    hide Fitting, PauseForCode, MarkExitsRan;
    PauseFitting(c, i, w, m.w);
    RunnerSafety.MarkExitsRanIs(m.w, bar);
    MarkFitting(c, i, w, m.w, MarkExitsRan(m.w, bar));
    var done := if m.yes then PauseForCode(m.w) else MarkExitsRan(m.w, bar);
    MarkFitting(c, i, w, done, done.(raised := done.problem, problem := false));
  }

  lemma ManageAfterFailureFitting(c: Config, w: World, i: TickIn, bar: int, regime: bool)
    requires Told(w) && (regime == c.isRegime || i.planLost) && i.fetch == Some(bar)
    ensures Fitting(c, i, w, ManageAfterFailure(c, w, i, bar, regime))
  {
    hide Told, Fitting, Manage, Settle;
    ManageFitting(c, w, i, bar, regime);
    SettleFitting(c, i, w, Manage(c, w, i, bar, regime), bar);
  }

  lemma CodeTickFitting(c: Config, w: World, i: TickIn)
    requires Told(w)
    ensures Fitting(c, i, w, CodeTick(c, w, i))
  {
    hide Told, Fitting, ManageAfterFailure;
    if i.fetch.Some? {
      ManageAfterFailureFitting(c, w, i, i.fetch.value, if i.planLost then c.bidirectional else c.isRegime);
    } else {
      SelfFitting(c, i, w);
      MarkFitting(c, i, w, w, CodeTick(c, w, i));
    }
  }

  lemma EnterCodeFailureFitting(c: Config, w: World, i: TickIn)
    requires Told(w) && c.graph && (i.cook.CodeError? || i.compile.CodeRefused?)
    ensures Fitting(c, i, w, EnterCodeFailure(w))
  {
    hide KnownOf, Fitting;
    LogGoing(c, i, w, EnterCodeFailure(w), EnterCodeFailure(w).history.last);
    GoingFitting(c, i, w, EnterCodeFailure(w));
  }

  // ---- entries and flips ----

  lemma AllowedHasRoom(c: Config, ps: seq<Position>, side: Side)
    requires EntryAllowed(c, ps, side)
    ensures Room(c, ps, side)
  {
    FindIsFirst(ps, c.symbol, None);
    forall n | 0 <= n < |ps| && ps[n].symbol == c.symbol && (forall j | 0 <= j < n :: ps[j].symbol != c.symbol)
      ensures !c.bidirectional && ps[n].side == side
    {
      assert Suits(ps[n], c.symbol, None);
      var f := Find(ps, c.symbol, None).value;
      var m :| 0 <= m < |ps| && ps[m] == f && forall j | 0 <= j < m :: !Suits(ps[j], c.symbol, None);
      assert m == n;
    }
  }

  /** A flat world an entry can go out from. */
  predicate Flat(w: World) {
    w.entryPrice.None? && w.trailStop.None?
  }

  lemma EnterFitting(c: Config, w: World, i: TickIn, side: Side)
    requires Told(w) && Flat(w) && w.history.Then? && w.history.last.CandidatePassed? && Wanted(c, i, w.history.past) && OwnWay(c, i, side)
    requires Reverses(w.history.past) || (i.spreadOk && i.entryCheck.Ok? && Room(c, i.entryCheck.positions, side))
    ensures Fitting(c, i, w, Enter(w, i, side))
  {
    hide KnownOf, Fitting, Wanted, OwnWay, Room, Reverses;
    SelfFitting(c, i, w);
    if !i.entryBlocked && i.entry.Filled? {
      var w1 := RunnerSpec.Open(w, i.entry.price, i.now, side);
      LogGoing(c, i, w, w1, Entered(side, i.now, w.missing, i.entry.price));
      GoingFitting(c, i, w, w1);
    }
  }

  lemma SkippedFitting(c: Config, w: World, i: TickIn)
    requires Told(w) && Wanted(c, i, w.history)
    ensures Fitting(c, i, w, Log(w.(skipLeft := w.skipLeft - 1), CandidateSkipped))
  {
    hide KnownOf, Fitting, Wanted;
    var w1 := Log(w.(skipLeft := w.skipLeft - 1), CandidateSkipped);
    LogGoing(c, i, w, w1, CandidateSkipped);
    GoingFitting(c, i, w, w1);
  }

  lemma PassedFitting(c: Config, w: World, i: TickIn)
    requires Told(w) && Wanted(c, i, w.history)
    ensures Fitting(c, i, w, Log(w, CandidatePassed))
  {
    hide KnownOf, Fitting, Wanted;
    LogGoing(c, i, w, Log(w, CandidatePassed), CandidatePassed);
    GoingFitting(c, i, w, Log(w, CandidatePassed));
  }

  lemma PassedEnterFitting(c: Config, w: World, i: TickIn, side: Side)
    requires Told(w) && Flat(w) && Wanted(c, i, w.history) && OwnWay(c, i, side)
    requires Reverses(w.history) || (i.spreadOk && i.entryCheck.Ok? && Room(c, i.entryCheck.positions, side))
    ensures Fitting(c, i, w, Enter(Log(w, CandidatePassed), i, side))
  {
    hide Told, Fitting, Enter, Wanted, OwnWay, Reverses, Room;
    PassedFitting(c, w, i);
    FittingTold(c, i, w, Log(w, CandidatePassed));
    EnterFitting(c, Log(w, CandidatePassed), i, side);
    FittingTwice(c, i, w, Log(w, CandidatePassed), Enter(Log(w, CandidatePassed), i, side));
  }

  lemma ReverseEntryFitting(c: Config, w: World, i: TickIn)
    requires Told(w) && Flat(w) && c.isRegime && Reverses(w.history)
    ensures Fitting(c, i, w, ReverseEntry(c, w, i, i.regimeDir))
  {
    hide Told, Fitting, Enter, Flat;
    SelfFitting(c, i, w);
    if c.onFlip == CloseAndReverse && i.regimeDir.Some? && i.inHours {
      if w.skipLeft > 0 {
        SkippedFitting(c, w, i);
      } else {
        PassedEnterFitting(c, w, i, i.regimeDir.value);
      }
    }
  }

  lemma TryEntryFitting(c: Config, w: World, i: TickIn)
    requires Told(w) && Flat(w) && !Reverses(w.history)
    ensures Fitting(c, i, w, TryEntry(c, w, i))
  {
    hide Told, Fitting, EnterIfClear, Flat, Reverses, TryEntry;
    SelfFitting(c, i, w);
    TryEntryCases(c, w, i);
    var side := EntryDir(c, i);
    if i.inHours && side.Some? && i.buySignal && !i.entryBlocked {
      if w.skipLeft > 0 { SkippedFitting(c, w, i); } else { EnterIfClearFitting(c, w, i, side.value); }
    }
  }

  lemma TryEntryCases(c: Config, w: World, i: TickIn)
    ensures var side, w1 := EntryDir(c, i), TryEntry(c, w, i);
            var wanted := i.inHours && side.Some? && i.buySignal && !i.entryBlocked;
            && (!wanted ==> w1 == w)
            && (wanted && w.skipLeft > 0 ==> w1 == Log(w.(skipLeft := w.skipLeft - 1), CandidateSkipped))
            && (wanted && w.skipLeft <= 0 ==> w1 == EnterIfClear(c, Log(w, CandidatePassed), i, side.value))
  {
    hide EnterIfClear, EntryDir;
  }

  lemma EnterIfClearFitting(c: Config, w: World, i: TickIn, side: Side)
    requires Told(w) && Flat(w) && Wanted(c, i, w.history) && OwnWay(c, i, side)
    ensures Fitting(c, i, w, EnterIfClear(c, Log(w, CandidatePassed), i, side))
  {
    hide Told, Fitting, Enter, Flat, Room, EntryAllowed, Wanted, OwnWay;
    PassedFitting(c, w, i);
    if i.entryCheck.Ok? && EntryAllowed(c, i.entryCheck.positions, side) && i.spreadOk {
      AllowedHasRoom(c, i.entryCheck.positions, side);
      PassedEnterFitting(c, w, i, side);
    }
  }

  lemma LeaveFlipFitting(c: Config, w: World, i: TickIn)
    requires Told(w) && Flips(c, i, KnownOf(w.history))
    ensures Fitting(c, i, w, LeaveFlip(w))
  {
    hide KnownOf, Fitting, Flips;
    LogGoing(c, i, w, LeaveFlip(w), FlipLeft);
    GoingFitting(c, i, w, LeaveFlip(w));
  }

  lemma FlipBookedFitting(c: Config, w: World, i: TickIn, qty: real)
    requires Told(w) && QtyListed(i.check, c.symbol, KnownOf(w.history).want, qty) && GoneAtPoll(c, w.history, RegimeFlip)
    ensures var w1 := Forget(Log(w.(consecStops := 0), Booked(FlipClose, RegimeFlip, qty, i.exitFill))).(pendingFlip := false);
            Fitting(c, i, w, w1) && Flat(w1) && Reverses(w1.history)
  {
    hide KnownOf, Fitting, QtyListed, GoneAtPoll;
    var e := Booked(FlipClose, RegimeFlip, qty, i.exitFill);
    var w1 := Forget(Log(w.(consecStops := 0), e)).(pendingFlip := false);
    LogGoing(c, i, w, w1, e);
    GoingFitting(c, i, w, w1);
  }

  lemma FinishFlipFitting(c: Config, w: World, i: TickIn, qty: real)
    requires Told(w) && c.isRegime && QtyListed(i.check, c.symbol, KnownOf(w.history).want, qty) && GoneAtPoll(c, w.history, RegimeFlip)
    ensures Fitting(c, i, w, FinishFlip(c, w, i, qty, i.regimeDir))
  {
    hide Told, Fitting, QtyListed, GoneAtPoll, ReverseEntry, Flat, Reverses;
    FlipBookedFitting(c, w, i, qty);
    var w1 := Forget(Log(w.(consecStops := 0), Booked(FlipClose, RegimeFlip, qty, i.exitFill))).(pendingFlip := false);
    FittingTold(c, i, w, w1);
    ReverseEntryFitting(c, w1, i);
    FittingTwice(c, i, w, w1, ReverseEntry(c, w1, i, i.regimeDir));
  }

  lemma FlipCloseFits(c: Config, w: World, i: TickIn, bar: int, p: Position, id: int)
    requires Told(w) && Flips(c, i, KnownOf(w.history)) && i.close == Accepted(id) && i.fetch == Some(bar)
    requires i.check.Ok? && p in i.check.positions && IsFirst(i.check.positions, c.symbol, KnownOf(w.history).want, p)
    ensures CloseFits(c, i, w.history, bar, RegimeFlip, w.dir, id)
  {
    hide KnownOf;
  }

  lemma FlipSent(c: Config, w: World, i: TickIn, bar: int, p: Position, id: int, sent: World)
    requires Told(w) && Flips(c, i, KnownOf(w.history)) && i.close == Accepted(id) && i.fetch == Some(bar)
    requires i.check.Ok? && p in i.check.positions && IsFirst(i.check.positions, c.symbol, KnownOf(w.history).want, p)
    requires sent == w.(pendingId := Some(id), pendingReason := Some(RegimeFlip), history := PollAfter(c, w, i, bar, RegimeFlip, w.dir, id).h)
    ensures Fitting(c, i, w, sent) && Flips(c, i, KnownOf(sent.history)) && QtyListed(i.check, c.symbol, KnownOf(sent.history).want, Abs(p.qty))
    ensures PollAfter(c, w, i, bar, RegimeFlip, w.dir, id).result == Cleared ==> GoneAtPoll(c, sent.history, RegimeFlip)
  {
    hide KnownOf, CloseFits, PollAfter, FitsSince, IsFirst, QtyListed, HeldOf, GoneAtPoll;
    FlipCloseFits(c, w, i, bar, p, id);
    SentGoing(c, w, i, bar, RegimeFlip, w.dir, id, sent);
    PollAfterFitting(c, i, w, bar, RegimeFlip, w.dir, id);
    GoingFitting(c, i, w, sent);
    AbsQty(i.check, c.symbol, KnownOf(w.history).want, p);
  }

  lemma HandleFlipFitting(c: Config, w: World, i: TickIn, bar: int, p: Position)
    requires Told(w) && Flips(c, i, KnownOf(w.history)) && i.fetch == Some(bar) && i.check.Ok? && p in i.check.positions
    requires IsFirst(i.check.positions, c.symbol, KnownOf(w.history).want, p)
    ensures Fitting(c, i, w, HandleFlip(c, w, i, bar, Abs(p.qty), i.regimeDir))
  {
    hide Told, Fitting, PollAfter, LeaveFlip, FinishFlip, QtyListed, GoneAtPoll, IsFirst, Abs, KnownOf;
    match i.close
    case Refused => LeaveFlipFitting(c, w, i);
    case Accepted(id) =>
      var polled := PollAfter(c, w, i, bar, RegimeFlip, w.dir, id);
      var sent := w.(pendingId := Some(id), pendingReason := Some(RegimeFlip), history := polled.h);
      FlipSent(c, w, i, bar, p, id, sent);
      FittingTold(c, i, w, sent);
      if polled.result == Cleared {
        FinishFlipFitting(c, sent, i, Abs(p.qty));
        FittingTwice(c, i, w, sent, FinishFlip(c, sent, i, Abs(p.qty), i.regimeDir));
      } else {
        LeaveFlipFitting(c, sent, i);
        FittingTwice(c, i, w, sent, LeaveFlip(sent));
      }
  }

  lemma CleanPendingFlipFitting(c: Config, w: World, i: TickIn)
    requires Told(w) && c.isRegime && w.pendingFlip && i.check.Ok? && NoneSuits(i.check.positions, c.symbol, KnownOf(w.history).want)
    ensures Fitting(c, i, w, CleanPendingFlip(c, w, i, i.regimeDir))
  {
    hide KnownOf, Fitting, NoneSuits, ReverseEntry;
    var e := FlipCleaned(w.entryPrice.Some?);
    var w1 := Log(Forget(w).(pendingFlip := false), e);
    LogGoing(c, i, w, w1, e);
    GoingFitting(c, i, w, w1);
    FittingTold(c, i, w, w1);
    ReverseEntryFitting(c, w1, i);
    FittingTwice(c, i, w, w1, ReverseEntry(c, w1, i, i.regimeDir));
  }

  // ---- the main path ----

  lemma ForgetFitting(c: Config, i: TickIn, w: World)
    requires Told(w) && w.entryPrice.None?
    ensures Fitting(c, i, w, Forget(w))
  {
    hide KnownOf;
  }

  lemma ForgetIsFlat(w: World)
    ensures Flat(Forget(w)) && Forget(w).history == w.history
  {
  }

  lemma ExternalIsBooked(c: Config, w: World, found: Option<Found>, i: TickIn)
    ensures !Reverses(DetectExternalClose(c, w, found, i).w.history)
  {
    hide ExternalReason, Triggers;
  }

  lemma NoPositionFitting(c: Config, w: World, i: TickIn, found: Option<Found>)
    requires Told(w) && !Reverses(w.history)
    requires w.entryPrice.Some? ==> FillOk(c, i, w, found) && w.history.Then? && w.history.last == Gone(EvidenceOf(found))
    ensures Fitting(c, i, w, NoPosition(c, w, i, found))
  {
    hide Told, Fitting, DetectExternalClose, TryEntry, Forget, Flat, FillOk, Reverses;
    var a := DetectExternalClose(c, w, found, i);
    if w.entryPrice.Some? {
      DetectExternalCloseFitting(c, w, found, i);
      ExternalIsBooked(c, w, found, i);
    } else {
      ForgetFitting(c, i, w);
    }
    if w.entryPrice.None? || !a.yes {
      var before := if w.entryPrice.Some? then a.w else w;
      ForgetIsFlat(before);
      FittingTold(c, i, w, Forget(before));
      TryEntryFitting(c, Forget(before), i);
      FittingTwice(c, i, w, Forget(before), TryEntry(c, Forget(before), i));
    }
  }

  lemma RegimeIsEntryDir(c: Config, i: TickIn)
    requires c.isRegime
    ensures EntryDir(c, i) == i.regimeDir
  {
  }

  lemma ActFlatFitting(c: Config, w: World, i: TickIn, found: Option<Found>)
    requires Told(w) && !Reverses(w.history) && i.check.Ok? && NoneSuits(i.check.positions, c.symbol, KnownOf(w.history).want)
    requires w.entryPrice.Some? ==> FillOk(c, i, w, found) && w.history.Then? && w.history.last == Gone(EvidenceOf(found))
    ensures Fitting(c, i, w, ActFlat(c, w, i, found))
  {
    hide Told, Fitting, NoPosition, CleanPendingFlip, FillOk, Reverses, NoneSuits, EntryDir, KnownOf;
    if c.isRegime && w.pendingFlip {
      RegimeIsEntryDir(c, i);
      CleanPendingFlipFitting(c, w, i);
    } else {
      NoPositionFitting(c, w, i, found);
    }
  }

  lemma ActMissingFitting(c: Config, w: World, i: TickIn, prev: Option<int>)
    requires Told(w) && Seen(c, i, w, Missing)
    ensures Fitting(c, i, w, ActMissing(c, w, i, prev))
  {
    hide KnownOf, Fitting, FindFill, ConfirmGone, ActFlat, FillOk, NoneSuits, Told, NoPositions, JustEvaluated;
    if w.entryPrice.None? {
      ActFlatFitting(c, w, i, None);
    } else {
      ActGoneFitting(c, w, i, prev);
    }
  }

  lemma ActGoneFitting(c: Config, w: World, i: TickIn, prev: Option<int>)
    requires Told(w) && w.entryPrice.Some? && Absent(c, i, w)
    ensures var found := FindFill(c, w, i);
            var gone := ConfirmGone(w, found);
            Fitting(c, i, w, if gone.yes then ActFlat(c, gone.w, i, found) else gone.w.(lastBar := prev, raised := true))
  {
    hide KnownOf, Fitting, FindFill, ConfirmGone, ActFlat, FillOk, HeldOf, NoneSuits, Agrees;
    FindFillOk(c, w, i);
    var found := FindFill(c, w, i);
    ConfirmGoneFitting(c, w, i, found);
    var gone := ConfirmGone(w, found);
    FittingTold(c, i, w, gone.w);
    MarkFitting(c, i, w, gone.w, gone.w.(lastBar := prev, raised := true));
    if gone.yes {
      JustGoneIs(w, gone.w, found);
      ActFlatFitting(c, gone.w, i, found);
      FittingTwice(c, i, w, gone.w, ActFlat(c, gone.w, i, found));
    }
  }

  lemma JustGoneIs(w: World, w1: World, found: Option<Found>)
    requires JustGone(w, w1, found)
    ensures w1.history == Then(w.history, Gone(EvidenceOf(found))) && !Reverses(w1.history)
  {
  }

  lemma ActUncheckedFitting(c: Config, w: World, i: TickIn, bar: int, prev: Option<int>)
    requires Told(w) && i.fetch == Some(bar) && !JustEvaluated(w.history)
    ensures Fitting(c, i, w, ActUnchecked(c, w, i, bar, prev))
  {
    hide Told, Fitting, ExitsWithoutCheck, JustEvaluated;
    ExitsWithoutCheckFitting(c, w, i, bar);
    var ran := ExitsWithoutCheck(c, w, i, bar);
    MarkFitting(c, i, w, ran.w, ran.w.(lastBar := if ran.yes then ran.w.lastBar else prev, raised := true));
  }

  lemma ExitDueGoing(c: Config, w: World, i: TickIn, bar: int)
    requires Told(w) && w.entryPrice.Some? && i.fetch == Some(bar) && !JustEvaluated(w.history)
    ensures var ran := ExitDue(c, w, i, bar);
            && Going(c, i, w, ran.w) && ran.w.entryPrice.Some?
            && (ran.due.Some? ==> ran.due != Some(RegimeFlip) && Reasoned(i, ran.w.history, bar, ran.due.value))
  {
    hide KnownOf, Evaluate, Agrees, Going;
    SameGoing(c, i, w, w);
    if w.exitsBar != Some(bar) { EvaluateGoing(c, w, i, bar); }
  }

  /** An exit not sent is kept for the bar. */
  lemma KeptTold(w: World, w1: World, bar: int, reason: Reason, prev: Option<int>)
    requires Agrees(w, KnownOf(w.history)) && (bar, reason) in KnownOf(w.history).asked && reason != RegimeFlip
    requires w1 == w.(exitsBar := Some(bar), exitsReason := Some(reason), lastBar := prev, raised := true)
    ensures Told(w1) && w1.history == w.history
  {
    hide KnownOf;
  }

  lemma HeldExitsFitting(c: Config, w: World, i: TickIn, bar: int, prev: Option<int>)
    requires Told(w) && w.entryPrice.Some? && i.fetch == Some(bar) && !JustEvaluated(w.history)
    ensures Fitting(c, i, w, HeldExits(c, w, i, bar, prev))
  {
    hide Told, Fitting, ExitDue, ExecuteExit, Going, KnownOf, Reasoned, JustEvaluated, Agrees;
    ExitDueGoing(c, w, i, bar);
    var ran := ExitDue(c, w, i, bar);
    GoingFitting(c, i, w, ran.w);
    if ran.due.Some? {
      var ready := ran.w.(outcome := None);
      GoingAgrees(c, i, w, ran.w);
      SameGoing(c, i, ran.w, ready);
      GoingTwice(c, i, w, ran.w, ready);
      ExecuteExitKept(c, w, ready, i, bar, ran.due.value, prev);
    }
  }

  lemma ExecuteExitKept(c: Config, w: World, ready: World, i: TickIn, bar: int, reason: Reason, prev: Option<int>)
    requires Told(w) && Going(c, i, w, ready) && ready.entryPrice.Some? && i.fetch == Some(bar) && reason != RegimeFlip
    requires Reasoned(i, ready.history, bar, reason)
    ensures var tried := ExecuteExit(c, ready, i, bar, reason);
            Fitting(c, i, w, tried)
            && Fitting(c, i, w, tried.(exitsBar := Some(bar), exitsReason := Some(reason), lastBar := prev, raised := true))
  {
    hide Told, Fitting, ExecuteExit, Going, KnownOf, Reasoned, Agrees;
    GoingAgrees(c, i, w, ready);
    ExecuteExitGoing(c, ready, i, bar, reason);
    var tried := ExecuteExit(c, ready, i, bar, reason);
    GoingTwice(c, i, w, ready, tried);
    GoingFitting(c, i, w, tried);
    GoingAgrees(c, i, w, tried);
    var kept := tried.(exitsBar := Some(bar), exitsReason := Some(reason), lastBar := prev, raised := true);
    KeptTold(tried, kept, bar, reason, prev);
    FittingSince(c, i, w, tried);
    IsFitting(c, i, w, kept);
  }

  lemma FittingSince(c: Config, i: TickIn, w: World, w1: World)
    requires Fitting(c, i, w, w1)
    ensures FitsSince(c, i, w.history, w1.history)
  {
  }

  lemma FlipsIs(c: Config, w: World, i: TickIn)
    requires Told(w) && w.entryPrice.Some? && c.isRegime
    ensures Flips(c, i, KnownOf(w.history)) <==> w.pendingFlip || (w.dir.Some? && i.regimeDir != w.dir && c.onFlip != HoldOn)
  {
    hide KnownOf;
  }

  lemma ActHeldFitting(c: Config, w: World, i: TickIn, bar: int, prev: Option<int>, p: Position)
    requires Told(w) && Seen(c, i, w, Listed(p)) && i.fetch == Some(bar)
    ensures Fitting(c, i, w, ActHeld(c, w, i, bar, prev, p))
  {
    hide Told, Fitting, HandleFlip, HeldExits, IsFirst, KnownOf, JustEvaluated, Flips, Abs, EntryDir;
    if c.isRegime {
      RegimeIsEntryDir(c, i);
      FlipsIs(c, w, i);
      if Flips(c, i, KnownOf(w.history)) { HandleFlipFitting(c, w, i, bar, p); }
    }
    HeldExitsFitting(c, w, i, bar, prev);
  }

  lemma ActFitting(c: Config, w: World, i: TickIn, bar: int, prev: Option<int>)
    requires Told(w) && i.fetch == Some(bar)
    ensures Fitting(c, i, w, Act(c, w, i, bar, prev))
  {
    hide Told, Fitting, BrokerPosition, ActSeen, Seen;
    LookFitting(c, i, w, c.isRegime);
    var s := BrokerPosition(c, w, c.isRegime, i);
    FittingTold(c, i, w, s.w);
    ActSeenFitting(c, s, i, bar, prev);
    FittingTwice(c, i, w, s.w, ActSeen(c, s, i, bar, prev));
  }

  lemma ActSeenFitting(c: Config, s: Sighting, i: TickIn, bar: int, prev: Option<int>)
    requires Told(s.w) && Seen(c, i, s.w, s.check) && i.fetch == Some(bar)
    ensures Fitting(c, i, s.w, ActSeen(c, s, i, bar, prev))
  {
    hide Told, Fitting, ActUnchecked, ActMissing, ActHeld, NoneSuits, IsFirst, KnownOf, NoPositions;
    match s.check
    case CheckFailed => ActUncheckedFitting(c, s.w, i, bar, prev);
    case Missing => ActMissingFitting(c, s.w, i, prev);
    case Listed(p) => ActHeldFitting(c, s.w, i, bar, prev, p);
  }

  lemma NewBarFitting(c: Config, w: World, i: TickIn, bar: int)
    requires Told(w) && i.fetch == Some(bar)
    ensures Fitting(c, i, w, NewBar(c, w, i, bar))
  {
    hide Told, Fitting, Act, ManageAfterFailure, EnterCodeFailure;
    SelfFitting(c, i, w);
    var marked := w.(lastBar := Some(bar));
    MarkFitting(c, i, w, w, marked);
    MarkFitting(c, i, w, w, w.(raised := true));
    FittingTold(c, i, w, marked);
    ActFitting(c, marked, i, bar, w.lastBar);
    FittingTwice(c, i, w, marked, Act(c, marked, i, bar, w.lastBar));
    if c.graph && i.cook.CodeError? {
      EnterCodeFailureFitting(c, w, i);
      FittingTold(c, i, w, EnterCodeFailure(w));
      ManageAfterFailureFitting(c, EnterCodeFailure(w), i, bar, c.isRegime);
      FittingTwice(c, i, w, EnterCodeFailure(w), ManageAfterFailure(c, EnterCodeFailure(w), i, bar, c.isRegime));
    }
  }

  lemma BarsFitting(c: Config, w: World, i: TickIn)
    requires Told(w)
    ensures Fitting(c, i, w, Bars(c, w, i))
  {
    hide Told, Fitting, Manage, NewBar;
    SelfFitting(c, i, w);
    if i.fetch.Some? {
      var bar := i.fetch.value;
      NewBarFitting(c, w, i, bar);
      ManageFitting(c, w, i, bar, c.isRegime);
      var m := Manage(c, w, i, bar, c.isRegime).w;
      MarkFitting(c, i, w, m, m.(raised := true));
    }
  }

  lemma WorkingFitting(c: Config, w: World, i: TickIn)
    requires Told(w)
    ensures Fitting(c, i, w, Working(c, w, i))
  {
    hide Told, Fitting, Bars, CodeTick, EnterCodeFailure, Working;
    WorkingCases(c, w, i);
    SelfFitting(c, i, w);
    BarsFitting(c, w, i);
    if c.graph && !w.compiled {
      match i.compile
      case Compiles => CompiledFitting(c, w, i);
      case CodeRefused => CodeRefusedFitting(c, w, i);
      case Broken => MarkFitting(c, i, w, w, w.(paused := true));
      case CompilerDown => MarkFitting(c, i, w, w, w.(raised := true));
    }
  }

  lemma CompiledFitting(c: Config, w: World, i: TickIn)
    requires Told(w)
    ensures Fitting(c, i, w, Bars(c, w.(compiled := true), i))
  {
    hide Told, Fitting, Bars;
    var w0 := w.(compiled := true);
    SelfFitting(c, i, w);
    MarkFitting(c, i, w, w, w0);
    FittingTold(c, i, w, w0);
    BarsFitting(c, w0, i);
    FittingTwice(c, i, w, w0, Bars(c, w0, i));
  }

  lemma CodeRefusedFitting(c: Config, w: World, i: TickIn)
    requires Told(w) && c.graph && i.compile.CodeRefused?
    ensures Fitting(c, i, w, CodeTick(c, EnterCodeFailure(w), i))
  {
    hide Told, Fitting, CodeTick, EnterCodeFailure;
    EnterCodeFailureFitting(c, w, i);
    FittingTold(c, i, w, EnterCodeFailure(w));
    CodeTickFitting(c, EnterCodeFailure(w), i);
    FittingTwice(c, i, w, EnterCodeFailure(w), CodeTick(c, EnterCodeFailure(w), i));
  }

  lemma WorkingCases(c: Config, w: World, i: TickIn)
    ensures !c.graph || w.compiled ==> Working(c, w, i) == Bars(c, w, i)
    ensures c.graph && !w.compiled ==>
              Working(c, w, i) == match i.compile
                                  case Compiles => Bars(c, w.(compiled := true), i)
                                  case CodeRefused => CodeTick(c, EnterCodeFailure(w), i)
                                  case Broken => w.(paused := true)
                                  case CompilerDown => w.(raised := true)
  {
    hide Bars, CodeTick, EnterCodeFailure;
  }

  lemma BeginFitting(c: Config, w: World, i: TickIn)
    requires Told(w)
    ensures Fitting(c, i, w, Begin(w))
  {
    hide KnownOf, Fitting;
    LogGoing(c, i, w, Begin(w), TickBegan);
    GoingFitting(c, i, w, Begin(w));
  }

  lemma TickFitting(c: Config, w: World, i: TickIn)
    requires Told(w)
    ensures Fitting(c, i, w, Tick(c, w, i))
  {
    hide Told, Fitting, Begin, Working, CodeTick;
    BeginFitting(c, w, i);
    var b := Begin(w);
    FittingTold(c, i, w, b);
    SelfFitting(c, i, b);
    CodeTickFitting(c, b, i);
    WorkingFitting(c, b, i);
    FittingTwice(c, i, w, b, Ticking(c, b, i));
  }

  // ---- every run ----

  lemma UpdateTold(w: World)
    requires Told(w)
    ensures Told(UpdateGraph(w)) && UpdateGraph(w).history == w.history
  {
    hide KnownOf;
  }

  lemma InitTold(c: Config, s: Saved)
    ensures Told(Init(c, s))
  {
  }

  /** After every run the position held, the pending flip, the closes sent and the exit kept are what the
      history tells of them. */
  lemma {:induction false} EveryRunIsTold(c: Config, s: Saved, steps: seq<Step>)
    ensures Told(Run(c, Init(c, s), steps))
  {
    hide Told, Fitting, Tick, Init, UpdateGraph;
    if steps == [] {
      InitTold(c, s);
    } else {
      var w := Run(c, Init(c, s), steps[..|steps| - 1]);
      EveryRunIsTold(c, s, steps[..|steps| - 1]);
      UpdateTold(w);
      if steps[|steps| - 1].Ticks? {
        TickFitting(c, w, steps[|steps| - 1].input);
        FittingTold(c, steps[|steps| - 1].input, w, Tick(c, w, steps[|steps| - 1].input));
      }
    }
  }

  lemma {:induction false} FitsWithin(c: Config, i: TickIn, h0: History, h: History, past: History, e: Event)
    requires FitsSince(c, i, h0, h) && Within(Then(past, e), h) && !Within(Then(past, e), h0)
    ensures Fits(c, i, past, e) && Within(h0, past)
    decreases h
  {
    hide Fits;
    if h == Then(past, e) {
      BeforeIsWithin(c, i, h0, past);
    } else if h != h0 {
      FitsWithin(c, i, h0, h.past, past, e);
    }
  }

  lemma {:induction false} BeforeIsWithin(c: Config, i: TickIn, h0: History, h: History)
    requires FitsSince(c, i, h0, h)
    ensures Within(h0, h)
    decreases h
  {
    hide Fits;
    if h != h0 { BeforeIsWithin(c, i, h0, h.past); }
  }

  /** e, after past, happened in step k, a tick, and fits its input. */
  ghost predicate FitsStep(c: Config, s: Saved, steps: seq<Step>, k: nat, past: History, e: Event)
    requires k < |steps|
  {
    && steps[k].Ticks? && Fits(c, steps[k].input, past, e)
    && Within(Run(c, Init(c, s), steps[..k]).history, past) && Within(Then(past, e), Run(c, Init(c, s), steps[..k + 1]).history)
  }

  /** In every run every event happened in a tick whose input it fits. */
  lemma {:induction false} EveryEventFits(c: Config, s: Saved, steps: seq<Step>, past: History, e: Event)
    requires Within(Then(past, e), Run(c, Init(c, s), steps).history)
    ensures exists k: nat | k < |steps| :: FitsStep(c, s, steps, k, past, e)
  {
    hide Fits, Told, Tick, UpdateGraph, Within;
    if steps == [] {
      InitBegan(c, s, past, e);
    } else {
      var n := |steps| - 1;
      var before := steps[..n];
      var w := Run(c, Init(c, s), before);
      if Within(Then(past, e), w.history) {
        EveryEventFits(c, s, before, past, e);
        var k: nat :| k < |before| && FitsStep(c, s, before, k, past, e);
        StepStays(c, s, steps, n, k, past, e);
      } else {
        LastStepFits(c, s, steps, past, e);
        assert FitsStep(c, s, steps, n, past, e);
      }
    }
  }

  lemma InitBegan(c: Config, s: Saved, past: History, e: Event)
    ensures !Within(Then(past, e), Init(c, s).history)
  {
  }

  lemma StepStays(c: Config, s: Saved, steps: seq<Step>, n: nat, k: nat, past: History, e: Event)
    requires n <= |steps| && k < n && FitsStep(c, s, steps[..n], k, past, e)
    ensures FitsStep(c, s, steps, k, past, e)
  {
    hide Fits, Run, Within;
    assert steps[..n][..k] == steps[..k] && steps[..n][..k + 1] == steps[..k + 1];
  }

  lemma LastStepFits(c: Config, s: Saved, steps: seq<Step>, past: History, e: Event)
    requires steps != [] && Within(Then(past, e), Run(c, Init(c, s), steps).history)
    requires !Within(Then(past, e), Run(c, Init(c, s), steps[..|steps| - 1]).history)
    ensures FitsStep(c, s, steps, |steps| - 1, past, e)
  {
    hide Fits, Told, Tick, UpdateGraph, Within, FitsSince;
    var n := |steps| - 1;
    var w := Run(c, Init(c, s), steps[..n]);
    EveryRunIsTold(c, s, steps[..n]);
    UpdateTold(w);
    assert steps[..n + 1] == steps;
    if steps[n].Ticks? && !w.paused {
      TickFitting(c, w, steps[n].input);
      FitsWithin(c, steps[n].input, w.history, Tick(c, w, steps[n].input).history, past, e);
    }
  }

  // ---- what it says of entries and of exits ----

  /** Every entry of a run goes out on the bot's own side, and a regime bot's on the side its regime had in
      the tick; on a buy signal it goes out only when a reply lists no position on the symbol, or, for a
      bot that holds one side, first one on that side, and only in hours, unblocked, with the spread
      right and its order filled. */
  lemma EntriesGoTheirWay(c: Config, s: Saved, steps: seq<Step>, past: History, side: Side, at: real, carried: nat, price: real)
    requires Within(Then(past, Entered(side, at, carried, price)), Run(c, Init(c, s), steps).history)
    ensures !c.isRegime ==> side == c.direction
    ensures exists k | 0 <= k < |steps| :: steps[k].Ticks? && EntersAsTold(c, steps[k].input, past, side, at, price)
  {
    hide Run, Init, Within, Fits;
    var e := Entered(side, at, carried, price);
    EveryEventFits(c, s, steps, past, e);
    var k: nat :| k < |steps| && FitsStep(c, s, steps, k, past, e);
    EntryIsAsTold(c, steps[k].input, past, side, at, carried, price);
  }

  predicate EntersAsTold(c: Config, i: TickIn, past: History, side: Side, at: real, price: real) {
    && (c.isRegime ==> i.regimeDir == Some(side)) && i.inHours && !i.entryBlocked
    && i.entry == Filled(price) && at == i.now
    && (AfterFlip(past) || (i.buySignal && i.spreadOk && i.entryCheck.Ok? && Room(c, i.entryCheck.positions, side)))
    && (AfterFlip(past) ==> c.isRegime && c.onFlip == CloseAndReverse)
  }

  /** The candidate came right after the end of a flip. */
  predicate AfterFlip(past: History) {
    past.Then? && Reverses(past.past)
  }

  lemma EntryIsAsTold(c: Config, i: TickIn, past: History, side: Side, at: real, carried: nat, price: real)
    requires Fits(c, i, past, Entered(side, at, carried, price))
    ensures EntersAsTold(c, i, past, side, at, price) && (!c.isRegime ==> side == c.direction)
  {
    hide KnownOf, Room;
  }

  /** Every bar counted in a run moves the hold as the law says and finds the exit the law says, under the
      settings in force for the position's direction. */
  lemma ExitsObeyTheLaw(c: Config, s: Saved, steps: seq<Step>, past: History, bar: int, due: Option<Reason>, limit: Option<int>, hold: Hold)
    requires Within(Then(past, Evaluated(bar, due, limit, hold)), Run(c, Init(c, s), steps).history)
    ensures exists k | 0 <= k < |steps| ::
              steps[k].Ticks? && EvaluationFits(c, steps[k].input, past, bar, due, limit, hold)
  {
    hide Run, Init, Within, Fits, EvaluationFits;
    var e := Evaluated(bar, due, limit, hold);
    EveryEventFits(c, s, steps, past, e);
    var k: nat :| k < |steps| && FitsStep(c, s, steps, k, past, e);
    FitsEvaluation(c, steps[k].input, past, bar, due, limit, hold);
  }

  lemma FitsEvaluation(c: Config, i: TickIn, past: History, bar: int, due: Option<Reason>, limit: Option<int>, hold: Hold)
    requires Fits(c, i, past, Evaluated(bar, due, limit, hold))
    ensures EvaluationFits(c, i, past, bar, due, limit, hold)
  {
    hide EvaluationFits;
  }
}
