/** One runner's tick as a function: backend/bot_runner.py (`_tick` and its helpers),
    backend/exits.py and backend/regime.py.  Whatever the outside world answers during a tick
    is part of the tick's input; what the runner did is appended to its history. */
module RunnerSpec {
  import opened BotTypes
  import opened PriceExits

  datatype OnFlip = HoldOn | CloseOnly | CloseAndReverse
  datatype Trigger = OnStop | OnTrail | OnBoth

  /** What is fixed for one runner. */
  datatype Config = Config(
    symbol: string, direction: Side, bidirectional: bool, graph: bool, isRegime: bool,
    onFlip: OnFlip, sizingTrigger: Trigger, skipOn: bool, skipTrigger: Trigger, skipCount: int)

  /** The bot's saved state a runner starts from. */
  datatype Saved = Saved(
    entryPrice: Option<real>, entryTime: Option<real>, barCount: int,
    trailPeak: Option<real>, trailStop: Option<real>,
    pendingId: Option<int>, pendingReason: Option<Reason>, dir: Option<Side>, pendingFlip: bool,
    consecStops: nat, skipLeft: int, lastBar: Option<int>, exitsOnly: bool)

  datatype Compile = Compiles | CodeRefused | Broken | CompilerDown
  datatype Cook = Cooked | CodeError | CookError

  /** Everything a tick can be told: by the clock, the data provider, the strategy, the broker. */
  datatype TickIn = TickIn(
    now: real, inHours: bool, compile: Compile, fetch: Option<int>, referenceDown: bool,
    cook: Cook, indicatorsFail: bool, planLost: bool,
    quote: Quote, settings: Settings, regimeDir: Option<Side>, buySignal: bool, sellSignal: bool,
    entryBlocked: bool, spreadOk: bool, drawdown: bool,
    check: Reply, fills: FillReply, verify: Reply, close: CloseReply, post: seq<Reply>,
    exitFill: real, entryCheck: Reply, entry: EntryReply)

  /** Why a tracked position missing at the broker was given up. */
  datatype Evidence =
    | ByOwnOrder(id: int)                  // the fill of the bot's own close order
    | ByFill(side: OrderSide, filledAt: real, entryTime: real)  // a closing-side fill of this trade
    | ByTwoReplies                         // two replies that list other positions, never this one

  datatype BookKind = OwnClose | ExternalClose | FlipClose

  datatype Event =
    | TickBegan
    | Checked(reply: Reply, want: Option<Side>)      // _broker_position
    | AskedAtExit(reply: Reply, side: Side, forWhy: Reason, askBar: int)  // _execute_exit, before the close
    | PolledAfterClose(reply: Reply, pollSide: Option<Side>)
    | Evaluated(bar: int, due: Option<Reason>, limit: Option<int>, hold: Hold)  // hold: with the bar counted
    | CloseAccepted(closeBar: int, why: Reason, onSide: Option<Side>, id: int)
    | CloseRefused
    | Gone(evidence: Evidence)
    | Booked(kind: BookKind, reason: Reason, qty: real, price: real)
    | SideCleared
    | FlipCleaned(held: bool)
    | CandidateSkipped
    | CandidatePassed
    | Entered(side: Side, at: real, carried: nat, price: real)  // carried: _missing_checks when it went out
    | Resumed(at: real, dir: Option<Side>, since: real, hold: Hold)
    | FlipLeft                                        // a flip's close refused or not confirmed
    | CodeFailed(mayHold: bool, owes: bool, onBar: Option<int>)  // owes: the exit kept for onBar is a signal's
    | PausedForCode

  /** What a runner has done since it began, newest last. */
  datatype History = Began(start: Saved) | Then(past: History, last: Event)

  datatype Outcome = Closed | Sent | CloseFailed | NotSent

  /** A runner: the bot's state, the runner's own fields and its history. */
  datatype World = World(
    entryPrice: Option<real>, entryTime: Option<real>, barCount: int,
    trailPeak: Option<real>, trailStop: Option<real>,
    pendingId: Option<int>, pendingReason: Option<Reason>, dir: Option<Side>, pendingFlip: bool,
    consecStops: nat, skipLeft: int, lastBar: Option<int>, exitsOnly: bool, paused: bool,
    exitsBar: Option<int>, exitsReason: Option<Reason>, problemBar: Option<int>,
    missing: nat, lastEmpty: bool, outcome: Option<Outcome>,
    codeFailed: bool, mayHold: bool, owesSignal: bool, compiled: bool, problem: bool, raised: bool,
    history: History)

  /** A step's new world with a yes or no answer, an exit that is due, or what a look at the
      broker found. */
  datatype Answer = Answer(w: World, yes: bool)
  datatype Decision = Decision(w: World, due: Option<Reason>)
  datatype Sighting = Sighting(w: World, check: Check)
  datatype Polled = Polled(h: History, result: PollResult)

  function Log(w: World, e: Event): World {
    w.(history := Then(w.history, e))
  }

  /** BotRunner.__init__ followed by the start of run(): a bot saved in the exits-only state goes
      on in it, and the bar it last worked on is not counted again. */
  function Init(c: Config, s: Saved): World {
    var failed := c.graph && s.exitsOnly;
    World(s.entryPrice, s.entryTime, s.barCount, s.trailPeak, s.trailStop,
          s.pendingId, s.pendingReason, s.dir, s.pendingFlip,
          s.consecStops, s.skipLeft, s.lastBar, s.exitsOnly, false,
          if failed then s.lastBar else None, None, if failed then s.lastBar else None,
          0, false, None, failed, failed, false, false, false, false, Began(s))
  }

  // ---- reading replies ----

  /** The first position on the symbol, on the wanted side when one is wanted. */
  function Find(ps: seq<Position>, symbol: string, want: Option<Side>): Option<Position> {
    if ps == [] then None
    else if ps[0].symbol == symbol && (want.None? || ps[0].side == want.value) then Some(ps[0])
    else Find(ps[1..], symbol, want)
  }

  predicate Lists(ps: seq<Position>, symbol: string, side: Option<Side>) {
    exists p <- ps :: p.symbol == symbol && Some(p.side) == side
  }

  function Abs(x: real): real {
    if x < 0.0 then -x else x
  }

  function CheckSide(c: Config, w: World, regime: bool): Option<Side> {
    if w.dir.Some? && (regime || c.bidirectional) then w.dir
    else if c.bidirectional then None
    else Some(c.direction)
  }

  predicate IsShort(c: Config, w: World) {
    (if w.dir.Some? then w.dir.value else c.direction) == Short
  }

  /** The side a tracked position is on. */
  function TrackedSide(c: Config, w: World): Side {
    if w.dir.Some? then w.dir.value else c.direction
  }

  datatype Check = CheckFailed | Missing | Listed(p: Position)

  function Resume(c: Config, w: World, p: Position, regime: bool, i: TickIn): World {
    var dir := if (regime || c.bidirectional) && w.dir.None? then Some(p.side) else w.dir;
    var since := if w.entryTime.None? then i.now else w.entryTime.value;
    Log(w.(entryPrice := Some(p.avgEntry), trailPeak := Some(i.quote.price),
           dir := dir, entryTime := Some(since)),
        Resumed(i.now, dir, since, Hold(p.avgEntry, w.barCount, Some(i.quote.price), w.trailStop)))
  }

  function ReadReply(r: Reply, symbol: string, want: Option<Side>): Check {
    match r
    case Unavailable => CheckFailed
    case Ok(ps) =>
      match Find(ps, symbol, want)
      case None => Missing
      case Some(p) => Listed(p)
  }

  /** What the runner notes from a reply of _broker_position. */
  function NoteReply(c: Config, w: World, check: Check, regime: bool, i: TickIn): World {
    match check
    case CheckFailed => w
    case Missing => w.(lastEmpty := NoPositions(i.check))
    case Listed(p) =>
      var noted := w.(lastEmpty := NoPositions(i.check));
      if noted.entryPrice.None? then Resume(c, noted, p, regime, i) else noted
  }

  predicate NoPositions(r: Reply) {
    r.Ok? && r.positions == []
  }

  function BrokerPosition(c: Config, w: World, regime: bool, i: TickIn): Sighting {
    var want := CheckSide(c, w, regime);
    var check := ReadReply(i.check, c.symbol, want);
    var counted := if check.Listed? then w.(missing := 0) else w;
    Sighting(NoteReply(c, Log(counted, Checked(i.check, want)), check, regime, i), check)
  }

  // ---- is a missing position really gone ----

  const FILL_TIME_SLACK := 5.0

  function CloseSide(short: bool): OrderSide {
    if short then Buy else Sell
  }

  /** The evidence a closed order gives that it closed the position with this pending close and
      entry time, if any. */
  function FillEvidence(pendingId: Option<int>, since: Option<real>, short: bool, o: Order): Option<Evidence> {
    if o.side != CloseSide(short) || !Truthy(o.avgPrice) then None
    else if pendingId == Some(o.id) then Some(ByOwnOrder(o.id))
    else if since.None? || o.filledAt.None? then None
    else if o.filledAt.value - since.value >= -FILL_TIME_SLACK
      then Some(ByFill(o.side, o.filledAt.value, since.value))
    else None
  }

  datatype Found = Found(order: Order, evidence: Evidence)

  /** The first closed order that gives evidence. */
  function ClosingFill(pendingId: Option<int>, since: Option<real>, short: bool, os: seq<Order>): Option<Found> {
    if os == [] then None
    else
      var ev := FillEvidence(pendingId, since, short, os[0]);
      if ev.Some? then Some(Found(os[0], ev.value)) else ClosingFill(pendingId, since, short, os[1..])
  }

  function LookUp(pendingId: Option<int>, since: Option<real>, short: bool, f: FillReply): Option<Found> {
    if f.Fills? then ClosingFill(pendingId, since, short, f.orders) else None
  }

  /** Is the position gone?  Yes with a fill, or at the second reply in a row without it. */
  function ConfirmGone(w: World, found: Option<Found>): Answer {
    var n := if w.lastEmpty then w.missing else w.missing + 1;
    if found.Some? then Answer(Log(w.(missing := 0), Gone(found.value.evidence)), true)
    else if n >= 2 then Answer(Log(w.(missing := 0), Gone(ByTwoReplies)), true)
    else Answer(w.(missing := n), false)
  }

  function FindFill(c: Config, w: World, i: TickIn): Option<Found> {
    LookUp(w.pendingId, w.entryTime, IsShort(c, w), i.fills)
  }

  // ---- booking an exit ----

  predicate Triggers(reason: Reason, t: Trigger) {
    match t
    case OnBoth => reason == StopLoss || reason == TrailingStop
    case OnTrail => reason == TrailingStop
    case OnStop => reason == StopLoss
  }

  /** The post-loss counters and the journal row of an exit. */
  function BookExit(c: Config, w: World, kind: BookKind, reason: Reason, qty: real, price: real): World {
    Log(w.(consecStops := if Triggers(reason, c.sizingTrigger) then w.consecStops + 1 else 0,
           skipLeft := if c.skipOn && Triggers(reason, c.skipTrigger) then c.skipCount else w.skipLeft),
        Booked(kind, reason, qty, price))
  }

  function ExternalReason(w: World, found: Option<Found>): Reason {
    match found
    case None => External
    case Some(f) =>
      if w.pendingId == Some(f.order.id) && w.pendingReason.Some? then w.pendingReason.value
      else match f.order.kind
           case Stop => StopLoss
           case StopLimit => StopLoss
           case TrailStop => TrailingStop
           case OtherKind => External
  }

  /** Everything a flat bot forgets (the list of section 6 of _tick). */
  function Forget(w: World): World {
    w.(entryPrice := None, barCount := 0, trailPeak := None, trailStop := None,
       pendingId := None, pendingReason := None, dir := None)
  }

  /** The booking of a close that happened at the broker: from its fill, or from the bar's price
      when no fill was found. */
  function BookExternal(c: Config, w: World, found: Option<Found>, i: TickIn): World {
    var price := if found.Some? && found.value.order.avgPrice.Some? then found.value.order.avgPrice.value
                 else i.quote.price;
    var qty := if found.Some? then found.value.order.qty else 0.0;
    BookExit(c, w, ExternalClose, ExternalReason(w, found), qty, price)
  }

  /** _detect_external_close.  Yes: the drawdown limit paused the bot. */
  function DetectExternalClose(c: Config, w: World, found: Option<Found>, i: TickIn): Answer {
    var booked := BookExternal(c, w, found, i);
    if i.drawdown then Answer(Forget(booked).(entryTime := None, paused := true), true)
    else Answer(booked, false)
  }

  // ---- sending a close ----

  datatype PollResult = PollFailed | StillOpen | Cleared

  const POLLS := 6

  /** Up to POLLS looks at the broker after a close was accepted. */
  function Poll(c: Config, h: History, side: Option<Side>, post: seq<Reply>, k: nat): Polled
    requires k <= POLLS
    decreases POLLS - k
  {
    if k == POLLS then Polled(h, StillOpen)
    else
      var reply := if k < |post| then post[k] else Unavailable;
      var asked := Then(h, PolledAfterClose(reply, side));
      match reply
      case Unavailable => Polled(asked, PollFailed)
      case Ok(ps) =>
        if Lists(ps, c.symbol, side) then Poll(c, asked, side, post, k + 1) else Polled(asked, Cleared)
  }

  /** _execute_exit: ask for the position again; close it when it is there on the tracked side. */
  function ExecuteExit(c: Config, w: World, i: TickIn, bar: int, reason: Reason): World {
    var asked := Log(w, AskedAtExit(i.verify, TrackedSide(c, w), reason, bar));
    ExitSeen(c, asked, ReadReply(i.verify, c.symbol, None), i, bar, reason)
  }

  function ExitSeen(c: Config, w: World, check: Check, i: TickIn, bar: int, reason: Reason): World {
    if !check.Listed? then w.(outcome := Some(NotSent))
    else if check.p.side != TrackedSide(c, w) then ClearOtherSide(w)
    else CloseAndBook(c, w, i, bar, reason, Abs(check.p.qty))
  }

  /** The broker holds the other side: the tracked position is stale. */
  function ClearOtherSide(w: World): World {
    Log(w.(outcome := Some(Closed), entryPrice := None, entryTime := None, barCount := 0,
           trailPeak := None, trailStop := None, dir := None), SideCleared)
  }

  function CloseAndBook(c: Config, w: World, i: TickIn, bar: int, reason: Reason, qty: real): World {
    match i.close
    case Refused => Log(w.(outcome := Some(CloseFailed)), CloseRefused)
    case Accepted(id) =>
      var polled := PollAfter(c, w, i, bar, reason, Some(TrackedSide(c, w)), id);
      var sent := w.(outcome := Some(Sent), pendingId := Some(id), pendingReason := Some(reason),
                     history := polled.h);
      if polled.result != Cleared then sent else FinishExit(c, sent, i, reason, qty)
  }

  /** A close was accepted: the polls after it. */
  function PollAfter(c: Config, w: World, i: TickIn, bar: int, reason: Reason, side: Option<Side>, id: int): Polled {
    Poll(c, Then(w.history, CloseAccepted(bar, reason, side, id)), side, i.post, 0)
  }

  function FinishExit(c: Config, w: World, i: TickIn, reason: Reason, qty: real): World {
    var booked := BookExit(c, w, OwnClose, reason, qty, i.exitFill);
    Forget(booked).(entryTime := None, outcome := Some(Closed), paused := booked.paused || i.drawdown)
  }

  /** Count the bar, move the trailing stop and see whether a price exit is due. */
  function Evaluate(c: Config, w: World, i: TickIn, bar: int): Decision {
    var short := IsShort(c, w);
    var rules := Resolve(i.settings, w.dir);
    var entry := if w.entryPrice.Some? then w.entryPrice.value else 0.0;
    var h := Advance(Hold(entry, w.barCount, w.trailPeak, w.trailStop), rules, short, i.quote);
    var due := Due(h, rules, short, i.quote.price);
    Decision(Log(w.(barCount := h.bars, trailPeak := h.peak, trailStop := h.stop),
                 Evaluated(bar, due, rules.maxBars, h)),
             due)
  }

  /** The price exits of bar, run once: a retry of the bar only repeats an exit not sent. */
  function PriceExitOnce(c: Config, w: World, i: TickIn, bar: int): Decision {
    if w.exitsBar == Some(bar) then Decision(w, w.exitsReason)
    else
      var ran := Evaluate(c, w, i, bar);
      Decision(ran.w.(exitsBar := Some(bar), exitsReason := ran.due), ran.due)
  }

  /** True: the bar is done (closed, sent or refused). */
  function AfterExitAttempt(w: World, reason: Reason): Answer {
    if w.entryPrice.None? || w.outcome == Some(Sent) || w.outcome == Some(CloseFailed)
    then Answer(w.(exitsReason := None), true)
    else Answer(w.(exitsReason := Some(reason)), false)
  }

  function TryExit(c: Config, w: World, i: TickIn, bar: int, reason: Reason): Answer {
    AfterExitAttempt(ExecuteExit(c, w.(outcome := None), i, bar, reason), reason)
  }

  /** The price exits when the broker could not be asked for the position. */
  function ExitsWithoutCheck(c: Config, w: World, i: TickIn, bar: int): Answer {
    if w.entryPrice.None? then Answer(w, false)
    else
      var ran := PriceExitOnce(c, w, i, bar);
      if ran.due.None? then Answer(ran.w, false) else TryExit(c, ran.w, i, bar, ran.due.value)
  }

  // ---- managing a position without signals ----

  function Problem(w: World, bar: int): World {
    w.(problem := true, problemBar := Some(bar))
  }

  /** The price exits of the position the broker listed, and whether the bot is flat after. */
  function ManageHeld(c: Config, w: World, i: TickIn, bar: int): Answer {
    var ran := PriceExitOnce(c, w, i, bar);
    if ran.due.None? then Answer(ran.w, false)
    else
      var tried := TryExit(c, ran.w, i, bar, ran.due.value);
      Answer(if tried.yes then tried.w.(lastBar := Some(bar)) else Problem(tried.w, bar),
             tried.w.entryPrice.None?)
  }

  /** A tracked position the broker does not list: booked once confirmed gone. */
  function ManageTrackedMissing(c: Config, w: World, i: TickIn, bar: int): Answer {
    var found := FindFill(c, w, i);
    var gone := ConfirmGone(w, found);
    if !gone.yes then Answer(Problem(gone.w, bar), false)
    else Answer(AfterExternalClose(c, gone.w, found, i), true)
  }

  function AfterExternalClose(c: Config, w: World, found: Option<Found>, i: TickIn): World {
    var booked := DetectExternalClose(c, w, found, i);
    if booked.yes then booked.w else Forget(booked.w)
  }

  /** _untracked_flat_problem and its caller: nothing tracked, nothing listed. */
  function ManageUntracked(w: World, bar: int): Answer {
    if !w.codeFailed || !w.mayHold then Answer(w, true)
    else if w.lastEmpty then Answer(Problem(w, bar), false)
    else if w.missing + 1 >= 2 then Answer(w.(missing := 0), true)
    else Answer(Problem(w.(missing := w.missing + 1), bar), false)
  }

  function ManageMissing(c: Config, w: World, i: TickIn, bar: int): Answer {
    if w.entryPrice.Some? then ManageTrackedMissing(c, w, i, bar) else ManageUntracked(w, bar)
  }

  function ManageUnchecked(c: Config, w: World, i: TickIn, bar: int): Answer {
    var ran := ExitsWithoutCheck(c, Problem(w, bar), i, bar);
    Answer(if ran.yes then ran.w.(lastBar := Some(bar)) else ran.w, false)
  }

  /** _manage_without_signals: (the world, whether the broker confirmed that the bot is flat). */
  function Manage(c: Config, w: World, i: TickIn, bar: int, regime: bool): Answer {
    if w.exitsBar == Some(bar) && w.exitsReason.None? && w.problemBar != Some(bar) then
      Answer(w.(problem := false), false)
    else ManageNow(c, w.(problem := false, problemBar := None), i, bar, regime)
  }

  function ManageNow(c: Config, w: World, i: TickIn, bar: int, regime: bool): Answer {
    ManageSeen(c, BrokerPosition(c, w, regime, i), i, bar)
  }

  function ManageSeen(c: Config, s: Sighting, i: TickIn, bar: int): Answer {
    match s.check
    case CheckFailed => ManageUnchecked(c, s.w, i, bar)
    case Missing => ManageMissing(c, s.w, i, bar)
    case Listed(_) => ManageHeld(c, s.w, i, bar)
  }

  // ---- a bot whose code failed ----

  function PauseForCode(w: World): World {
    Log(w.(exitsOnly := false, paused := true), PausedForCode)
  }

  function MarkExitsRan(w: World, bar: int): World {
    if w.exitsBar != Some(bar) || w.exitsReason.Some? then w else w.(lastBar := Some(bar))
  }

  /** After the price exits of a bot whose code failed: its pause once flat.  A problem with the
      broker's answer raises. */
  function Settle(m: Answer, bar: int): World {
    var done := if m.yes then PauseForCode(m.w) else MarkExitsRan(m.w, bar);
    done.(raised := done.problem, problem := false)
  }

  function ManageAfterFailure(c: Config, w: World, i: TickIn, bar: int, regime: bool): World {
    Settle(Manage(c, w, i, bar, regime), bar)
  }

  function CodeTick(c: Config, w: World, i: TickIn): World {
    match i.fetch
    case None => w.(raised := true, problem := false)
    case Some(bar) => ManageAfterFailure(c, w, i, bar, if i.planLost then c.bidirectional else c.isRegime)
  }

  function EnterCodeFailure(w: World): World {
    var mayHold := w.entryPrice.Some? || w.dir.Some? || w.exitsOnly;
    var owes := w.exitsReason == Some(Signal);
    Log(w.(codeFailed := true, mayHold := mayHold, owesSignal := owes, exitsOnly := true),
        CodeFailed(mayHold, owes, w.exitsBar))
  }

  // ---- entries ----

  function Enter(w: World, i: TickIn, side: Side): World {
    if i.entryBlocked || i.entry.NotEntered? then w else Open(w, i.entry.price, i.now, side)
  }

  function Open(w: World, price: real, now: real, side: Side): World {
    Log(w.(entryPrice := Some(price), entryTime := Some(now), barCount := 0, trailPeak := Some(price), dir := Some(side)),
        Entered(side, now, w.missing, price))
  }

  /** The entry after a regime close, unless the post-stop cooldown drops it. */
  function ReverseEntry(c: Config, w: World, i: TickIn, newDir: Option<Side>): World {
    if c.onFlip != CloseAndReverse || newDir.None? || !i.inHours then w
    else if w.skipLeft > 0 then Log(w.(skipLeft := w.skipLeft - 1), CandidateSkipped)
    else Enter(Log(w, CandidatePassed), i, newDir.value)
  }

  /** The flip stays pending. */
  function LeaveFlip(w: World): World {
    Log(w.(pendingFlip := true), FlipLeft)
  }

  function HandleFlip(c: Config, w: World, i: TickIn, bar: int, qty: real, newDir: Option<Side>): World {
    match i.close
    case Refused => LeaveFlip(w)
    case Accepted(id) =>
      var polled := PollAfter(c, w, i, bar, RegimeFlip, w.dir, id);
      var sent := w.(pendingId := Some(id), pendingReason := Some(RegimeFlip), history := polled.h);
      if polled.result != Cleared then LeaveFlip(sent)
      else FinishFlip(c, sent, i, qty, newDir)
  }

  function FinishFlip(c: Config, w: World, i: TickIn, qty: real, newDir: Option<Side>): World {
    var booked := Log(w.(consecStops := 0), Booked(FlipClose, RegimeFlip, qty, i.exitFill));
    ReverseEntry(c, Forget(booked).(pendingFlip := false), i, newDir)
  }

  /** A pending flip whose position cleared between ticks. */
  function CleanPendingFlip(c: Config, w: World, i: TickIn, newDir: Option<Side>): World {
    ReverseEntry(c, Log(Forget(w).(pendingFlip := false), FlipCleaned(w.entryPrice.Some?)), i, newDir)
  }

  /** True when the position list leaves room for an entry on the side. */
  predicate EntryAllowed(c: Config, ps: seq<Position>, side: Side) {
    match Find(ps, c.symbol, None)
    case None => true
    case Some(p) => !c.bidirectional && p.side == side
  }

  function EntryDir(c: Config, i: TickIn): Option<Side> {
    if c.isRegime then i.regimeDir else Some(c.direction)
  }

  /** The signalled entry of a flat bot. */
  function TryEntry(c: Config, w: World, i: TickIn): World {
    var side := EntryDir(c, i);
    if !i.inHours || side.None? || !i.buySignal || i.entryBlocked then w
    else if w.skipLeft > 0 then Log(w.(skipLeft := w.skipLeft - 1), CandidateSkipped)
    else EnterIfClear(c, Log(w, CandidatePassed), i, side.value)
  }

  function EnterIfClear(c: Config, w: World, i: TickIn, side: Side): World {
    if i.entryCheck.Unavailable? || !EntryAllowed(c, i.entryCheck.positions, side) || !i.spreadOk then w
    else Enter(w, i, side)
  }

  function NoPosition(c: Config, w: World, i: TickIn, found: Option<Found>): World {
    var booked := if w.entryPrice.Some? then DetectExternalClose(c, w, found, i) else Answer(w, false);
    if booked.yes then booked.w else TryEntry(c, Forget(booked.w), i)
  }

  /** The exit due on the bar: a price exit (run once per bar), else the sell signal. */
  function ExitDue(c: Config, w: World, i: TickIn, bar: int): Decision {
    var ran := if w.exitsBar == Some(bar) then Decision(w, w.exitsReason) else Evaluate(c, w, i, bar);
    Decision(ran.w, if ran.due.None? && i.sellSignal then Some(Signal) else ran.due)
  }

  function HeldExits(c: Config, w: World, i: TickIn, bar: int, prev: Option<int>): World {
    var ran := ExitDue(c, w, i, bar);
    if ran.due.None? then ran.w
    else
      var tried := ExecuteExit(c, ran.w.(outcome := None), i, bar, ran.due.value);
      if tried.entryPrice.Some? && tried.outcome == Some(NotSent)
      then tried.(exitsBar := Some(bar), exitsReason := ran.due, lastBar := prev, raised := true)
      else tried
  }

  /** _tick from step 5b on, for a bar whose signals are known. */
  function Act(c: Config, w: World, i: TickIn, bar: int, prev: Option<int>): World {
    ActSeen(c, BrokerPosition(c, w, c.isRegime, i), i, bar, prev)
  }

  function ActSeen(c: Config, s: Sighting, i: TickIn, bar: int, prev: Option<int>): World {
    match s.check
    case CheckFailed => ActUnchecked(c, s.w, i, bar, prev)
    case Missing => ActMissing(c, s.w, i, prev)
    case Listed(p) => ActHeld(c, s.w, i, bar, prev, p)
  }

  function ActUnchecked(c: Config, w: World, i: TickIn, bar: int, prev: Option<int>): World {
    var ran := ExitsWithoutCheck(c, w, i, bar);
    ran.w.(lastBar := if ran.yes then ran.w.lastBar else prev, raised := true)
  }

  function ActMissing(c: Config, w: World, i: TickIn, prev: Option<int>): World {
    if w.entryPrice.None? then ActFlat(c, w, i, None)
    else
      var found := FindFill(c, w, i);
      var gone := ConfirmGone(w, found);
      if !gone.yes then gone.w.(lastBar := prev, raised := true) else ActFlat(c, gone.w, i, found)
  }

  function ActFlat(c: Config, w: World, i: TickIn, found: Option<Found>): World {
    if c.isRegime && w.pendingFlip then CleanPendingFlip(c, w, i, EntryDir(c, i))
    else NoPosition(c, w, i, found)
  }

  function ActHeld(c: Config, w: World, i: TickIn, bar: int, prev: Option<int>, p: Position): World {
    if c.isRegime && (w.pendingFlip || (w.dir.Some? && EntryDir(c, i) != w.dir && c.onFlip != HoldOn))
    then HandleFlip(c, w, i, bar, Abs(p.qty), EntryDir(c, i))
    else HeldExits(c, w, i, bar, prev)
  }

  /** A bar the bot has not worked on yet. */
  function NewBar(c: Config, w: World, i: TickIn, bar: int): World {
    var prev := w.lastBar;
    var marked := w.(lastBar := Some(bar));
    if c.graph && i.cook.CodeError? then
      ManageAfterFailure(c, EnterCodeFailure(w), i, bar, c.isRegime)
    else if c.graph && i.cook.CookError? then w.(raised := true)
    else if !c.graph && i.indicatorsFail then marked
    else Act(c, marked, i, bar, prev)
  }

  function Bars(c: Config, w: World, i: TickIn): World {
    match i.fetch
    case None => w
    case Some(bar) =>
      if w.lastBar == Some(bar) then w
      else if c.graph && i.referenceDown then Manage(c, w, i, bar, c.isRegime).w.(raised := true)
      else NewBar(c, w, i, bar)
  }

  /** A tick whose bars are wanted: a graph bot compiles first, when its graph changed. */
  function Working(c: Config, w: World, i: TickIn): World {
    if !c.graph || w.compiled then Bars(c, w, i)
    else match i.compile
         case Compiles => Bars(c, w.(compiled := true), i)
         case CodeRefused => CodeTick(c, EnterCodeFailure(w), i)
         case Broken => w.(paused := true)
         case CompilerDown => w.(raised := true)
  }

  function Begin(w: World): World {
    Log(w.(raised := false, problem := false), TickBegan)
  }

  function Ticking(c: Config, w: World, i: TickIn): World {
    if c.graph && w.codeFailed then CodeTick(c, w, i)
    else if !i.inHours && w.entryPrice.None? then w
    else Working(c, w, i)
  }

  /** One tick. */
  function Tick(c: Config, w: World, i: TickIn): World {
    Ticking(c, Begin(w), i)
  }

  // ---- whole runs ----

  /** What happens to a runner: a tick, or a graph_update request between two ticks. */
  datatype Step = Ticks(input: TickIn) | GraphUpdate

  /** apply_graph_update: refused while a position is tracked; else the next tick compiles again
      and the saved exits-only state ends. */
  function UpdateGraph(w: World): World {
    if w.entryPrice.Some? then w else w.(compiled := false, exitsOnly := false)
  }

  /** A paused bot's loop has ended: nothing ticks any more. */
  function Next(c: Config, w: World, s: Step): World {
    if w.paused then w
    else match s
         case Ticks(i) => Tick(c, w, i)
         case GraphUpdate => UpdateGraph(w)
  }

  function Run(c: Config, w: World, steps: seq<Step>): World {
    if steps == [] then w else Next(c, Run(c, w, steps[..|steps| - 1]), steps[|steps| - 1])
  }
}
