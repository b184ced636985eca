/** A bot over its whole life: runs, crashes and restarts, Stop and Start. */
module RunnerLives {
  import opened BotTypes
  import opened RunnerSpec
  import opened PriceExits
  import opened RunnerSafety
  import opened RunnerTheorems
  import RunnerTraces

  datatype Bot = Running(w: World) | Idle(s: Saved)

  /** What happens to a bot.  Its code is checked when bots.json is loaded and when it starts. */
  datatype Turn =
    | Steps(step: Step)                    // a tick, or a graph update
    | Reloads(verdict: Compile)            // the server went away and loads bots.json again
    | Stops(close: bool, closed: bool)     // close: with the position; closed: the broker took it
    | Starts(verdict: Compile)

  /** The saved state in memory when its runner ends. */
  function InMemory(w: World): Saved {
    Saved(w.entryPrice, w.entryTime, w.barCount, w.trailPeak, w.trailStop, w.pendingId, w.pendingReason,
          w.dir, w.pendingFlip, w.consecStops, w.skipLeft, w.lastBar, w.exitsOnly)
  }

  function StateOf(b: Bot): Saved {
    if b.Running? then InMemory(b.w) else b.s
  }

  /** to_dict then from_dict: the bar count is not written. */
  function Persisted(s: Saved): Saved {
    s.(barCount := 0)
  }

  predicate HoldsPosition(s: Saved) {
    s.entryPrice.Some? || s.dir.Some? || s.exitsOnly
  }

  /** A refusal of the bot's code, on load or on start, while it holds a position: exits only. */
  function CodeChecked(c: Config, s: Saved, verdict: Compile): Saved {
    if c.graph && verdict.CodeRefused? && HoldsPosition(s) then s.(exitsOnly := true) else s
  }

  /** start_bot: a graph that does not compile is refused, but not for its code while the bot holds
      a position. */
  function Start(c: Config, s: Saved, verdict: Compile): Bot {
    var checked := CodeChecked(c, s, verdict);
    if !c.graph || verdict.Compiles? || (verdict.CodeRefused? && HoldsPosition(s)) then Running(Init(c, checked))
    else Idle(s)
  }

  function Stopped(s: Saved, close: bool, closed: bool): Saved {
    s.(entryPrice := None, trailPeak := None, trailStop := None, dir := None, pendingFlip := false,
       exitsOnly := if close && closed then false else s.exitsOnly)
  }

  predicate Ended(b: Bot) {
    b.Idle? || b.w.paused
  }

  function Turned(c: Config, b: Bot, t: Turn): Bot {
    match t
    case Steps(step) =>
      if b.Running? then Running(Next(c, b.w, step))
      else if step.GraphUpdate? && b.s.entryPrice.None? then Idle(b.s.(exitsOnly := false))
      else b
    case Reloads(verdict) => Idle(CodeChecked(c, Persisted(StateOf(b)), verdict))
    case Stops(close, closed) => Idle(Stopped(StateOf(b), close, closed))
    case Starts(verdict) => if Ended(b) then Start(c, StateOf(b), verdict) else b
  }

  function Life(c: Config, b: Bot, turns: seq<Turn>): Bot {
    if turns == [] then b else Turned(c, Life(c, b, turns[..|turns| - 1]), turns[|turns| - 1])
  }

  predicate ExitsOnly(b: Bot) {
    if b.Running? then b.w.exitsOnly else b.s.exitsOnly
  }

  /** The turns that end the exits-only state: the pause for it of a bot that tracks nothing, a Stop
      that closed the position, a graph update of a bot that tracks nothing. */
  predicate Ends(c: Config, b: Bot, t: Turn) {
    match t
    case Steps(Ticks(i)) => b.Running? && !b.w.paused && JustPaused(Tick(c, b.w, i))
    case Steps(GraphUpdate) => StateOf(b).entryPrice.None?
    case Reloads(_) => false
    case Stops(close, closed) => close && closed
    case Starts(_) => false
  }

  predicate NoneEnds(c: Config, b: Bot, turns: seq<Turn>) {
    turns == [] || var before := turns[..|turns| - 1];
                   NoneEnds(c, b, before) && !Ends(c, Life(c, b, before), turns[|turns| - 1])
  }

  /** A graph bot in the exits-only state runs as one whose code failed. */
  predicate Consistent(c: Config, b: Bot) {
    b.Running? ==> Inv(c, b.w) && RunnerTraces.Ties(c, b.w) && (c.graph && b.w.exitsOnly ==> b.w.codeFailed)
  }

  lemma TurnKeepsState(c: Config, b: Bot, t: Turn)
    requires c.graph && ExitsOnly(b) && Consistent(c, b) && !Ends(c, b, t)
    ensures ExitsOnly(Turned(c, b, t)) && Consistent(c, Turned(c, b, t))
  {
    hide Tick, Init, Inv, Start, RunnerTraces.Ties, RunnerTraces.TraceOf, RunnerTraces.TraceThen;
    match t
    case Steps(Ticks(i)) =>
      if b.Running? && !b.w.paused {
        TickSafe(c, b.w, i);
        RunnerTraces.TickTicked(c, b.w, i);
      }
    case Steps(GraphUpdate) =>
    case Reloads(_) =>
    case Stops(_, _) =>
    case Starts(verdict) =>
      if Ended(b) { StartKeepsState(c, StateOf(b), verdict); }
  }

  lemma StartKeepsState(c: Config, s: Saved, verdict: Compile)
    requires c.graph && s.exitsOnly
    ensures ExitsOnly(Start(c, s, verdict)) && Consistent(c, Start(c, s, verdict))
  {
    InitSafe(c, CodeChecked(c, s, verdict));
    RunnerTraces.InitTies(c, CodeChecked(c, s, verdict));
  }

  /** Since the code failed nothing was entered, and every accepted close was a price exit, or the
      signal exit left unsent at the failure, on the bar it was kept for, and once. */
  ghost predicate OnlyExits(c: Config, h: History) {
    forall past, e :: Within(Then(past, e), h) && CodeHasFailed(c, past) ==> ExitsOnlyEvent(past, e)
  }

  predicate ExitsOnlyEvent(past: History, e: Event) {
    && !e.Entered?
    && (e.CloseAccepted? ==>
          IsPriceExit(e.why)
          || (e.why == Signal && OwesSignal(past) && OwedBar(past) == Some(e.closeBar) && SignalsSinceFailure(past) == 0))
  }

  lemma SafeIsOnlyExits(c: Config, w: World)
    requires Inv(c, w) && RunnerTraces.Ties(c, w)
    ensures OnlyExits(c, w.history)
  {
    hide RunnerTraces.TraceOf, RunnerTraces.TraceThen, Sum, SumThen, Safe, SafeThen;
    forall past, e | Within(Then(past, e), w.history) && CodeHasFailed(c, past) ensures ExitsOnlyEvent(past, e) {
      SafeWithin(c, Then(past, e), w.history);
      Grows(c, past, e);
      FailureIsKnown(c, past);
      KeptWithin(c, Then(past, e), w.history);
      if e.CloseAccepted? && e.why == Signal { SignalIsOwed(c, past, e); }
    }
  }

  /** However often the bot is saved, crashes, is loaded, stopped and started, the exits-only state
      lasts until a turn that ends it; while it lasts, a runner enters nothing and sends only price
      exits and the signal exit left unsent before the failure. */
  lemma {:induction false} ExitsOnlyLasts(c: Config, b: Bot, turns: seq<Turn>)
    requires c.graph && ExitsOnly(b) && Consistent(c, b) && NoneEnds(c, b, turns)
    ensures var b1 := Life(c, b, turns);
            ExitsOnly(b1) && Consistent(c, b1) && (b1.Running? ==> b1.w.codeFailed && OnlyExits(c, b1.w.history))
  {
    hide Inv, RunnerTraces.Ties, OnlyExits;
    if turns != [] {
      var before := turns[..|turns| - 1];
      ExitsOnlyLasts(c, b, before);
      TurnKeepsState(c, Life(c, b, before), turns[|turns| - 1]);
    }
    if Life(c, b, turns).Running? { SafeIsOnlyExits(c, Life(c, b, turns).w); }
  }

  /** A tick in which the code fails leaves the bot in that state, or paused for it with nothing
      tracked. */
  lemma FailureBeginsExitsOnly(c: Config, w: World, i: TickIn)
    requires Inv(c, w) && RunnerTraces.Ties(c, w) && !w.paused && !w.codeFailed && Tick(c, w, i).codeFailed
    ensures var w1 := Tick(c, w, i);
            Consistent(c, Running(w1)) && (w1.exitsOnly || JustPaused(w1)) && OnlyExits(c, w1.history)
  {
    hide Tick, Inv, RunnerTraces.Ties, OnlyExits, RunnerTraces.TraceOf, RunnerTraces.TraceThen;
    TickSafe(c, w, i);
    RunnerTraces.TickTicked(c, w, i);
    SafeIsOnlyExits(c, Tick(c, w, i));
  }

  /** The hold that the price exits advance. */
  function HoldOf(w: World): Hold {
    Hold(if w.entryPrice.Some? then w.entryPrice.value else 0.0, w.barCount, w.trailPeak, w.trailStop)
  }

  lemma ReloadedHold(c: Config, w: World, onLoad: Compile, onStart: Compile)
    ensures var b := Turned(c, Turned(c, Running(w), Reloads(onLoad)), Starts(onStart));
            b.Running? ==> HoldOf(b.w) == HoldOf(w).(bars := 0)
  {
  }

  /** The bar count is not among the saved fields.  When the server goes away and the bot starts again,
      a time stop that would have been due after the bars that follow is still due after them if and
      only if those bars alone reach the limit; otherwise nothing is due. */
  lemma ReloadKeepsTimeStopIff(c: Config, w: World, onLoad: Compile, onStart: Compile, r: Rules, short: bool, qs: seq<Quote>)
    requires var b := Turned(c, Turned(c, Running(w), Reloads(onLoad)), Starts(onStart)); b.Running?
    requires qs != [] && Due(AfterBars(HoldOf(w), r, short, qs), r, short, qs[|qs| - 1].price) == Some(TimeStop)
    ensures var b := Turned(c, Turned(c, Running(w), Reloads(onLoad)), Starts(onStart));
            var due := Due(AfterBars(HoldOf(b.w), r, short, qs), r, short, qs[|qs| - 1].price);
            (due == Some(TimeStop) <==> |qs| >= r.maxBars.value) && (due == Some(TimeStop) || due.None?)
  {
    ReloadedHold(c, w, onLoad, onStart);
    CountDoesNotMatter(HoldOf(w), 0, r, short, qs);
  }
}
