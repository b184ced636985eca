/** Where the code does less than it says: each with a run that shows it, and exactly when it does
    not happen. */
module RunnerFindings {
  import opened BotTypes
  import opened PriceExits
  import opened RunnerSpec
  import opened RunnerSafety
  import opened RunnerTheorems
  import RunnerBars
  import RunnerTraces

  const RULE_BOT := Config("X", Long, false, false, false, HoldOn, OnStop, false, OnStop, 0)
  const NO_EXITS := Settings(Rules(None, None, None), Rules(None, None, None), Rules(None, None, None))
  const STOP_AT_10 := Settings(Rules(Some(10.0), None, None), Rules(None, None, None), Rules(None, None, None))
  const FLAT := Saved(None, None, 0, None, None, None, None, None, false, 0, 0, None, false)
  const HELD := FLAT.(entryPrice := Some(100.0), entryTime := Some(0.0), trailPeak := Some(100.0), dir := Some(Long))
  const ONE_BAR := Hold(100.0, 1, Some(100.0), None)
  const OTHER := Position("Y", Long, 1.0, 1.0)
  const MINE := Position("X", Long, 1.0, 100.0)

  /** A tick on a bar in which nobody answers and no signal is on. */
  function Quiet(bar: int): TickIn {
    TickIn(0.0, true, Compiles, Some(bar), false, Cooked, false, false, Quote(100.0, 100.0, 100.0, 0.0), NO_EXITS,
           None, false, false, false, true, false, Unavailable, NoFills, Unavailable, Refused, [], 100.0,
           Unavailable, NotEntered)
  }

  lemma OtherIsNotMine(want: Option<Side>)
    ensures Find([OTHER], "X", want).None? && Find([MINE], "X", Some(Long)) == Some(MINE) == Find([MINE], "X", None)
    ensures !Lists([OTHER], "X", want) && Lists([MINE], "X", Some(Long))
  {
    assert [OTHER][1..] == [] && OTHER.symbol != "X";
    assert MINE in [MINE];
  }

  /** A close that is accepted and confirmed by the first reply after it. */
  function ClosedAtOnce(c: Config, w: World, i: TickIn, bar: int, reason: Reason, id: int): World {
    var h := Then(Then(w.history, AskedAtExit(Ok([MINE]), Long, reason, bar)), CloseAccepted(bar, reason, Some(Long), id));
    FinishExit(c, w.(outcome := Some(Sent), pendingId := Some(id), pendingReason := Some(reason),
                     history := Then(h, PolledAfterClose(Ok([OTHER]), Some(Long)))), i, reason, 1.0)
  }

  lemma ClosesAtOnce(c: Config, w: World, i: TickIn, bar: int, reason: Reason)
    requires c.symbol == "X" && TrackedSide(c, w) == Long
    requires i.verify == Ok([MINE]) && i.close.Accepted? && i.post == [Ok([OTHER])]
    ensures ExecuteExit(c, w, i, bar, reason) == ClosedAtOnce(c, w, i, bar, reason, i.close.id)
  {
    hide FinishExit, CloseAndBook, ReadReply;
    MineIsSeen();
    BooksAtOnce(c, Log(w, AskedAtExit(i.verify, Long, reason, bar)), i, bar, reason);
  }

  lemma BooksAtOnce(c: Config, w: World, i: TickIn, bar: int, reason: Reason)
    requires c.symbol == "X" && TrackedSide(c, w) == Long && i.close.Accepted? && i.post == [Ok([OTHER])]
    ensures var h := Then(w.history, CloseAccepted(bar, reason, Some(Long), i.close.id));
            CloseAndBook(c, w, i, bar, reason, 1.0)
              == FinishExit(c, w.(outcome := Some(Sent), pendingId := Some(i.close.id), pendingReason := Some(reason),
                                  history := Then(h, PolledAfterClose(Ok([OTHER]), Some(Long)))), i, reason, 1.0)
  {
    hide FinishExit, Poll, TrackedSide;
    ClearsAtOnce(c, Then(w.history, CloseAccepted(bar, reason, Some(Long), i.close.id)));
  }

  lemma ClearsAtOnce(c: Config, h: History)
    requires c.symbol == "X"
    ensures Poll(c, h, Some(Long), [Ok([OTHER])], 0) == Polled(Then(h, PolledAfterClose(Ok([OTHER]), Some(Long))), Cleared)
  {
    OtherIsNotMine(Some(Long));
  }

  /** A tick of a bot that has nothing to compile, on a new bar. */
  lemma NewBarTick(c: Config, w: World, i: TickIn, bar: int)
    requires !w.codeFailed && i.inHours && i.fetch == Some(bar) && w.lastBar != Some(bar) && !i.referenceDown && !i.indicatorsFail
    requires c.graph ==> i.cook.Cooked? && (w.compiled || i.compile.Compiles?)
    ensures Tick(c, w, i) == Act(c, Begin(w).(lastBar := Some(bar), compiled := w.compiled || c.graph), i, bar, w.lastBar)
  {
    hide Act;
  }

  /** A tick whose position check fails, with a price exit due that closes the position. */
  lemma UncheckedExit(c: Config, w: World, i: TickIn, bar: int, prev: Option<int>)
    requires i.check.Unavailable? && w.entryPrice.Some? && w.exitsBar != Some(bar)
    requires var ran := Evaluate(c, Log(w, Checked(Unavailable, CheckSide(c, w, c.isRegime))), i, bar);
             ran.due.Some? && ExecuteExit(c, ran.w.(exitsBar := Some(bar), exitsReason := ran.due, outcome := None), i, bar,
                                          ran.due.value).entryPrice.None?
    ensures var ran := Evaluate(c, Log(w, Checked(Unavailable, CheckSide(c, w, c.isRegime))), i, bar);
            Act(c, w, i, bar, prev)
              == ExecuteExit(c, ran.w.(exitsBar := Some(bar), exitsReason := ran.due, outcome := None), i, bar, ran.due.value)
                 .(exitsReason := None, raised := true)
  {
    hide BrokerPosition, Evaluate, ExecuteExit, CheckSide, ActUnchecked;
    var seen := Log(w, Checked(Unavailable, CheckSide(c, w, c.isRegime)));
    SeesNothing(c, w, i, c.isRegime);
    BlindAct(c, seen, i, bar, prev);
  }

  lemma BlindAct(c: Config, w: World, i: TickIn, bar: int, prev: Option<int>)
    requires w.entryPrice.Some? && w.exitsBar != Some(bar)
    requires var ran := Evaluate(c, w, i, bar);
             ran.due.Some? && ExecuteExit(c, ran.w.(exitsBar := Some(bar), exitsReason := ran.due, outcome := None), i, bar,
                                          ran.due.value).entryPrice.None?
    ensures var ran := Evaluate(c, w, i, bar);
            ActUnchecked(c, w, i, bar, prev)
              == ExecuteExit(c, ran.w.(exitsBar := Some(bar), exitsReason := ran.due, outcome := None), i, bar, ran.due.value)
                 .(exitsReason := None, raised := true)
  {
    hide Evaluate, ExecuteExit, ExitsWithoutCheck;
    BlindExit(c, w, i, bar);
  }

  lemma BlindExit(c: Config, w: World, i: TickIn, bar: int)
    requires w.entryPrice.Some? && w.exitsBar != Some(bar)
    requires var ran := Evaluate(c, w, i, bar);
             ran.due.Some? && ExecuteExit(c, ran.w.(exitsBar := Some(bar), exitsReason := ran.due, outcome := None), i, bar,
                                          ran.due.value).entryPrice.None?
    ensures var ran := Evaluate(c, w, i, bar);
            ExitsWithoutCheck(c, w, i, bar)
              == Answer(ExecuteExit(c, ran.w.(exitsBar := Some(bar), exitsReason := ran.due, outcome := None), i, bar,
                                    ran.due.value).(exitsReason := None), true)
  {
    hide Evaluate, ExecuteExit, PriceExitOnce, ExitsWithoutCheck, TryExit;
    RanOnce(c, w, i, bar);
    ExitsTried(c, w, i, bar);
    var ran := Evaluate(c, w, i, bar);
    TryCloses(c, ran.w.(exitsBar := Some(bar), exitsReason := ran.due), i, bar, ran.due.value);
  }

  lemma RanOnce(c: Config, w: World, i: TickIn, bar: int)
    requires w.exitsBar != Some(bar)
    ensures var ran := Evaluate(c, w, i, bar);
            PriceExitOnce(c, w, i, bar) == Decision(ran.w.(exitsBar := Some(bar), exitsReason := ran.due), ran.due)
  {
    hide Evaluate;
  }

  lemma ExitsTried(c: Config, w: World, i: TickIn, bar: int)
    requires w.entryPrice.Some? && PriceExitOnce(c, w, i, bar).due.Some?
    ensures var ran := PriceExitOnce(c, w, i, bar); ExitsWithoutCheck(c, w, i, bar) == TryExit(c, ran.w, i, bar, ran.due.value)
  {
    hide PriceExitOnce, TryExit;
  }

  lemma TryCloses(c: Config, w: World, i: TickIn, bar: int, reason: Reason)
    requires ExecuteExit(c, w.(outcome := None), i, bar, reason).entryPrice.None?
    ensures TryExit(c, w, i, bar, reason)
         == Answer(ExecuteExit(c, w.(outcome := None), i, bar, reason).(exitsReason := None), true)
  {
    hide ExecuteExit;
  }

  lemma SeesOther(c: Config, w: World, i: TickIn, regime: bool)
    requires c.symbol == "X" && i.check == Ok([OTHER])
    ensures var want := CheckSide(c, w, regime);
            BrokerPosition(c, w, regime, i)
              == Sighting(w.(lastEmpty := false, history := Then(w.history, Checked(Ok([OTHER]), want))), Missing)
  {
    hide Find, CheckSide;
    MineIsSeen();
  }

  lemma ActOnMissing(c: Config, w: World, i: TickIn, bar: int, prev: Option<int>)
    requires BrokerPosition(c, w, c.isRegime, i).check.Missing?
    ensures Act(c, w, i, bar, prev) == ActMissing(c, BrokerPosition(c, w, c.isRegime, i).w, i, prev)
  {
    hide BrokerPosition, ActMissing;
  }

  lemma ActOnListed(c: Config, w: World, i: TickIn, bar: int, prev: Option<int>)
    requires BrokerPosition(c, w, c.isRegime, i).check == Listed(MINE)
    ensures Act(c, w, i, bar, prev) == ActHeld(c, BrokerPosition(c, w, c.isRegime, i).w, i, bar, prev, MINE)
  {
    hide BrokerPosition, ActHeld;
  }

  lemma SeesMine(c: Config, w: World, i: TickIn, regime: bool)
    requires c.symbol == "X" && i.check == Ok([MINE]) && w.entryPrice.Some?
    requires var want := CheckSide(c, w, regime); want.None? || want == Some(Long)
    ensures var want := CheckSide(c, w, regime);
            BrokerPosition(c, w, regime, i)
              == Sighting(w.(missing := 0, lastEmpty := false, history := Then(w.history, Checked(Ok([MINE]), want))), Listed(MINE))
  {
    hide ReadReply, CheckSide, NoteReply;
    MineIsSeen();
    var want := CheckSide(c, w, regime);
    assert ReadReply(i.check, c.symbol, want) == Listed(MINE);
    NoteReplyIs(c, Log(w.(missing := 0), Checked(i.check, want)), MINE, regime, i);
  }

  lemma SeesNothing(c: Config, w: World, i: TickIn, regime: bool)
    requires i.check.Unavailable?
    ensures BrokerPosition(c, w, regime, i)
              == Sighting(Log(w, Checked(Unavailable, CheckSide(c, w, regime))), CheckFailed)
  {
    hide CheckSide;
  }

  lemma MineIsSeen()
    ensures ReadReply(Ok([MINE]), "X", None) == Listed(MINE) == ReadReply(Ok([MINE]), "X", Some(Long))
    ensures forall want :: ReadReply(Ok([OTHER]), "X", want) == Missing
  {
    forall want ensures ReadReply(Ok([OTHER]), "X", want) == Missing { OtherIsNotMine(want); }
    OtherIsNotMine(None);
  }

  // ---- a miss outlives the position it was for ----

  const MISS := Quiet(1).(check := Ok([OTHER]))
  const BLIND_STOP := Quiet(1).(settings := STOP_AT_10, quote := Quote(80.0, 80.0, 80.0, 0.0),
                                verify := Ok([MINE]), close := Accepted(7), post := [Ok([OTHER])])
  const BUY := Quiet(2).(check := Ok([OTHER]), buySignal := true, entryCheck := Ok([OTHER]), entry := Filled(80.0))
  const MISS_AGAIN := Quiet(3).(check := Ok([OTHER]))

  function Missed(): World {
    Init(RULE_BOT, HELD).(missing := 1, compiled := false, raised := true,
      history := Then(Then(Began(HELD), TickBegan), Checked(Ok([OTHER]), Some(Long))))
  }

  lemma FirstMiss()
    ensures Tick(RULE_BOT, Init(RULE_BOT, HELD), MISS) == Missed()
  {
    hide Tick, Act, BrokerPosition;
    var w := Init(RULE_BOT, HELD);
    var m := Begin(w).(lastBar := Some(1));
    NewBarTick(RULE_BOT, w, MISS, 1);
    SeesOther(RULE_BOT, m, MISS, false);
    ActOnMissing(RULE_BOT, m, MISS, 1, None);
  }

  function StoppedBlind(): World {
    var h := Then(Then(Missed().history, TickBegan), Checked(Unavailable, Some(Long)));
    var seen := Then(Then(h, Evaluated(1, Some(StopLoss), None, ONE_BAR)), AskedAtExit(Ok([MINE]), Long, StopLoss, 1));
    var sent := Then(Then(seen, CloseAccepted(1, StopLoss, Some(Long), 7)), PolledAfterClose(Ok([OTHER]), Some(Long)));
    Missed().(entryPrice := None, entryTime := None, trailPeak := None, dir := None, consecStops := 1, lastBar := Some(1),
              exitsBar := Some(1), outcome := Some(Closed), raised := true,
              history := Then(sent, Booked(OwnClose, StopLoss, 1.0, 100.0)))
  }

  lemma ThenAStopWithNoCheck()
    ensures Tick(RULE_BOT, Missed(), BLIND_STOP) == StoppedBlind()
  {
    hide Tick, Act, ExecuteExit, Find;
    var w := Missed();
    var m := Begin(w).(lastBar := Some(1));
    NewBarTick(RULE_BOT, w, BLIND_STOP, 1);
    var seen := Log(m, Checked(Unavailable, Some(Long)));
    var ran := seen.(barCount := 1, history := Then(seen.history, Evaluated(1, Some(StopLoss), None, ONE_BAR)));
    assert Evaluate(RULE_BOT, seen, BLIND_STOP, 1) == Decision(ran, Some(StopLoss));
    ClosesAtOnce(RULE_BOT, ran.(exitsBar := Some(1), exitsReason := Some(StopLoss), outcome := None), BLIND_STOP, 1, StopLoss);
    UncheckedExit(RULE_BOT, m, BLIND_STOP, 1, None);
  }

  function Bought(): World {
    var h := Then(Then(StoppedBlind().history, TickBegan), Checked(Ok([OTHER]), Some(Long)));
    StoppedBlind().(entryPrice := Some(80.0), entryTime := Some(0.0), trailPeak := Some(80.0), dir := Some(Long),
                    lastBar := Some(2), raised := false,
                    history := Then(Then(h, CandidatePassed), Entered(Long, 0.0, 1, 80.0)))
  }

  lemma ThenAnEntry()
    ensures Tick(RULE_BOT, StoppedBlind(), BUY) == Bought()
  {
    hide Tick, Act, BrokerPosition, Find;
    var w := StoppedBlind();
    var m := Begin(w).(lastBar := Some(2));
    NewBarTick(RULE_BOT, w, BUY, 2);
    SeesOther(RULE_BOT, m, BUY, false);
    ActOnMissing(RULE_BOT, m, BUY, 2, Some(1));
    OtherIsNotMine(None);
  }

  function Dropped(): World {
    var h := Then(Then(Bought().history, TickBegan), Checked(Ok([OTHER]), Some(Long)));
    Bought().(entryPrice := None, trailPeak := None, dir := None, missing := 0, consecStops := 0, lastBar := Some(3),
              history := Then(Then(h, Gone(ByTwoReplies)), Booked(ExternalClose, External, 0.0, 100.0)))
  }

  lemma ThenOneMiss()
    ensures Tick(RULE_BOT, Bought(), MISS_AGAIN) == Dropped()
  {
    hide Tick, Act, BrokerPosition;
    var w := Bought();
    var m := Begin(w).(lastBar := Some(3));
    NewBarTick(RULE_BOT, w, MISS_AGAIN, 3);
    SeesOther(RULE_BOT, m, MISS_AGAIN, false);
    ActOnMissing(RULE_BOT, m, MISS_AGAIN, 3, Some(2));
  }

  /** A position can be booked as gone after one reply without it since its entry: the miss of the
      position before it was never forgotten.  It happens exactly with such a carried miss
      (RunnerMisses.BothRepliesSinceIff). */
  lemma OneMissDropsANewPosition()
    ensures var steps := [Ticks(MISS), Ticks(BLIND_STOP), Ticks(BUY), Ticks(MISS_AGAIN)];
            exists past :: Within(Then(past, Gone(ByTwoReplies)), Run(RULE_BOT, Init(RULE_BOT, HELD), steps).history)
                           && |LackingSince(RULE_BOT, past)| == 1 && CarriedMisses(RULE_BOT, past) == 1
  {
    hide Tick, Init, Missed, StoppedBlind, Bought, Dropped, Within, LackingSince, CarriedMisses;
    FirstMiss();
    ThenAStopWithNoCheck();
    ThenAnEntry();
    ThenOneMiss();
    FourSteps(RULE_BOT, Init(RULE_BOT, HELD), Ticks(MISS), Ticks(BLIND_STOP), Ticks(BUY), Ticks(MISS_AGAIN));
    OneMissSinceEntry();
  }

  lemma OneMissSinceEntry()
    ensures exists past :: Within(Then(past, Gone(ByTwoReplies)), Dropped().history)
                           && |LackingSince(RULE_BOT, past)| == 1 && CarriedMisses(RULE_BOT, past) == 1
    ensures !Init(RULE_BOT, HELD).paused && !Missed().paused && !StoppedBlind().paused && !Bought().paused
  {
    OtherIsNotMine(Some(Long));
    var past := Dropped().history.past.past;
    assert Dropped().history.past == Then(past, Gone(ByTwoReplies));
    assert LackingSince(RULE_BOT, past.past.past) == [];
  }

  lemma FourSteps(c: Config, w: World, a: Step, b: Step, d: Step, e: Step)
    ensures Run(c, w, [a]) == Next(c, w, a)
    ensures Run(c, w, [a, b]) == Next(c, Run(c, w, [a]), b)
    ensures Run(c, w, [a, b, d]) == Next(c, Run(c, w, [a, b]), d)
    ensures Run(c, w, [a, b, d, e]) == Next(c, Run(c, w, [a, b, d]), e)
  {
    hide Run, Next;
    NoSteps(c, w);
    OneStepMore(c, w, [], a);
    OneStepMore(c, w, [a], b);
    OneStepMore(c, w, [a, b], d);
    OneStepMore(c, w, [a, b, d], e);
    assert [] + [a] == [a] && [a] + [b] == [a, b] && [a, b] + [d] == [a, b, d] && [a, b, d] + [e] == [a, b, d, e];
  }

  lemma NoSteps(c: Config, w: World)
    ensures Run(c, w, []) == w
  {
  }

  lemma OneStepMore(c: Config, w: World, steps: seq<Step>, s: Step)
    ensures Run(c, w, steps + [s]) == Next(c, Run(c, w, steps), s)
  {
    hide Next;
    assert (steps + [s])[..|steps|] == steps;
  }

  // ---- a signal exit after the code failed ----

  const GRAPH_BOT := RULE_BOT.(graph := true)
  const UNSENT_SIGNAL := Quiet(1).(check := Ok([MINE]), sellSignal := true)
  const CODE_FAILS := Quiet(1).(cook := CodeError, check := Ok([MINE]), verify := Ok([MINE]),
                                close := Accepted(7), post := [Ok([OTHER])])

  function SignalUnsent(): World {
    var h := Then(Then(Began(HELD), TickBegan), Checked(Ok([MINE]), Some(Long)));
    Init(GRAPH_BOT, HELD).(compiled := true, barCount := 1, exitsBar := Some(1), exitsReason := Some(Signal),
      outcome := Some(NotSent), raised := true,
      history := Then(Then(h, Evaluated(1, None, None, ONE_BAR)), AskedAtExit(Unavailable, Long, Signal, 1)))
  }

  lemma SignalIsNotSent()
    ensures Tick(GRAPH_BOT, Init(GRAPH_BOT, HELD), UNSENT_SIGNAL) == SignalUnsent()
  {
    hide Tick, Act, BrokerPosition;
    var w := Init(GRAPH_BOT, HELD);
    var m := Begin(w).(lastBar := Some(1), compiled := true);
    NewBarTick(GRAPH_BOT, w, UNSENT_SIGNAL, 1);
    SeesMine(GRAPH_BOT, m, UNSENT_SIGNAL, false);
    ActOnListed(GRAPH_BOT, m, UNSENT_SIGNAL, 1, None);
  }

  function SignalSent(): World {
    var h := Then(Then(SignalUnsent().history, TickBegan), CodeFailed(true, true, Some(1)));
    var seen := Then(Then(h, Checked(Ok([MINE]), Some(Long))), AskedAtExit(Ok([MINE]), Long, Signal, 1));
    var sent := Then(Then(seen, CloseAccepted(1, Signal, Some(Long), 7)), PolledAfterClose(Ok([OTHER]), Some(Long)));
    SignalUnsent().(entryPrice := None, entryTime := None, barCount := 0, trailPeak := None, dir := None,
      lastBar := Some(1), exitsReason := None, outcome := Some(Closed), codeFailed := true, mayHold := true,
      owesSignal := true, exitsOnly := false, paused := true, raised := false,
      history := Then(Then(sent, Booked(OwnClose, Signal, 1.0, 100.0)), PausedForCode))
  }

  lemma ThenTheCodeFails()
    ensures Tick(GRAPH_BOT, SignalUnsent(), CODE_FAILS) == SignalSent()
  {
    hide Tick, BrokerPosition, ExecuteExit, Manage;
    var w := SignalUnsent();
    var f := EnterCodeFailure(Begin(w));
    FailingTick(GRAPH_BOT, w, CODE_FAILS, 1);
    var clean := f.(problem := false, problemBar := None);
    SeesMine(GRAPH_BOT, clean, CODE_FAILS, false);
    var seen := clean.(missing := 0, lastEmpty := false, history := Then(f.history, Checked(Ok([MINE]), Some(Long))));
    ClosesAtOnce(GRAPH_BOT, seen.(outcome := None), CODE_FAILS, 1, Signal);
    OwedExit(GRAPH_BOT, f, CODE_FAILS, 1, Signal);
  }

  lemma FailingTick(c: Config, w: World, i: TickIn, bar: int)
    requires c.graph && w.compiled && !w.codeFailed && i.inHours && i.fetch == Some(bar) && w.lastBar != Some(bar)
    requires !i.referenceDown && i.cook.CodeError?
    ensures Tick(c, w, i) == Settle(Manage(c, EnterCodeFailure(Begin(w)), i, bar, c.isRegime), bar)
  {
    hide Manage, EnterCodeFailure, Settle;
  }

  /** An exit that was decided on the bar and not sent closes the listed position. */
  lemma OwedExit(c: Config, w: World, i: TickIn, bar: int, reason: Reason)
    requires w.exitsBar == Some(bar) && w.exitsReason == Some(reason)
    requires var s := BrokerPosition(c, w.(problem := false, problemBar := None), c.isRegime, i);
             && s.check.Listed? && s.w.exitsBar == Some(bar) && s.w.exitsReason == Some(reason)
             && ExecuteExit(c, s.w.(outcome := None), i, bar, reason).entryPrice.None?
    ensures var s := BrokerPosition(c, w.(problem := false, problemBar := None), c.isRegime, i);
            Manage(c, w, i, bar, c.isRegime)
              == Answer(ExecuteExit(c, s.w.(outcome := None), i, bar, reason).(exitsReason := None, lastBar := Some(bar)), true)
  {
    hide BrokerPosition, ExecuteExit;
  }

  /** The code has failed and a signal close still goes out. */
  lemma SignalCloseAfterCodeFailure()
    ensures var h := Run(GRAPH_BOT, Init(GRAPH_BOT, HELD), [Ticks(UNSENT_SIGNAL), Ticks(CODE_FAILS)]).history;
            exists past :: Within(Then(past, CloseAccepted(1, Signal, Some(Long), 7)), h)
                           && CodeHasFailed(GRAPH_BOT, past) && OwesSignal(past)
  {
    hide Tick;
    SignalIsNotSent();
    ThenTheCodeFails();
    FourSteps(GRAPH_BOT, Init(GRAPH_BOT, HELD), Ticks(UNSENT_SIGNAL), Ticks(CODE_FAILS), GraphUpdate, GraphUpdate);
    var h := SignalSent().history;
    var past := h.past.past.past.past;
    assert h.past.past.past == Then(past, CloseAccepted(1, Signal, Some(Long), 7));
    assert Within(Then(past, CloseAccepted(1, Signal, Some(Long), 7)), h.past.past.past);
    assert Within(Then(past, CloseAccepted(1, Signal, Some(Long), 7)), h.past);
    assert CodeHasFailed(GRAPH_BOT, past.past.past);
    assert OwesSignal(past.past.past);
  }

  // ---- exactly when one is sent ----

  function SignalCloses(h: History): nat {
    match h
    case Began(_) => 0
    case Then(past, e) => SignalCloses(past) + if e.CloseAccepted? && e.why == Signal then 1 else 0
  }

  lemma {:induction false} SignalsAre(c: Config, h: History)
    ensures RunnerTraces.TraceOf(c, h).signals == SignalCloses(h)
  {
    TraceStep(c, h);
    hide RunnerTraces.TraceOf, RunnerTraces.TraceThen, RunnerTraces.AddTo;
    if h.Then? {
      AddSignals(RunnerTraces.TraceOf(c, h.past), h.last);
      SignalsAre(c, h.past);
    }
  }

  lemma AddSignals(t: RunnerTraces.Trace, e: Event)
    ensures RunnerTraces.AddTo(t, e).signals == t.signals + if e.CloseAccepted? && e.why == Signal then 1 else 0
  {
  }

  lemma AddEmpty(t: RunnerTraces.Trace, e: Event)
    ensures RunnerTraces.AddTo(t, e).empty == t.empty + if e == FlipCleaned(false) then 1 else 0
  {
    if e.FlipCleaned? { assert e == FlipCleaned(e.held); }
  }

  /** The symbol's position on a side. */
  function OnSide(c: Config, side: Side): Position {
    Position(c.symbol, side, 1.0, 100.0)
  }

  /** The code fails, or has failed, and the broker lists the position and takes its close. */
  function SignalTaken(c: Config, w: World, bar: int): TickIn {
    var want := CheckSide(c, w, c.isRegime);
    Quiet(bar).(compile := CodeRefused, cook := CodeError,
                check := if w.entryPrice.Some? then Unavailable
                         else Ok([OnSide(c, if want.Some? then want.value else TrackedSide(c, w))]),
                verify := Ok([OnSide(c, TrackedSide(c, w))]), close := Accepted(1))
  }

  lemma OnSideIsFound(c: Config, side: Side)
    ensures ReadReply(Ok([OnSide(c, side)]), c.symbol, None) == Listed(OnSide(c, side))
    ensures ReadReply(Ok([OnSide(c, side)]), c.symbol, Some(side)) == Listed(OnSide(c, side))
  {
    assert [OnSide(c, side)][0] == OnSide(c, side);
  }

  lemma CountSignals(h: History, a: Event, b: Event)
    ensures SignalCloses(Then(h, a)) == SignalCloses(h) + if a.CloseAccepted? && a.why == Signal then 1 else 0
    ensures SignalCloses(Then(Then(h, a), b)) == SignalCloses(Then(h, a)) + if b.CloseAccepted? && b.why == Signal then 1 else 0
  {
  }

  lemma ExecuteSendsSignal(c: Config, w: World, i: TickIn, bar: int)
    requires i.verify == Ok([OnSide(c, TrackedSide(c, w))]) && i.close == Accepted(1) && i.post == []
    ensures SignalCloses(ExecuteExit(c, w, i, bar, Signal).history) == SignalCloses(w.history) + 1
  {
    hide Poll, ReadReply, SignalCloses;
    OnSideIsFound(c, TrackedSide(c, w));
    var asked := Log(w, AskedAtExit(i.verify, TrackedSide(c, w), Signal, bar));
    var h := Then(asked.history, CloseAccepted(bar, Signal, Some(TrackedSide(c, asked)), 1));
    PollFails(c, h, Some(TrackedSide(c, asked)));
    assert ExecuteExit(c, w, i, bar, Signal)
        == asked.(outcome := Some(Sent), pendingId := Some(1), pendingReason := Some(Signal),
                  history := Then(h, PolledAfterClose(Unavailable, Some(TrackedSide(c, asked)))));
    CountSignals(w.history, asked.history.last, h.last);
    CountSignals(asked.history, h.last, PolledAfterClose(Unavailable, Some(TrackedSide(c, asked))));
  }

  predicate OwesOn(w: World, bar: int) {
    w.exitsBar == Some(bar) && w.exitsReason == Some(Signal)
  }

  lemma TrySendsSignal(c: Config, w: World, i: TickIn, bar: int)
    requires i.verify == Ok([OnSide(c, TrackedSide(c, w))]) && i.close == Accepted(1) && i.post == []
    ensures SignalCloses(TryExit(c, w, i, bar, Signal).w.history) == SignalCloses(w.history) + 1
  {
    hide ExecuteExit, SignalCloses, AfterExitAttempt;
    var cleared := w.(outcome := None);
    ExecuteSendsSignal(c, cleared, i, bar);
    AttemptHistory(ExecuteExit(c, cleared, i, bar, Signal), Signal);
  }

  lemma AttemptHistory(x: World, reason: Reason)
    ensures AfterExitAttempt(x, reason).w.history == x.history
  {
    var a := AfterExitAttempt(x, reason);
    assert a == Answer(x.(exitsReason := None), true) || a == Answer(x.(exitsReason := Some(reason)), false);
  }

  lemma OnceOwes(c: Config, w: World, i: TickIn, bar: int)
    requires OwesOn(w, bar)
    ensures PriceExitOnce(c, w, i, bar) == Decision(w, Some(Signal))
  {
    hide Evaluate;
  }

  lemma HeldSendsSignal(c: Config, w: World, i: TickIn, bar: int)
    requires OwesOn(w, bar)
    requires i.verify == Ok([OnSide(c, TrackedSide(c, w))]) && i.close == Accepted(1) && i.post == []
    ensures SignalCloses(ManageHeld(c, w, i, bar).w.history) == SignalCloses(w.history) + 1
  {
    TrySendsSignal(c, w, i, bar);
    hide TryExit, PriceExitOnce, SignalCloses, TrackedSide;
    OnceOwes(c, w, i, bar);
    var t := TryExit(c, w, i, bar, Signal);
    var a := ManageHeld(c, w, i, bar);
    assert a.w == t.w.(lastBar := Some(bar)) || a.w == Problem(t.w, bar);
  }

  lemma UncheckedSendsSignal(c: Config, w: World, i: TickIn, bar: int)
    requires OwesOn(w, bar) && w.entryPrice.Some?
    requires i.verify == Ok([OnSide(c, TrackedSide(c, w))]) && i.close == Accepted(1) && i.post == []
    ensures SignalCloses(ManageUnchecked(c, w, i, bar).w.history) == SignalCloses(w.history) + 1
  {
    hide TryExit, PriceExitOnce, SignalCloses;
    OnceOwes(c, Problem(w, bar), i, bar);
    TrySendsSignal(c, Problem(w, bar), i, bar);
  }

  lemma SeenSendsSignal(c: Config, s: Sighting, i: TickIn, bar: int)
    requires OwesOn(s.w, bar) && s.w.entryPrice.Some? && !s.check.Missing?
    requires i.verify == Ok([OnSide(c, TrackedSide(c, s.w))]) && i.close == Accepted(1) && i.post == []
    ensures SignalCloses(ManageSeen(c, s, i, bar).w.history) == SignalCloses(s.w.history) + 1
  {
    hide ManageHeld, ManageUnchecked, SignalCloses, TrackedSide;
    HeldSendsSignal(c, s.w, i, bar);
    UncheckedSendsSignal(c, s.w, i, bar);
  }

  lemma ResumesIt(c: Config, w: World, p: Position, regime: bool, i: TickIn)
    requires w.dir.None? ==> p.side == c.direction
    ensures var w1 := Resume(c, w, p, regime, i);
            && w1.entryPrice == Some(p.avgEntry) && TrackedSide(c, w1) == TrackedSide(c, w)
            && w1.exitsBar == w.exitsBar && w1.exitsReason == w.exitsReason && w1.history.Then? && w1.history.past == w.history
            && w1.history.last.Resumed?
  {
  }

  lemma LookResumes(c: Config, w: World, i: TickIn, p: Position)
    requires w.entryPrice.None? && ReadReply(i.check, c.symbol, CheckSide(c, w, c.isRegime)) == Listed(p)
    ensures var seen := Checked(i.check, CheckSide(c, w, c.isRegime));
            var noted := Log(w.(missing := 0), seen).(lastEmpty := NoPositions(i.check));
            BrokerPosition(c, w, c.isRegime, i) == Sighting(Resume(c, noted, p, c.isRegime, i), Listed(p))
  {
    hide ReadReply, Resume, CheckSide, NoPositions;
  }

  lemma BlindKeepsIt(c: Config, w: World, i: TickIn, bar: int)
    requires OwesOn(w, bar) && w.entryPrice.Some? && i.check.Unavailable?
    ensures var s := BrokerPosition(c, w, c.isRegime, i);
            && OwesOn(s.w, bar) && s.w.entryPrice.Some? && !s.check.Missing? && TrackedSide(c, s.w) == TrackedSide(c, w)
            && SignalCloses(s.w.history) == SignalCloses(w.history)
  {
    hide BrokerPosition, SignalCloses, CheckSide;
    SeesNothing(c, w, i, c.isRegime);
    CountSignals(w.history, Checked(i.check, CheckSide(c, w, c.isRegime)), TickBegan);
  }

  lemma ListedKeepsIt(c: Config, w: World, i: TickIn, bar: int, p: Position)
    requires OwesOn(w, bar) && w.entryPrice.None? && (w.dir.None? ==> p.side == c.direction)
    requires ReadReply(i.check, c.symbol, CheckSide(c, w, c.isRegime)) == Listed(p)
    ensures var s := BrokerPosition(c, w, c.isRegime, i);
            && OwesOn(s.w, bar) && s.w.entryPrice.Some? && !s.check.Missing? && TrackedSide(c, s.w) == TrackedSide(c, w)
            && SignalCloses(s.w.history) == SignalCloses(w.history)
  {
    hide ReadReply, Resume, SignalCloses, BrokerPosition, CheckSide, NoPositions;
    var want := CheckSide(c, w, c.isRegime);
    LookResumes(c, w, i, p);
    var noted := Log(w.(missing := 0), Checked(i.check, want)).(lastEmpty := NoPositions(i.check));
    ResumesIt(c, noted, p, c.isRegime, i);
    CountSignals(w.history, Checked(i.check, want), Resume(c, noted, p, c.isRegime, i).history.last);
  }

  lemma LookFindsIt(c: Config, w: World, bar: int)
    requires OwesOn(w, bar)
    ensures var s := BrokerPosition(c, w, c.isRegime, SignalTaken(c, w, bar));
            && OwesOn(s.w, bar) && s.w.entryPrice.Some? && !s.check.Missing? && TrackedSide(c, s.w) == TrackedSide(c, w)
            && SignalCloses(s.w.history) == SignalCloses(w.history)
  {
    hide ReadReply, SignalCloses, BrokerPosition, CheckSide, OwesOn, TrackedSide;
    var i, want := SignalTaken(c, w, bar), CheckSide(c, w, c.isRegime);
    if w.entryPrice.Some? {
      BlindKeepsIt(c, w, i, bar);
    } else {
      var p := OnSide(c, if want.Some? then want.value else TrackedSide(c, w));
      OnSideIsFound(c, p.side);
      SeenSide(c, w);
      ListedKeepsIt(c, w, i, bar, p);
    }
  }

  lemma SeenSide(c: Config, w: World)
    ensures var want := CheckSide(c, w, c.isRegime);
            w.dir.None? ==> (if want.Some? then want.value else TrackedSide(c, w)) == c.direction
  {
  }

  lemma ManageSendsSignal(c: Config, w: World, bar: int)
    requires OwesOn(w, bar)
    ensures SignalCloses(Manage(c, w, SignalTaken(c, w, bar), bar, c.isRegime).w.history) == SignalCloses(w.history) + 1
  {
    hide BrokerPosition, ManageSeen, SignalCloses, CheckSide;
    var clean := w.(problem := false, problemBar := None);
    var i := SignalTaken(c, w, bar);
    SameInput(c, w, clean, bar);
    LookFindsIt(c, clean, bar);
    SeenSendsSignal(c, BrokerPosition(c, clean, c.isRegime, i), i, bar);
  }

  lemma SameInput(c: Config, w: World, w1: World, bar: int)
    requires w1.dir == w.dir && w1.entryPrice == w.entryPrice
    ensures SignalTaken(c, w1, bar) == SignalTaken(c, w, bar)
  {
  }

  lemma SettleSendsSignal(m: Answer, bar: int)
    ensures SignalCloses(Settle(m, bar).history) == SignalCloses(m.w.history)
  {
    if m.yes { CountSignals(m.w.history, PausedForCode, TickBegan); }
  }

  lemma FailedTickSendsSignal(c: Config, w: World, bar: int)
    requires c.graph && w.codeFailed && OwesOn(w, bar)
    ensures var i := SignalTaken(c, w, bar);
            Tick(c, w, i) == Settle(Manage(c, Begin(w), i, bar, c.isRegime), bar)
            && SignalCloses(Tick(c, w, i).history) == SignalCloses(w.history) + 1
  {
    var i := SignalTaken(c, w, bar);
    RunnerTraces.TickIs(c, w, i);
    hide Tick, Settle, Manage, CheckSide, SignalCloses;
    CountSignals(w.history, TickBegan, TickBegan);
    SameInput(c, w, Begin(w), bar);
    ManageSendsSignal(c, Begin(w), bar);
    SettleSendsSignal(Manage(c, Begin(w), i, bar, c.isRegime), bar);
  }

  lemma FailingTickIs(c: Config, w: World, bar: int)
    requires c.graph && !w.codeFailed && (w.compiled ==> w.lastBar != Some(bar))
    ensures var i := SignalTaken(c, w, bar);
            Tick(c, w, i) == Settle(Manage(c, EnterCodeFailure(Begin(w)), i, bar, c.isRegime), bar)
  {
    hide Settle, Manage, EnterCodeFailure, CheckSide, TrackedSide, OnSide;
  }

  lemma FailingTickSendsSignal(c: Config, w: World, bar: int)
    requires c.graph && !w.codeFailed && OwesOn(w, bar) && (w.compiled ==> w.lastBar != Some(bar))
    requires RunnerTraces.Ties(c, w) && !w.paused
    ensures var i := SignalTaken(c, w, bar);
            Tick(c, w, i).codeFailed && SignalCloses(Tick(c, w, i).history) == SignalCloses(w.history) + 1
  {
    hide Tick, Settle, Manage, CheckSide, SignalCloses, SignalTaken, EnterCodeFailure;
    hide RunnerTraces.TraceOf, RunnerTraces.TraceThen, RunnerTraces.Ties;
    var i, f := SignalTaken(c, w, bar), EnterCodeFailure(Begin(w));
    FailingTickIs(c, w, bar);
    RunnerTraces.BeginTies(c, w);
    RunnerTraces.EnterCodeFailureMoved(c, Begin(w));
    RunnerTraces.ManageAfterFailureActed(c, f, i, bar, c.isRegime);
    FailureCounts(w);
    SameInput(c, w, f, bar);
    ManageSendsSignal(c, f, bar);
    SettleSendsSignal(Manage(c, f, i, bar, c.isRegime), bar);
  }

  lemma FailureCounts(w: World)
    ensures var f := EnterCodeFailure(Begin(w));
            && SignalCloses(f.history) == SignalCloses(w.history) && f.dir == w.dir && f.entryPrice == w.entryPrice
  {
    hide SignalCloses;
    CountSignals(w.history, TickBegan, EnterCodeFailure(Begin(w)).history.last);
  }

  /** After the code failed a tick can send a signal close exactly when the exit that is kept for some
      bar is a signal's. */
  lemma SignalAfterFailureIff(c: Config, s: Saved, steps: seq<Step>)
    requires Loadable(c, s)
    requires var w := Run(c, Init(c, s), steps); w.codeFailed && !w.paused
    ensures var w := Run(c, Init(c, s), steps);
            (exists i: TickIn :: SignalCloses(Tick(c, w, i).history) != SignalCloses(w.history))
            <==> w.exitsReason == Some(Signal) && w.exitsBar.Some?
  {
    var w := Run(c, Init(c, s), steps);
    RunnerTraces.EveryRunTies(c, s, steps);
    EveryRunIsSafe(c, s, steps);
    hide Run, Init, Tick, SignalCloses, RunnerTraces.TraceOf, RunnerTraces.TraceThen, RunnerTraces.Ties;
    if w.exitsReason == Some(Signal) && w.exitsBar.Some? {
      FailedTickSendsSignal(c, w, w.exitsBar.value);
    } else {
      forall i: TickIn ensures SignalCloses(Tick(c, w, i).history) == SignalCloses(w.history) {
        TickSendsOwed(c, w, i);
      }
    }
  }

  lemma TickSendsOwed(c: Config, w: World, i: TickIn)
    requires RunnerTraces.Ties(c, w) && !w.paused && (w.codeFailed ==> c.graph)
    ensures Tick(c, w, i).codeFailed && SignalCloses(Tick(c, w, i).history) != SignalCloses(w.history) ==>
              i.fetch.Some? && OwesOn(w, i.fetch.value)
    ensures w.codeFailed ==> Tick(c, w, i).codeFailed
  {
    hide Tick, RunnerTraces.TraceOf, RunnerTraces.TraceThen, RunnerTraces.CleansNothing, SignalCloses, RunnerTraces.Ties;
    RunnerTraces.TickTicked(c, w, i);
    SignalsAre(c, w.history);
    SignalsAre(c, Tick(c, w, i).history);
  }

  /** The tick in which the code fails can send one exactly when the signal exit is kept for a bar that
      it can work on: a bar it has not finished, or any while its graph is not compiled. */
  lemma SignalAtFailureIff(c: Config, s: Saved, steps: seq<Step>)
    requires Loadable(c, s)
    requires var w := Run(c, Init(c, s), steps); !w.codeFailed && !w.paused
    ensures var w := Run(c, Init(c, s), steps);
            (exists i: TickIn :: Tick(c, w, i).codeFailed && SignalCloses(Tick(c, w, i).history) != SignalCloses(w.history))
            <==> c.graph && w.exitsReason == Some(Signal) && w.exitsBar.Some? && (w.compiled ==> w.lastBar != w.exitsBar)
  {
    var w := Run(c, Init(c, s), steps);
    RunnerTraces.EveryRunTies(c, s, steps);
    EveryRunIsSafe(c, s, steps);
    hide Run, Init, Tick, SignalCloses, RunnerTraces.TraceOf, RunnerTraces.TraceThen, RunnerTraces.Ties, Inv;
    if c.graph && w.exitsReason == Some(Signal) && w.exitsBar.Some? && (w.compiled ==> w.lastBar != w.exitsBar) {
      FailingTickSendsSignal(c, w, w.exitsBar.value);
    } else {
      forall i: TickIn ensures !(Tick(c, w, i).codeFailed && SignalCloses(Tick(c, w, i).history) != SignalCloses(w.history)) {
        TickSendsOwed(c, w, i);
        FailsOnlyOnNewBar(c, w, i);
      }
    }
  }

  /** The code of a compiled bot fails only on a bar it has not worked on. */
  lemma FailsOnlyOnNewBar(c: Config, w: World, i: TickIn)
    requires !w.codeFailed && Inv(c, w)
    ensures Tick(c, w, i).codeFailed ==> c.graph && (w.compiled ==> i.fetch != w.lastBar)
  {
    hide Tick, Begin, Working, CodeTick, Inv, Linked;
    TickSafe(c, w, i);
    InvFails(c, Tick(c, w, i));
    RunnerTraces.BeginFields(w);
    RunnerTraces.TickIs(c, w, i);
    if w.compiled && i.fetch == w.lastBar { CompiledOnOldBar(c, Begin(w), i); }
  }

  lemma InvFails(c: Config, w: World)
    requires Inv(c, w)
    ensures w.codeFailed ==> c.graph
  {
    hide Safe, Sum;
  }

  lemma CompiledOnOldBar(c: Config, w: World, i: TickIn)
    requires w.compiled && i.fetch == w.lastBar
    ensures Working(c, w, i) == w
  {
    hide NewBar, Manage;
  }

  // ---- a flip cleanup with nothing to clean up ----

  const REGIME_BOT := RULE_BOT.(bidirectional := true, isRegime := true, onFlip := CloseOnly)
  const FLIP_REFUSED := Quiet(1).(check := Ok([MINE]), regimeDir := Some(Short))
  const STOPPED_AFTER := Quiet(2).(settings := STOP_AT_10, quote := Quote(80.0, 80.0, 80.0, 0.0), regimeDir := Some(Long),
                                   verify := Ok([MINE]), close := Accepted(7), post := [Ok([OTHER])])
  const CLEANUP := Quiet(3).(check := Ok([OTHER]))

  function FlipPending(): World {
    var h := Then(Then(Began(HELD), TickBegan), Checked(Ok([MINE]), Some(Long)));
    Init(REGIME_BOT, HELD).(pendingFlip := true, lastBar := Some(1), lastEmpty := false, history := Then(h, FlipLeft))
  }

  lemma TheFlipIsRefused()
    ensures Tick(REGIME_BOT, Init(REGIME_BOT, HELD), FLIP_REFUSED) == FlipPending()
  {
    hide Tick, Act, BrokerPosition;
    var w := Init(REGIME_BOT, HELD);
    var m := Begin(w).(lastBar := Some(1));
    NewBarTick(REGIME_BOT, w, FLIP_REFUSED, 1);
    SeesMine(REGIME_BOT, m, FLIP_REFUSED, true);
    ActOnListed(REGIME_BOT, m, FLIP_REFUSED, 1, None);
  }

  function FlipForgotten(): World {
    var h := Then(Then(FlipPending().history, TickBegan), Checked(Unavailable, Some(Long)));
    var seen := Then(Then(h, Evaluated(2, Some(StopLoss), None, ONE_BAR)), AskedAtExit(Ok([MINE]), Long, StopLoss, 2));
    var sent := Then(Then(seen, CloseAccepted(2, StopLoss, Some(Long), 7)), PolledAfterClose(Ok([OTHER]), Some(Long)));
    FlipPending().(entryPrice := None, entryTime := None, trailPeak := None, dir := None, consecStops := 1,
                   lastBar := Some(2), exitsBar := Some(2), outcome := Some(Closed), raised := true,
                   history := Then(sent, Booked(OwnClose, StopLoss, 1.0, 100.0)))
  }

  lemma ThenTheStopCloses()
    ensures Tick(REGIME_BOT, FlipPending(), STOPPED_AFTER) == FlipForgotten()
  {
    hide Tick, Act, ExecuteExit, Find;
    var w := FlipPending();
    var m := Begin(w).(lastBar := Some(2));
    NewBarTick(REGIME_BOT, w, STOPPED_AFTER, 2);
    var seen := Log(m, Checked(Unavailable, Some(Long)));
    var ran := seen.(barCount := 1, history := Then(seen.history, Evaluated(2, Some(StopLoss), None, ONE_BAR)));
    assert Evaluate(REGIME_BOT, seen, STOPPED_AFTER, 2) == Decision(ran, Some(StopLoss));
    ClosesAtOnce(REGIME_BOT, ran.(exitsBar := Some(2), exitsReason := Some(StopLoss), outcome := None), STOPPED_AFTER, 2, StopLoss);
    UncheckedExit(REGIME_BOT, m, STOPPED_AFTER, 2, Some(1));
  }

  function CleanedUp(): World {
    FlipForgotten().(pendingFlip := false, lastBar := Some(3), raised := false,
      history := Then(Then(Then(FlipForgotten().history, TickBegan), Checked(Ok([OTHER]), None)), FlipCleaned(false)))
  }

  lemma ThenNothingIsCleaned()
    ensures Tick(REGIME_BOT, FlipForgotten(), CLEANUP) == CleanedUp()
  {
    hide Tick, Act, BrokerPosition;
    var w := FlipForgotten();
    var m := Begin(w).(lastBar := Some(3));
    NewBarTick(REGIME_BOT, w, CLEANUP, 3);
    SeesOther(REGIME_BOT, m, CLEANUP, true);
    ActOnMissing(REGIME_BOT, m, CLEANUP, 3, Some(2));
  }

  function Cleanups(h: History): nat {
    match h
    case Began(_) => 0
    case Then(past, e) => Cleanups(past) + if e.FlipCleaned? then 1 else 0
  }

  /** Booked exits and side-mismatch clears alone. */
  function ExitsBooked(h: History): nat {
    match h
    case Began(_) => 0
    case Then(past, e) => ExitsBooked(past) + if e.Booked? || e.SideCleared? then 1 else 0
  }

  /** Counting every flip cleanup against the positions opened goes below zero: an exit does not
      clear the pending flip, and the cleanup then finds nothing to clean up. */
  lemma CleanupOfNothing()
    ensures var h := Run(REGIME_BOT, Init(REGIME_BOT, HELD),
                         [Ticks(FLIP_REFUSED), Ticks(STOPPED_AFTER), Ticks(CLEANUP)]).history;
            Opened(h) - ExitsBooked(h) - Cleanups(h) == -1
  {
    hide Tick, Init, FlipPending, FlipForgotten, CleanedUp, Opened, ExitsBooked, Cleanups;
    TheFlipIsRefused();
    ThenTheStopCloses();
    ThenNothingIsCleaned();
    FourSteps(REGIME_BOT, Init(REGIME_BOT, HELD), Ticks(FLIP_REFUSED), Ticks(STOPPED_AFTER), Ticks(CLEANUP), GraphUpdate);
    CountCleanup();
  }

  lemma CountCleanup()
    ensures var h := CleanedUp().history; Opened(h) == 1 && ExitsBooked(h) == 1 && Cleanups(h) == 1
    ensures !Init(REGIME_BOT, HELD).paused && !FlipPending().paused && !FlipForgotten().paused
  {
    var h := FlipPending().history;
    assert Opened(h) == 1 && ExitsBooked(h) == 0 && Cleanups(h) == 0;
    var h1 := FlipForgotten().history;
    assert Opened(h1.past.past.past) == 1 && ExitsBooked(h1.past.past.past) == 0 && Cleanups(h1.past.past.past) == 0;
    assert Opened(h1) == 1 && ExitsBooked(h1) == 1 && Cleanups(h1) == 0;
  }

  // ---- exactly when there is nothing to clean up ----

  function EmptyCleanups(h: History): nat {
    match h
    case Began(_) => 0
    case Then(past, e) => EmptyCleanups(past) + if e == FlipCleaned(false) then 1 else 0
  }

  /** A flip is pending and no later event says it was resolved. */
  predicate PendingFlip(h: History) {
    match h
    case Began(s) => s.pendingFlip
    case Then(past, e) =>
      if e.FlipLeft? then true
      else if e.FlipCleaned? || (e.Booked? && e.kind == FlipClose) then false
      else PendingFlip(past)
  }

  /** The position of the pending flip was given up by another exit, and none was opened since; or the
      run began so. */
  predicate LeftWhilePending(h: History) {
    match h
    case Began(s) => s.pendingFlip && s.entryPrice.None?
    case Then(past, e) =>
      if (e.Booked? && e.kind != FlipClose) || e.SideCleared? then PendingFlip(past)
      else if e.Booked? || e.FlipCleaned? || e.FlipLeft? || Opens(e) then false
      else LeftWhilePending(past)
  }

  lemma AddFlips(t: RunnerTraces.Trace, e: Event)
    ensures var t1 := RunnerTraces.AddTo(t, e);
            && t1.pending == (e.FlipLeft? || (t.pending && !e.FlipCleaned? && !(e.Booked? && e.kind == FlipClose)))
            && t1.stray == if (e.Booked? && e.kind != FlipClose) || e.SideCleared? then t.pending
                           else t.stray && !e.Booked? && !e.FlipCleaned? && !e.FlipLeft? && !Opens(e)
  {
  }

  lemma {:induction false} FlipsAre(c: Config, h: History)
    ensures var t := RunnerTraces.TraceOf(c, h);
            t.empty == EmptyCleanups(h) && t.pending == PendingFlip(h) && t.stray == LeftWhilePending(h)
  {
    TraceStep(c, h);
    hide RunnerTraces.TraceOf, RunnerTraces.TraceThen, RunnerTraces.AddTo;
    if h.Then? {
      AddEmpty(RunnerTraces.TraceOf(c, h.past), h.last);
      AddFlips(RunnerTraces.TraceOf(c, h.past), h.last);
      FlipsAre(c, h.past);
    }
  }

  /** A bot whose state is as its history says, at the end of any run. */
  lemma FlipsOfRun(c: Config, s: Saved, steps: seq<Step>)
    requires Loadable(c, s)
    ensures var w := Run(c, Init(c, s), steps);
            RunnerTraces.Ties(c, w) && (w.codeFailed ==> c.graph) && (w.pendingFlip && w.entryPrice.None? <==> LeftWhilePending(w.history))
  {
    hide Run, Init, RunnerTraces.TraceOf, RunnerTraces.TraceThen, LeftWhilePending, PendingFlip, EmptyCleanups;
    RunnerTraces.EveryRunTies(c, s, steps);
    RunnerTraces.FailsOnlyGraphs(c, s, steps);
    FlipsAre(c, Run(c, Init(c, s), steps).history);
  }

  lemma NextCleans(c: Config, w: World, s: Step)
    requires RunnerTraces.Ties(c, w) && (w.codeFailed ==> c.graph)
    ensures EmptyCleanups(Next(c, w, s).history)
         == EmptyCleanups(w.history) + if !w.paused && s.Ticks? && RunnerTraces.CleansNothing(c, w, s.input) then 1 else 0
  {
    hide Next, RunnerTraces.TraceOf, RunnerTraces.TraceThen, RunnerTraces.CleansNothing, EmptyCleanups, RunnerTraces.Ties;
    RunnerTraces.NextTicked(c, w, s);
    FlipsAre(c, w.history);
    FlipsAre(c, Next(c, w, s).history);
  }

  /** A flat reply on a new bar, with everything else in order. */
  function FlatReply(w: World): TickIn {
    Quiet(if w.lastBar.Some? then w.lastBar.value + 1 else 0).(check := Ok([]))
  }

  /** At the end of any run the next tick can clean up a flip with nothing tracked exactly when the bot
      is a running regime bot whose pending flip's position was given up by another exit. */
  lemma EmptyCleanupIff(c: Config, s: Saved, steps: seq<Step>)
    requires Loadable(c, s)
    ensures var w := Run(c, Init(c, s), steps);
            (exists i: TickIn :: EmptyCleanups(Next(c, w, Ticks(i)).history) != EmptyCleanups(w.history))
            <==> c.isRegime && !w.paused && !w.codeFailed && LeftWhilePending(w.history)
  {
    var w := Run(c, Init(c, s), steps);
    FlipsOfRun(c, s, steps);
    hide Run, Init, Next, LeftWhilePending, EmptyCleanups, RunnerTraces.Ties;
    if c.isRegime && !w.paused && !w.codeFailed && LeftWhilePending(w.history) {
      NextCleans(c, w, Ticks(FlatReply(w)));
    }
    forall i: TickIn
      ensures EmptyCleanups(Next(c, w, Ticks(i)).history) != EmptyCleanups(w.history) ==>
                c.isRegime && !w.paused && !w.codeFailed && LeftWhilePending(w.history)
    {
      NextCleans(c, w, Ticks(i));
    }
  }

  /** The ticks of a run that clean up a flip with nothing tracked, told from the state before each. */
  function CleanedNothing(c: Config, w: World, steps: seq<Step>): nat {
    if steps == [] then 0
    else
      var before, last := Run(c, w, steps[..|steps| - 1]), steps[|steps| - 1];
      CleanedNothing(c, w, steps[..|steps| - 1])
      + if !before.paused && last.Ticks? && RunnerTraces.CleansNothing(c, before, last.input) then 1 else 0
  }

  lemma {:induction false} EmptyCleanupsAre(c: Config, s: Saved, steps: seq<Step>)
    requires Loadable(c, s)
    ensures EmptyCleanups(Run(c, Init(c, s), steps).history) == CleanedNothing(c, Init(c, s), steps)
  {
    hide Init, Next, RunnerTraces.CleansNothing, RunnerTraces.Ties;
    if steps == [] {
      BeganClean(c, s);
    } else {
      EmptyCleanupsAre(c, s, steps[..|steps| - 1]);
      FlipsOfRun(c, s, steps[..|steps| - 1]);
      NextCleans(c, Run(c, Init(c, s), steps[..|steps| - 1]), steps[|steps| - 1]);
    }
  }

  lemma BeganClean(c: Config, s: Saved)
    ensures EmptyCleanups(Init(c, s).history) == 0
  {
  }

  lemma {:induction false} GivenUpIs(h: History)
    ensures GivenUp(h) + EmptyCleanups(h) == ExitsBooked(h) + Cleanups(h)
  {
    if h.Then? { GivenUpIs(h.past); }
  }

  /** The ledger that counts every cleanup is short by the ticks that cleaned up nothing: it is exact
      if and only if no tick of the run met a flat bot with a flip left pending. */
  lemma LiteralLedgerIff(c: Config, s: Saved, steps: seq<Step>)
    requires Loadable(c, s)
    ensures var w := Run(c, Init(c, s), steps);
            var h := w.history;
            && Opened(h) - ExitsBooked(h) - Cleanups(h) == (if w.entryPrice.Some? then 1 else 0) - CleanedNothing(c, Init(c, s), steps)
            && (Opened(h) - ExitsBooked(h) - Cleanups(h) == (if w.entryPrice.Some? then 1 else 0)
                <==> CleanedNothing(c, Init(c, s), steps) == 0)
  {
    hide Run, Init, CleanedNothing, EmptyCleanups, Opened, ExitsBooked, Cleanups, GivenUp;
    LedgerIsConserved(c, s, steps);
    EmptyCleanupsAre(c, s, steps);
    GivenUpIs(Run(c, Init(c, s), steps).history);
  }

  // ---- one fill closes two positions ----

  const FOUND := Hold(100.0, 0, Some(100.0), None)
  const FILL := Order(1, Sell, OtherKind, Some(90.0), Some(1.0), 1.0)
  const SOLD := Quiet(1).(check := Ok([OTHER]), fills := Fills([FILL]))
  const BOUGHT_BY_HAND := Quiet(2).(now := 10.0, check := Ok([MINE]))
  const SOLD_AGAIN := Quiet(3).(now := 20.0, check := Ok([OTHER]), fills := Fills([FILL]))

  lemma FillIsFound(pending: Option<int>)
    requires pending.None?
    ensures ClosingFill(pending, Some(0.0), false, [FILL]) == Some(Found(FILL, ByFill(Sell, 1.0, 0.0)))
  {
  }

  function SoldOnce(): World {
    var h := Then(Then(Began(HELD), TickBegan), Checked(Ok([OTHER]), Some(Long)));
    Init(RULE_BOT, HELD).(entryPrice := None, trailPeak := None, dir := None, lastBar := Some(1),
      history := Then(Then(h, Gone(ByFill(Sell, 1.0, 0.0))), Booked(ExternalClose, External, 1.0, 90.0)))
  }

  lemma SoldByFill()
    ensures Tick(RULE_BOT, Init(RULE_BOT, HELD), SOLD) == SoldOnce()
  {
    hide Tick, Act, BrokerPosition, ClosingFill;
    var w := Init(RULE_BOT, HELD);
    var m := Begin(w).(lastBar := Some(1));
    NewBarTick(RULE_BOT, w, SOLD, 1);
    SeesOther(RULE_BOT, m, SOLD, false);
    ActOnMissing(RULE_BOT, m, SOLD, 1, None);
    FillIsFound(None);
  }

  function HeldAgain(): World {
    var h := Then(Then(SoldOnce().history, TickBegan), Checked(Ok([MINE]), Some(Long)));
    SoldOnce().(entryPrice := Some(100.0), trailPeak := Some(100.0), barCount := 1, lastBar := Some(2),
      history := Then(Then(h, Resumed(10.0, None, 0.0, FOUND)), Evaluated(2, None, None, ONE_BAR)))
  }

  lemma ThenHeldAgain()
    ensures Tick(RULE_BOT, SoldOnce(), BOUGHT_BY_HAND) == HeldAgain()
  {
    hide Tick, Act, ReadReply;
    var w := SoldOnce();
    var m := Begin(w).(lastBar := Some(2));
    NewBarTick(RULE_BOT, w, BOUGHT_BY_HAND, 2);
    MineIsSeen();
    ActOnListed(RULE_BOT, m, BOUGHT_BY_HAND, 2, Some(1));
  }

  function SoldTwice(): World {
    var h := Then(Then(HeldAgain().history, TickBegan), Checked(Ok([OTHER]), Some(Long)));
    HeldAgain().(entryPrice := None, trailPeak := None, barCount := 0, lastBar := Some(3),
      history := Then(Then(h, Gone(ByFill(Sell, 1.0, 0.0))), Booked(ExternalClose, External, 1.0, 90.0)))
  }

  lemma ThenSoldByTheSameFill()
    ensures Tick(RULE_BOT, HeldAgain(), SOLD_AGAIN) == SoldTwice()
  {
    hide Tick, Act, BrokerPosition, ClosingFill;
    var w := HeldAgain();
    var m := Begin(w).(lastBar := Some(3));
    NewBarTick(RULE_BOT, w, SOLD_AGAIN, 3);
    SeesOther(RULE_BOT, m, SOLD_AGAIN, false);
    ActOnMissing(RULE_BOT, m, SOLD_AGAIN, 3, Some(2));
    FillIsFound(None);
  }

  /** The entry time of an externally closed position is kept, and a position resumed after it is
      given up on the fill that closed the first one, from before it was there. */
  lemma OneFillClosesTwoPositions()
    ensures var h := Run(RULE_BOT, Init(RULE_BOT, HELD), [Ticks(SOLD), Ticks(BOUGHT_BY_HAND), Ticks(SOLD_AGAIN)]).history;
            exists first, second, back ::
              && Within(Then(second, Gone(ByFill(Sell, 1.0, 0.0))), h) && Within(Then(back, Resumed(10.0, None, 0.0, FOUND)), second)
              && Within(Then(first, Gone(ByFill(Sell, 1.0, 0.0))), back)
  {
    hide Tick, Init, SoldOnce, HeldAgain, SoldTwice, Within;
    SoldByFill();
    ThenHeldAgain();
    ThenSoldByTheSameFill();
    FourSteps(RULE_BOT, Init(RULE_BOT, HELD), Ticks(SOLD), Ticks(BOUGHT_BY_HAND), Ticks(SOLD_AGAIN), GraphUpdate);
    TwoGone();
  }

  lemma TwoGone()
    ensures exists first, second, back ::
              && Within(Then(second, Gone(ByFill(Sell, 1.0, 0.0))), SoldTwice().history)
              && Within(Then(back, Resumed(10.0, None, 0.0, FOUND)), second)
              && Within(Then(first, Gone(ByFill(Sell, 1.0, 0.0))), back)
    ensures !Init(RULE_BOT, HELD).paused && !SoldOnce().paused && !HeldAgain().paused
  {
    var h := SoldTwice().history;
    var second := h.past.past;
    assert h.past == Then(second, Gone(ByFill(Sell, 1.0, 0.0)));
    var back := HeldAgain().history.past.past;
    assert HeldAgain().history.past == Then(back, Resumed(10.0, None, 0.0, FOUND));
    assert Within(Then(back, Resumed(10.0, None, 0.0, FOUND)), HeldAgain().history);
    assert Within(Then(back, Resumed(10.0, None, 0.0, FOUND)), second.past);
    var first := SoldOnce().history.past.past;
    assert SoldOnce().history.past == Then(first, Gone(ByFill(Sell, 1.0, 0.0)));
    assert Within(Then(first, Gone(ByFill(Sell, 1.0, 0.0))), back.past.past);
    assert Within(Then(first, Gone(ByFill(Sell, 1.0, 0.0))), back);
  }

  // ---- exactly when an older fill can do that ----

  /** The entry time the bot still has: of the last position it opened, unless that one ended with the
      bot's own close or was cleared for the other side. */
  function KeptTime(h: History): Option<real> {
    match h
    case Began(s) => s.entryTime
    case Then(past, e) =>
      if e.Entered? then Some(e.at)
      else if e.Resumed? then Some(e.since)
      else if (e.Booked? && e.kind == OwnClose) || e.SideCleared? then None
      else KeptTime(past)
  }

  lemma AddTimes(t: RunnerTraces.Trace, e: Event)
    ensures var t1 := RunnerTraces.AddTo(t, e);
            && t1.kept == (if e.Entered? then Some(e.at) else if e.Resumed? then Some(e.since)
                           else if (e.Booked? && e.kind == OwnClose) || e.SideCleared? then None else t.kept)
            && (t1.timely ==> (e.Resumed? ==> e.since == RunnerTraces.Own(t.kept, e.at)))
  {
  }

  lemma {:induction false} KeptIs(c: Config, h: History)
    ensures RunnerTraces.TraceOf(c, h).kept == KeptTime(h)
  {
    TraceStep(c, h);
    hide RunnerTraces.TraceOf, RunnerTraces.TraceThen, RunnerTraces.AddTo;
    if h.Then? {
      AddTimes(RunnerTraces.TraceOf(c, h.past), h.last);
      KeptIs(c, h.past);
    }
  }

  /** In every run a resumed position is judged by the entry time kept from the one before, and by its
      own time only when none was kept. */
  lemma ResumedTimeIsKept(c: Config, s: Saved, steps: seq<Step>, past: History, at: real, dir: Option<Side>, since: real,
                          hold: Hold)
    requires Loadable(c, s) && Within(Then(past, Resumed(at, dir, since, hold)), Run(c, Init(c, s), steps).history)
    ensures since == if KeptTime(past).Some? then KeptTime(past).value else at
  {
    hide Run, Init, RunnerTraces.TraceOf, RunnerTraces.TraceThen, RunnerTraces.AddTo, Within, KeptTime;
    var h := Then(past, Resumed(at, dir, since, hold));
    RunnerTraces.EveryRunTies(c, s, steps);
    KeptWithin(c, h, Run(c, Init(c, s), steps).history);
    RunnerTraces.Adds(c, past, h.last);
    AddTimes(RunnerTraces.TraceOf(c, past), h.last);
    KeptIs(c, past);
  }

  /** The fill gives the tracked position up, and is from more than the slack before t. */
  predicate OlderFill(found: Option<Found>, t: real) {
    found.Some? && found.value.evidence.ByFill? && found.value.evidence.filledAt < t - FILL_TIME_SLACK
  }

  /** A closing fill at the earliest time that counts. */
  function EarlyFill(c: Config, w: World): Order {
    Order(if w.pendingId.Some? then w.pendingId.value + 1 else 0, CloseSide(IsShort(c, w)), OtherKind, Some(1.0),
          if w.entryTime.Some? then Some(w.entryTime.value - FILL_TIME_SLACK) else None, 1.0)
  }

  lemma FillsTaken(c: Config, w: World, i: TickIn, t: real)
    requires w.entryTime.Some?
    ensures w.entryTime.value < t ==> OlderFill(FindFill(c, w, i.(fills := Fills([EarlyFill(c, w)]))), t)
    ensures i.fills.Fills? && OlderFill(FindFill(c, w, i), t) ==> w.entryTime.value < t
  {
    var o := EarlyFill(c, w);
    assert [o][0] == o;
    if i.fills.Fills? { ClosingFillFits(w.pendingId, w.entryTime, IsShort(c, w), i.fills.orders); }
  }

  /** At the end of any run a position found now, at i.now, can be given up on a fill from before it was
      there exactly when the bot still has an earlier entry time: its last position did not end with
      the bot's own close and was not cleared for the other side. */
  lemma OlderFillTakenIff(c: Config, s: Saved, steps: seq<Step>, p: Position, regime: bool, i: TickIn)
    requires Loadable(c, s)
    requires var w := Run(c, Init(c, s), steps); w.entryPrice.None? && !w.paused
    ensures var w := Run(c, Init(c, s), steps);
            var held := Resume(c, w, p, regime, i);
            (exists fills: FillReply :: OlderFill(FindFill(c, held, i.(fills := fills)), i.now))
            <==> KeptTime(w.history).Some? && KeptTime(w.history).value < i.now
  {
    var w := Run(c, Init(c, s), steps);
    RunnerTraces.EveryRunTies(c, s, steps);
    KeptIs(c, w.history);
    hide Run, Init, RunnerTraces.TraceOf, RunnerTraces.TraceThen, FindFill, KeptTime;
    var held := Resume(c, w, p, regime, i);
    assert held.entryTime == Some(if KeptTime(w.history).Some? then KeptTime(w.history).value else i.now);
    FillsTaken(c, held, i, i.now);
    forall fills: FillReply ensures OlderFill(FindFill(c, held, i.(fills := fills)), i.now) ==> held.entryTime.value < i.now {
      FillsTaken(c, held, i.(fills := fills), i.now);
      NoFillsNoneFound(c, held, i.(fills := fills));
    }
  }

  lemma NoFillsNoneFound(c: Config, w: World, i: TickIn)
    ensures !i.fills.Fills? ==> FindFill(c, w, i).None?
  {
  }

  // ---- two closes on a bar, with a graph update between them ----

  const STOPPED := Quiet(1).(settings := STOP_AT_10, quote := Quote(80.0, 80.0, 80.0, 0.0), check := Ok([MINE]),
                             verify := Ok([MINE]), close := Accepted(7), post := [Ok([OTHER])])
  function ClosedOnce(): World {
    var h := Then(Then(Began(HELD), TickBegan), Checked(Ok([MINE]), Some(Long)));
    var seen := Then(Then(h, Evaluated(1, Some(StopLoss), None, ONE_BAR)), AskedAtExit(Ok([MINE]), Long, StopLoss, 1));
    var sent := Then(Then(seen, CloseAccepted(1, StopLoss, Some(Long), 7)), PolledAfterClose(Ok([OTHER]), Some(Long)));
    Init(GRAPH_BOT, HELD).(entryPrice := None, entryTime := None, trailPeak := None, dir := None, consecStops := 1,
      compiled := true, lastBar := Some(1), outcome := Some(Closed),
      history := Then(sent, Booked(OwnClose, StopLoss, 1.0, 100.0)))
  }

  lemma ClosedOnTheBar()
    ensures Tick(GRAPH_BOT, Init(GRAPH_BOT, HELD), STOPPED) == ClosedOnce()
  {
    hide Tick, Act, BrokerPosition, ExecuteExit, Find;
    var w := Init(GRAPH_BOT, HELD);
    var m := Begin(w).(lastBar := Some(1), compiled := true);
    NewBarTick(GRAPH_BOT, w, STOPPED, 1);
    SeesMine(GRAPH_BOT, m, STOPPED, false);
    ActOnListed(GRAPH_BOT, m, STOPPED, 1, None);
    var seen := BrokerPosition(GRAPH_BOT, m, false, STOPPED).w;
    var ran := seen.(barCount := 1, history := Then(seen.history, Evaluated(1, Some(StopLoss), None, ONE_BAR)));
    assert Evaluate(GRAPH_BOT, seen, STOPPED, 1) == Decision(ran, Some(StopLoss));
    ClosesAtOnce(GRAPH_BOT, ran.(outcome := None), STOPPED, 1, StopLoss);
  }

  // ---- exactly when a bar can get another close ----

  /** The price exits of the bar have run and nothing is left of them to do. */
  predicate DoneWith(w: World, bar: int) {
    w.exitsBar == Some(bar) && w.exitsReason.None?
  }

  /** The code is refused or has failed, the broker lists the position far below its stop and takes
      the close. */
  function BelowStop(c: Config, w: World, bar: int): TickIn {
    var want, side := CheckSide(c, w, c.isRegime), TrackedSide(c, w);
    var price := if side == Long then 80.0 else 120.0;
    Quiet(bar).(compile := CodeRefused, settings := STOP_AT_10, quote := Quote(price, price, price, 0.0),
                check := Ok([OnSide(c, if want.Some? then want.value else side)]), verify := Ok([OnSide(c, side)]),
                close := Accepted(1))
  }

  lemma SameBelowStop(c: Config, w: World, w1: World, bar: int)
    requires w1.dir == w.dir
    ensures BelowStop(c, w1, bar) == BelowStop(c, w, bar)
  {
  }

  lemma PollFails(c: Config, h: History, side: Option<Side>)
    ensures Poll(c, h, side, [], 0) == Polled(Then(h, PolledAfterClose(Unavailable, side)), PollFailed)
  {
  }

  lemma ExecuteSends(c: Config, w: World, i: TickIn, bar: int, reason: Reason)
    requires i.verify == Ok([OnSide(c, TrackedSide(c, w))]) && i.close == Accepted(1) && i.post == []
    ensures var w1 := ExecuteExit(c, w, i, bar, reason);
            ClosedBars(w1.history) == ClosedBars(w.history) + [bar] && w1.entryPrice == w.entryPrice && w1.outcome == Some(Sent)
  {
    hide Poll, ReadReply, ClosedBars;
    OnSideIsFound(c, TrackedSide(c, w));
    var asked := Log(w, AskedAtExit(i.verify, TrackedSide(c, w), reason, bar));
    var h := Then(asked.history, CloseAccepted(bar, reason, Some(TrackedSide(c, asked)), 1));
    PollFails(c, h, Some(TrackedSide(c, asked)));
    assert ExecuteExit(c, w, i, bar, reason)
        == asked.(outcome := Some(Sent), pendingId := Some(1), pendingReason := Some(reason),
                  history := Then(h, PolledAfterClose(Unavailable, Some(TrackedSide(c, asked)))));
    CountOne(w.history, asked.history.last);
    CountTwo(asked.history, h.last, PolledAfterClose(Unavailable, Some(TrackedSide(c, asked))));
  }

  lemma CountTwo(h: History, a: Event, b: Event)
    ensures ClosedBars(Then(Then(h, a), b))
         == ClosedBars(h) + (if a.CloseAccepted? then [a.closeBar] else []) + (if b.CloseAccepted? then [b.closeBar] else [])
  {
    assert ClosedBars(Then(h, a)) == ClosedBars(h) + if a.CloseAccepted? then [a.closeBar] else [];
  }

  lemma StopIsDue(c: Config, w: World, at: World, bar: int)
    requires w.entryPrice == Some(100.0) && TrackedSide(c, w) == TrackedSide(c, at)
    ensures Evaluate(c, w, BelowStop(c, at, bar), bar).due == Some(StopLoss)
  {
    hide CheckSide, OnSide, Advance;
    var i, rules := BelowStop(c, at, bar), Resolve(STOP_AT_10, w.dir);
    assert IsShort(c, w) == (TrackedSide(c, at) == Short);
    var hold := Advance(Hold(100.0, w.barCount, w.trailPeak, w.trailStop), rules, IsShort(c, w), i.quote);
    assert hold.entry == 100.0 by { AdvanceKeepsEntry(Hold(100.0, w.barCount, w.trailPeak, w.trailStop), rules, IsShort(c, w), i.quote); }
    assert StopDue(hold, rules, IsShort(c, w), i.quote.price);
  }

  lemma AdvanceKeepsEntry(h: Hold, r: Rules, short: bool, q: Quote)
    ensures Advance(h, r, short, q).entry == h.entry
  {
    hide NextPeak, NextStop;
  }

  lemma EvaluateSendsNothing(c: Config, w: World, i: TickIn, bar: int)
    ensures var e := Evaluate(c, w, i, bar);
            e.w.dir == w.dir && e.w.entryPrice == w.entryPrice && ClosedBars(e.w.history) == ClosedBars(w.history)
  {
    hide Advance, Due, Resolve, ClosedBars, IsShort;
    CountOne(w.history, Evaluate(c, w, i, bar).w.history.last);
  }

  lemma TrySends(c: Config, w: World, i: TickIn, bar: int, reason: Reason)
    requires i.verify == Ok([OnSide(c, TrackedSide(c, w))]) && i.close == Accepted(1) && i.post == []
    ensures var a := TryExit(c, w, i, bar, reason);
            a.yes && ClosedBars(a.w.history) == ClosedBars(w.history) + [bar] && a.w.entryPrice == w.entryPrice
  {
    hide ExecuteExit, ClosedBars, OnSide;
    ExecuteSends(c, w.(outcome := None), i, bar, reason);
  }

  lemma ExitIsDue(c: Config, w: World, at: World, bar: int)
    requires w.entryPrice == Some(100.0) && TrackedSide(c, w) == TrackedSide(c, at) && !DoneWith(w, bar)
    ensures var ran := PriceExitOnce(c, w, BelowStop(c, at, bar), bar);
            && ran.due.Some? && ran.w.entryPrice == w.entryPrice && ran.w.dir == w.dir
            && ClosedBars(ran.w.history) == ClosedBars(w.history)
  {
    hide Evaluate, ClosedBars, BelowStop, TrackedSide;
    StopIsDue(c, w, at, bar);
    EvaluateSendsNothing(c, w, BelowStop(c, at, bar), bar);
  }

  lemma HeldSends(c: Config, w: World, at: World, bar: int)
    requires w.entryPrice == Some(100.0) && TrackedSide(c, w) == TrackedSide(c, at) && !DoneWith(w, bar)
    ensures var a := ManageHeld(c, w, BelowStop(c, at, bar), bar);
            ClosedBars(a.w.history) == ClosedBars(w.history) + [bar] && !a.yes
  {
    hide PriceExitOnce, TryExit, ClosedBars, CheckSide, OnSide;
    var i := BelowStop(c, at, bar);
    ExitIsDue(c, w, at, bar);
    var ran := PriceExitOnce(c, w, i, bar);
    TrySends(c, ran.w, i, bar, ran.due.value);
  }

  lemma ResumesBelowStop(c: Config, w: World, bar: int)
    requires w.entryPrice.None?
    ensures var s := BrokerPosition(c, w, c.isRegime, BelowStop(c, w, bar));
            && s.check.Listed? && s.w.entryPrice == Some(100.0) && TrackedSide(c, s.w) == TrackedSide(c, w)
            && s.w.exitsBar == w.exitsBar && s.w.exitsReason == w.exitsReason && ClosedBars(s.w.history) == ClosedBars(w.history)
  {
    hide ReadReply, Resume, ClosedBars, BrokerPosition, CheckSide, NoPositions;
    var i, want := BelowStop(c, w, bar), CheckSide(c, w, c.isRegime);
    var p := OnSide(c, if want.Some? then want.value else TrackedSide(c, w));
    OnSideIsFound(c, p.side);
    SeenSide(c, w);
    LookResumes(c, w, i, p);
    var noted := Log(w.(missing := 0), Checked(i.check, want)).(lastEmpty := NoPositions(i.check));
    ResumesIt(c, noted, p, c.isRegime, i);
    CountTwo(w.history, Checked(i.check, want), Resume(c, noted, p, c.isRegime, i).history.last);
  }

  lemma BelowStopSends(c: Config, w: World, bar: int)
    requires w.entryPrice.None? && !DoneWith(w, bar)
    ensures var a := Manage(c, w, BelowStop(c, w, bar), bar, c.isRegime);
            ClosedBars(a.w.history) == ClosedBars(w.history) + [bar] && !a.yes
  {
    hide BrokerPosition, ManageHeld, BelowStop, ClosedBars;
    var clean := w.(problem := false, problemBar := None);
    SameBelowStop(c, w, clean, bar);
    ResumesBelowStop(c, clean, bar);
    HeldSends(c, BrokerPosition(c, clean, c.isRegime, BelowStop(c, clean, bar)).w, clean, bar);
  }

  lemma SettleSends(m: Answer, bar: int)
    ensures ClosedBars(Settle(m, bar).history) == ClosedBars(m.w.history)
  {
    if m.yes { CountOne(m.w.history, PausedForCode); }
  }

  lemma CountOne(h: History, e: Event)
    ensures ClosedBars(Then(h, e)) == ClosedBars(h) + if e.CloseAccepted? then [e.closeBar] else []
  {
  }

  /** The bot's state as this tick manages it without signals, when its code is refused or has failed. */
  function Failing(w: World): World {
    if w.codeFailed then Begin(w) else EnterCodeFailure(Begin(w))
  }

  lemma FailingIs(w: World)
    ensures var f := Failing(w);
            && ClosedBars(f.history) == ClosedBars(w.history) && f.entryPrice == w.entryPrice && f.dir == w.dir
            && f.exitsBar == w.exitsBar && f.exitsReason == w.exitsReason
  {
    hide ClosedBars;
    CountOne(w.history, TickBegan);
    if !w.codeFailed { CountTwo(w.history, TickBegan, EnterCodeFailure(Begin(w)).history.last); }
  }

  lemma RefusedTickIs(c: Config, w: World, i: TickIn, bar: int)
    requires c.graph && (w.codeFailed || !w.compiled) && i == BelowStop(c, w, bar)
    ensures Tick(c, w, i) == Settle(Manage(c, Failing(w), i, bar, c.isRegime), bar)
  {
    hide Settle, Manage, CheckSide, TrackedSide, OnSide;
  }

  lemma RefusedTickSends(c: Config, w: World, bar: int)
    requires c.graph && w.entryPrice.None? && (w.codeFailed || !w.compiled) && !DoneWith(w, bar)
    ensures ClosedBars(Tick(c, w, BelowStop(c, w, bar)).history) == ClosedBars(w.history) + [bar]
  {
    hide Tick, Failing, Settle, Manage, BelowStop, ClosedBars;
    var i, f := BelowStop(c, w, bar), Failing(w);
    RefusedTickIs(c, w, i, bar);
    FailingIs(w);
    SameBelowStop(c, w, f, bar);
    BelowStopSends(c, f, bar);
    SettleSends(Manage(c, f, i, bar, c.isRegime), bar);
  }

  lemma NoteSendsNothing(c: Config, w: World, check: Check, regime: bool, i: TickIn)
    ensures var w1 := NoteReply(c, w, check, regime, i);
            && ClosedBars(w1.history) == ClosedBars(w.history) && w1.exitsBar == w.exitsBar && w1.exitsReason == w.exitsReason
            && (check.Missing? ==> w1.entryPrice == w.entryPrice)
  {
    hide ClosedBars, NoPositions, NoteReply, Resume;
    if check.Listed? {
      assert check == Listed(check.p);
      NoteReplyIs(c, w, check.p, regime, i);
      ResumeSendsNothing(c, w.(lastEmpty := NoPositions(i.check)), check.p, regime, i);
    } else {
      NoteReplyElse(c, w, check, regime, i);
    }
  }

  lemma ResumeSendsNothing(c: Config, w: World, p: Position, regime: bool, i: TickIn)
    ensures var w1 := Resume(c, w, p, regime, i);
            ClosedBars(w1.history) == ClosedBars(w.history) && w1.exitsBar == w.exitsBar && w1.exitsReason == w.exitsReason
  {
    hide ClosedBars;
    CountOne(w.history, Resume(c, w, p, regime, i).history.last);
  }

  lemma NoteReplyElse(c: Config, w: World, check: Check, regime: bool, i: TickIn)
    requires !check.Listed?
    ensures var w1 := NoteReply(c, w, check, regime, i);
            && w1.history == w.history && w1.exitsBar == w.exitsBar && w1.exitsReason == w.exitsReason
            && w1.entryPrice == w.entryPrice
  {
    hide NoPositions, Resume;
  }

  lemma LookSendsNothing(c: Config, w: World, regime: bool, i: TickIn)
    ensures var s := BrokerPosition(c, w, regime, i);
            && ClosedBars(s.w.history) == ClosedBars(w.history) && s.w.exitsBar == w.exitsBar && s.w.exitsReason == w.exitsReason
            && (s.check.Missing? ==> s.w.entryPrice == w.entryPrice)
  {
    hide ReadReply, CheckSide, NoteReply;
    var want := CheckSide(c, w, regime);
    var check := ReadReply(i.check, c.symbol, want);
    var counted := if check.Listed? then w.(missing := 0) else w;
    CountOne(w.history, Checked(i.check, want));
    NoteSendsNothing(c, Log(counted, Checked(i.check, want)), check, regime, i);
  }

  lemma DoneSendsNothing(c: Config, w: World, i: TickIn, bar: int, regime: bool)
    requires w.entryPrice.None? && DoneWith(w, bar)
    ensures ClosedBars(Manage(c, w, i, bar, regime).w.history) == ClosedBars(w.history)
  {
    hide BrokerPosition, Evaluate, TryExit, ClosedBars;
    LookSendsNothing(c, w.(problem := false, problemBar := None), regime, i);
  }

  lemma CodeTickSendsNothing(c: Config, w: World, i: TickIn, bar: int)
    requires w.entryPrice.None? && DoneWith(w, bar) && i.fetch == Some(bar)
    ensures ClosedBars(CodeTick(c, w, i).history) == ClosedBars(w.history)
  {
    hide Manage, Settle;
    var regime := if i.planLost then c.bidirectional else c.isRegime;
    DoneSendsNothing(c, w, i, bar, regime);
    SettleSends(Manage(c, w, i, bar, regime), bar);
  }

  lemma FailedTickSendsNothing(c: Config, w: World, i: TickIn, bar: int)
    requires w.entryPrice.None? && DoneWith(w, bar) && i.fetch == Some(bar)
    ensures ClosedBars(CodeTick(c, EnterCodeFailure(w), i).history) == ClosedBars(w.history)
  {
    hide CodeTick;
    CountOne(w.history, EnterCodeFailure(w).history.last);
    CodeTickSendsNothing(c, EnterCodeFailure(w), i, bar);
  }

  lemma WorkingSendsNothing(c: Config, w: World, i: TickIn, bar: int)
    requires w.entryPrice.None? && w.lastBar == Some(bar) && i.fetch == Some(bar)
    requires c.graph && !w.compiled ==> DoneWith(w, bar)
    ensures ClosedBars(Working(c, w, i).history) == ClosedBars(w.history)
  {
    hide Working, CodeTick, EnterCodeFailure;
    WorkingOnOldBar(c, w, i, bar);
    if c.graph && !w.compiled { FailedTickSendsNothing(c, w, i, bar); }
  }

  lemma TickIsWork(c: Config, w: World, i: TickIn)
    requires !w.codeFailed
    ensures Tick(c, w, i) == Begin(w) || Tick(c, w, i) == Working(c, Begin(w), i)
  {
    hide Working;
  }

  lemma NothingSent(c: Config, w: World, i: TickIn, bar: int)
    requires w.entryPrice.None? && w.lastBar == Some(bar) && i.fetch == Some(bar)
    requires c.graph && (w.codeFailed || !w.compiled) ==> DoneWith(w, bar)
    requires w.codeFailed ==> c.graph
    ensures ClosedBars(Tick(c, w, i).history) == ClosedBars(w.history)
  {
    hide Tick, Begin, Working, CodeTick, ClosedBars;
    BeginSends(w);
    if w.codeFailed {
      RunnerTraces.TickIs(c, w, i);
      CodeTickSendsNothing(c, Begin(w), i, bar);
    } else {
      TickIsWork(c, w, i);
      WorkingSendsNothing(c, Begin(w), i, bar);
    }
  }

  lemma BeginSends(w: World)
    ensures var b := Begin(w);
            && ClosedBars(b.history) == ClosedBars(w.history) && b.lastBar == w.lastBar && b.compiled == w.compiled
            && b.entryPrice == w.entryPrice && b.exitsBar == w.exitsBar && b.exitsReason == w.exitsReason
  {
    CountOne(w.history, TickBegan);
  }

  lemma WorkingOnOldBar(c: Config, w: World, i: TickIn, bar: int)
    requires w.lastBar == Some(bar) && i.fetch == Some(bar)
    ensures var w1 := Working(c, w, i);
            w1.history == w.history || (w1 == CodeTick(c, EnterCodeFailure(w), i) && c.graph && !w.compiled)
  {
    hide CodeTick, EnterCodeFailure, Working, Bars;
    WorkingIs(c, w, i);
    OldBar(c, w, i, bar);
    OldBar(c, w.(compiled := true), i, bar);
  }

  lemma OldBar(c: Config, w: World, i: TickIn, bar: int)
    requires w.lastBar == Some(bar) && i.fetch == Some(bar)
    ensures Bars(c, w, i) == w
  {
    hide NewBar, Manage;
  }

  /** At the end of any run, on the bar it last worked on and has sent a close on, a flat bot can send
      another exactly when its code has failed or its graph was updated since it compiled, and the
      bar's price exits are not done with. */
  lemma AnotherCloseIff(c: Config, s: Saved, steps: seq<Step>, bar: int)
    requires Loadable(c, s)
    requires var w := Run(c, Init(c, s), steps);
             !w.paused && w.entryPrice.None? && w.lastBar == Some(bar) && bar in ClosedBars(w.history)
    ensures var w := Run(c, Init(c, s), steps);
            (exists i: TickIn :: i.fetch == Some(bar) && ClosedBars(Tick(c, w, i).history) == ClosedBars(w.history) + [bar])
            <==> c.graph && (w.codeFailed || !w.compiled) && !DoneWith(w, bar)
    ensures var w := Run(c, Init(c, s), steps);
            !(c.graph && (w.codeFailed || !w.compiled) && !DoneWith(w, bar)) ==>
              forall i: TickIn | i.fetch == Some(bar) :: ClosedBars(Tick(c, w, i).history) == ClosedBars(w.history)
  {
    var w := Run(c, Init(c, s), steps);
    EveryRunIsSafe(c, s, steps);
    hide Run, Init, Tick, ClosedBars, DoneWith;
    if c.graph && (w.codeFailed || !w.compiled) && !DoneWith(w, bar) {
      RefusedTickSends(c, w, bar);
      assert BelowStop(c, w, bar).fetch == Some(bar);
    } else {
      forall i: TickIn | i.fetch == Some(bar) ensures ClosedBars(Tick(c, w, i).history) == ClosedBars(w.history) {
        NothingSent(c, w, i, bar);
      }
    }
  }

  /** A graph update taken while flat, on the bar of a close: when the new code is refused, a position
      found on that bar is closed on it too.  With a new bar after every accepted update there is
      one close a bar (RunnerTheorems.OneClosePerBar). */
  lemma TwoClosesOnABar()
    ensures exists i: TickIn :: i.fetch == Some(1)
              && ClosedBars(Run(GRAPH_BOT, Init(GRAPH_BOT, HELD), [Ticks(STOPPED), GraphUpdate, Ticks(i)]).history) == [1, 1]
  {
    hide Tick, Init, UpdateGraph, ClosedOnce, DoneWith, ClosedBars;
    var i := BelowStop(GRAPH_BOT, UpdateGraph(ClosedOnce()), 1);
    ClosedOnTheBar();
    OneClosed();
    RefusedTickSends(GRAPH_BOT, UpdateGraph(ClosedOnce()), 1);
    FourSteps(GRAPH_BOT, Init(GRAPH_BOT, HELD), Ticks(STOPPED), GraphUpdate, Ticks(i), GraphUpdate);
  }

  lemma OneClosed()
    ensures !Init(GRAPH_BOT, HELD).paused && !ClosedOnce().paused
    ensures var w := UpdateGraph(ClosedOnce());
            && ClosedBars(w.history) == [1] && !w.paused && !w.codeFailed && !w.compiled && w.entryPrice.None? && w.dir.None?
            && !DoneWith(w, 1)
  {
    var h := ClosedOnce().history;
    assert ClosedBars(h.past.past.past.past.past) == [];
    assert ClosedBars(h.past.past.past) == [];
  }
}
