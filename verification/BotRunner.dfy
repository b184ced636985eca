/** The runner as the program has it, backend/bot_runner.py with backend/exits.py and backend/regime.py:
    an object that changes step by step, each of its methods proved equal to the function of its step. */
module BotRunner {
  import opened BotTypes
  import opened PriceExits
  import opened RunnerSpec
  import RunnerSafety
  import RunnerBars
  import opened RunnerTheorems

  /** The bot's state, as far as a tick uses it.  paused: status error with a pause_reason. */
  datatype BotState = BotState(
    entryPrice: Option<real>, entryTime: Option<real>, barCount: int,
    trailPeak: Option<real>, trailStop: Option<real>,
    pendingId: Option<int>, pendingReason: Option<Reason>, dir: Option<Side>, pendingFlip: bool,
    consecStops: nat, skipLeft: int, lastBar: Option<int>, exitsOnly: bool, paused: bool)

  /** The runner's own fields. */
  datatype Marks = Marks(
    exitsBar: Option<int>, exitsReason: Option<Reason>, problemBar: Option<int>, missing: nat, lastEmpty: bool,
    outcome: Option<Outcome>, codeFailed: bool, mayHold: bool, compiled: bool, problem: bool, raised: bool)

  /** Each method is proved against the function of the same step in RunnerSpec, so what is proved of
      every run there holds of this object. */
  class Runner {
    const cfg: Config
    var state: BotState
    var marks: Marks
    // what happened, for the properties
    ghost var owesSignal: bool
    ghost var history: History

    ghost function View(): World
      reads this
    {
      World(state.entryPrice, state.entryTime, state.barCount, state.trailPeak, state.trailStop,
            state.pendingId, state.pendingReason, state.dir, state.pendingFlip, state.consecStops, state.skipLeft,
            state.lastBar, state.exitsOnly, state.paused,
            marks.exitsBar, marks.exitsReason, marks.problemBar, marks.missing, marks.lastEmpty, marks.outcome,
            marks.codeFailed, marks.mayHold, owesSignal, marks.compiled, marks.problem, marks.raised, history)
    }

    constructor (c: Config, s: Saved)
      ensures cfg == c && View() == Init(c, s)
    {
      cfg := c;
      state := BotState(s.entryPrice, s.entryTime, s.barCount, s.trailPeak, s.trailStop, s.pendingId, s.pendingReason,
                        s.dir, s.pendingFlip, s.consecStops, s.skipLeft, s.lastBar, s.exitsOnly, false);
      marks := Marks(None, None, None, 0, false, None, false, false, false, false, false);
      owesSignal, history := false, Began(s);
      if c.graph && s.exitsOnly {
        marks := Marks(s.lastBar, None, s.lastBar, 0, false, None, true, true, false, false, false);
      }
    }

    method IsShortNow() returns (short: bool)
      ensures short == IsShort(cfg, View())
    {
      short := if state.dir.Some? then state.dir.value == Short else cfg.direction == Short;
    }

    // ---- the broker's position ----

    /** The loop over a reply's positions: the first on the symbol, on the wanted side. */
    static method Scan(ps: seq<Position>, symbol: string, want: Option<Side>) returns (found: Option<Position>)
      ensures found == Find(ps, symbol, want)
    {
      var k := 0;
      while k < |ps|
        invariant 0 <= k <= |ps| && Find(ps, symbol, want) == Find(ps[k..], symbol, want)
      {
        assert ps[k..][1..] == ps[k + 1..];
        if ps[k].symbol == symbol && (want.None? || ps[k].side == want.value) {
          return Some(ps[k]);
        }
        k := k + 1;
      }
      return None;
    }

    method ResumePosition(p: Position, regime: bool, i: TickIn)
      modifies this
      ensures View() == Resume(cfg, old(View()), p, regime, i)
    {
      hide Log;
      var adopted := AdoptedSide(p, regime);
      var since := SinceWhen(i.now);
      Adopt(p.avgEntry, i.quote.price, adopted, since, i.now);
    }

    method AdoptedSide(p: Position, regime: bool) returns (side: Option<Side>)
      ensures side == if (regime || cfg.bidirectional) && View().dir.None? then Some(p.side) else View().dir
    {
      side := state.dir;
      if (regime || cfg.bidirectional) && side.None? { side := Some(p.side); }
    }

    method SinceWhen(now: real) returns (since: real)
      ensures since == if View().entryTime.None? then now else View().entryTime.value
    {
      since := if state.entryTime.Some? then state.entryTime.value else now;
    }

    method Adopt(price: real, peak: real, side: Option<Side>, since: real, now: real)
      modifies this
      ensures View() == Log(old(View()).(entryPrice := Some(price), trailPeak := Some(peak), dir := side, entryTime := Some(since)),
                            Resumed(now, side, since, Hold(price, old(View()).barCount, Some(peak), old(View()).trailStop)))
    {
      state := state.(entryPrice := Some(price), trailPeak := Some(peak), dir := side, entryTime := Some(since));
      history := Then(history, Resumed(now, side, since, Hold(price, state.barCount, Some(peak), state.trailStop)));
    }

    /** _broker_position.  A failed call raises in the program; here it is CheckFailed. */
    method AskBroker(regime: bool, i: TickIn) returns (check: Check)
      modifies this
      ensures Sighting(View(), check) == BrokerPosition(cfg, old(View()), regime, i)
    {
      hide Find, Resume, NoteReply, CheckSide, ReadReply;
      ghost var w := View();
      var want := WantedSide(regime);
      check := ReadPositions(i, want);
      ghost var asked := Log(if check.Listed? then w.(missing := 0) else w, Checked(i.check, want));
      assert View() == if check.CheckFailed? then asked else asked.(lastEmpty := NoPositions(i.check));
      if check.Listed? && state.entryPrice.None? { ResumePosition(check.p, regime, i); }
      assert View() == NoteReply(cfg, asked, check, regime, i) by { NoteReplyIs(cfg, asked, check, regime, i); }
    }

    method WantedSide(regime: bool) returns (want: Option<Side>)
      ensures want == CheckSide(cfg, View(), regime)
    {
      if state.dir.Some? && (regime || cfg.bidirectional) {
        want := state.dir;
      } else if cfg.bidirectional {
        want := None;
      } else {
        want := Some(cfg.direction);
      }
    }

    method ReadPositions(i: TickIn, want: Option<Side>) returns (check: Check)
      modifies this
      ensures check == ReadReply(i.check, cfg.symbol, want)
      ensures var asked := Log(if check.Listed? then old(View()).(missing := 0) else old(View()), Checked(i.check, want));
              View() == if check.CheckFailed? then asked else asked.(lastEmpty := NoPositions(i.check))
    {
      hide Find;
      if i.check.Unavailable? {
        check := CheckFailed;
      } else {
        var found := Scan(i.check.positions, cfg.symbol, want);
        check := if found.None? then Missing else Listed(found.value);
      }
      NoteChecked(check, i, want);
    }

    method NoteChecked(check: Check, i: TickIn, want: Option<Side>)
      requires check.CheckFailed? == i.check.Unavailable?
      modifies this
      ensures var asked := Log(if check.Listed? then old(View()).(missing := 0) else old(View()), Checked(i.check, want));
              View() == if check.CheckFailed? then asked else asked.(lastEmpty := NoPositions(i.check))
    {
      if check.Listed? { CountMisses(0); }
      history := Then(history, Checked(i.check, want));
      if i.check.Ok? { NoteEmpty(i.check.positions == []); }
    }

    method NoteEmpty(empty: bool)
      modifies this`marks
      ensures View() == old(View()).(lastEmpty := empty)
    {
      marks := marks.(lastEmpty := empty);
    }

    // ---- is a missing position really gone ----

    /** The loop of _closing_fill over the closed orders. */
    static method ScanFills(pendingId: Option<int>, since: Option<real>, short: bool, os: seq<Order>)
      returns (found: Option<Found>)
      ensures found == ClosingFill(pendingId, since, short, os)
    {
      var k := 0;
      while k < |os|
        invariant 0 <= k <= |os|
        invariant ClosingFill(pendingId, since, short, os) == ClosingFill(pendingId, since, short, os[k..])
      {
        var o := os[k];
        assert os[k..][1..] == os[k + 1..];
        if o.side == CloseSide(short) && Truthy(o.avgPrice) {
          if pendingId == Some(o.id) {
            return Some(Found(o, ByOwnOrder(o.id)));
          }
          if since.Some? && o.filledAt.Some? && o.filledAt.value - since.value >= -FILL_TIME_SLACK {
            return Some(Found(o, ByFill(o.side, o.filledAt.value, since.value)));
          }
        }
        k := k + 1;
      }
      return None;
    }

    method LookForFill(i: TickIn) returns (found: Option<Found>)
      ensures found == FindFill(cfg, View(), i)
    {
      hide ClosingFill;
      var short := IsShortNow();
      if i.fills.NoFills? { return None; }
      found := ScanFills(state.pendingId, state.entryTime, short, i.fills.orders);
    }

    /** _position_gone_confirmed. */
    method PositionGoneConfirmed(i: TickIn) returns (gone: bool, found: Option<Found>)
      modifies this
      ensures found == FindFill(cfg, old(View()), i) && Answer(View(), gone) == ConfirmGone(old(View()), found)
    {
      hide FindFill, ConfirmGone;
      ghost var w := View();
      found := LookForFill(i);
      RunnerSafety.ConfirmGoneIs(w, found);
      var n := marks.missing;
      if !marks.lastEmpty { n := n + 1; }
      gone := found.Some? || n >= 2;
      if gone {
        Confirm(if found.Some? then found.value.evidence else ByTwoReplies);
      } else {
        CountMisses(n);
      }
    }

    method CountMisses(n: nat)
      modifies this
      ensures View() == old(View()).(missing := n)
    {
      marks := marks.(missing := n);
    }

    method Confirm(evidence: Evidence)
      modifies this
      ensures View() == Log(old(View()).(missing := 0), Gone(evidence))
    {
      marks := marks.(missing := 0);
      history := Then(history, Gone(evidence));
    }

    // ---- booking an exit ----

    /** The post-loss counters after an exit. */
    method Counters(reason: Reason) returns (consec: nat, skip: int)
      ensures consec == if Triggers(reason, cfg.sizingTrigger) then state.consecStops + 1 else 0
      ensures skip == if cfg.skipOn && Triggers(reason, cfg.skipTrigger) then cfg.skipCount else state.skipLeft
    {
      hide Triggers;
      consec, skip := 0, state.skipLeft;
      if Triggers(reason, cfg.sizingTrigger) { consec := state.consecStops + 1; }
      if cfg.skipOn && Triggers(reason, cfg.skipTrigger) { skip := cfg.skipCount; }
    }

    /** The counters and the journal row, as in _execute_exit and _detect_external_close. */
    method Book(kind: BookKind, reason: Reason, qty: real, price: real)
      modifies this
      ensures View() == BookExit(cfg, old(View()), kind, reason, qty, price)
    {
      hide Triggers;
      var consec, skip := Counters(reason);
      state := state.(consecStops := consec, skipLeft := skip);
      history := Then(history, Booked(kind, reason, qty, price));
    }

    method ForgetPosition()
      modifies this
      ensures View() == Forget(old(View()))
    {
      state := state.(entryPrice := None, barCount := 0, trailPeak := None, trailStop := None,
                      pendingId := None, pendingReason := None, dir := None);
    }

    method WhyExternal(found: Option<Found>) returns (reason: Reason)
      ensures reason == ExternalReason(View(), found)
    {
      reason := External;
      if found.Some? {
        var o := found.value.order;
        if state.pendingId == Some(o.id) && state.pendingReason.Some? {
          reason := state.pendingReason.value;
        } else if o.kind == Stop || o.kind == StopLimit {
          reason := StopLoss;
        } else if o.kind == TrailStop {
          reason := TrailingStop;
        }
      }
    }

    /** _detect_external_close: true when the drawdown limit paused the bot. */
    method DetectClose(found: Option<Found>, i: TickIn) returns (stop: bool)
      modifies this
      ensures Answer(View(), stop) == DetectExternalClose(cfg, old(View()), found, i)
    {
      hide BookExternal, Forget;
      ghost var w := View();
      BookFound(found, i);
      stop := i.drawdown;
      if stop {
        ForgetPosition();
        Halt();
        assert View() == Forget(BookExternal(cfg, w, found, i)).(entryTime := None, paused := true);
      }
    }

    method Halt()
      modifies this`state
      ensures View() == old(View()).(entryTime := None, paused := true)
    {
      state := state.(entryTime := None, paused := true);
    }

    method BookFound(found: Option<Found>, i: TickIn)
      modifies this
      ensures View() == BookExternal(cfg, old(View()), found, i)
    {
      hide BookExit, ExternalReason;
      var price, qty := i.quote.price, 0.0;
      if found.Some? {
        qty := found.value.order.qty;
        if found.value.order.avgPrice.Some? { price := found.value.order.avgPrice.value; }
      }
      var reason := WhyExternal(found);
      Book(ExternalClose, reason, qty, price);
    }

    // ---- sending a close ----

    method TrackedSideNow() returns (side: Side)
      ensures side == TrackedSide(cfg, View())
    {
      side := cfg.direction;
      if state.dir.Some? { side := state.dir.value; }
    }

    /** The position list asked for just before a close. */
    method VerifyPosition(i: TickIn, side: Side, ghost reason: Reason, ghost bar: int) returns (check: Check)
      modifies this
      ensures View() == Log(old(View()), AskedAtExit(i.verify, side, reason, bar)) && check == ReadReply(i.verify, cfg.symbol, None)
    {
      hide Find;
      history := Then(history, AskedAtExit(i.verify, side, reason, bar));
      if i.verify.Unavailable? { return CheckFailed; }
      var found := Scan(i.verify.positions, cfg.symbol, None);
      check := if found.Some? then Listed(found.value) else Missing;
    }

    method SetOutcome(o: Option<Outcome>)
      modifies this
      ensures View() == old(View()).(outcome := o)
    {
      marks := marks.(outcome := o);
    }

    /** The broker holds the other side: the tracked position is stale. */
    method ClearStale()
      modifies this
      ensures View() == ClearOtherSide(old(View()))
    {
      marks := marks.(outcome := Some(Closed));
      state := state.(entryPrice := None, entryTime := None, barCount := 0, trailPeak := None, trailStop := None,
                      dir := None);
      history := Then(history, SideCleared);
    }

    /** The close order is out: its id and reason are kept until its fill is seen. */
    method Sending(bar: int, reason: Reason, side: Option<Side>, id: int, o: Option<Outcome>)
      modifies this
      ensures View() == old(View()).(outcome := o, pendingId := Some(id), pendingReason := Some(reason),
                                     history := Then(old(history), CloseAccepted(bar, reason, side, id)))
    {
      state := state.(pendingId := Some(id), pendingReason := Some(reason));
      marks := marks.(outcome := o);
      history := Then(history, CloseAccepted(bar, reason, side, id));
    }

    /** Up to six looks at the broker, until the position is off its list. */
    method WaitUntilClosed(side: Option<Side>, post: seq<Reply>) returns (result: PollResult)
      modifies this`history
      ensures Polled(history, result) == Poll(cfg, old(history), side, post, 0)
    {
      var k := 0;
      result := StillOpen;
      while k < POLLS && result == StillOpen
        invariant 0 <= k <= POLLS
        invariant if result == StillOpen then Poll(cfg, old(history), side, post, 0) == Poll(cfg, history, side, post, k)
                  else Poll(cfg, old(history), side, post, 0) == Polled(history, result)
        decreases POLLS - k, result == StillOpen
      {
        var reply := if k < |post| then post[k] else Unavailable;
        history := Then(history, PolledAfterClose(reply, side));
        if reply.Unavailable? {
          result := PollFailed;
        } else if !Lists(reply.positions, cfg.symbol, side) {
          result := Cleared;
        } else {
          k := k + 1;
        }
      }
    }

    /** The close is confirmed: journal it and forget the position. */
    method FinishClose(i: TickIn, reason: Reason, qty: real)
      modifies this
      ensures View() == FinishExit(cfg, old(View()), i, reason, qty)
    {
      hide BookExit, Forget;
      Book(OwnClose, reason, qty, i.exitFill);
      var stop := state.paused || i.drawdown;
      ForgetPosition();
      Close(stop);
    }

    method Close(stop: bool)
      modifies this
      ensures View() == old(View()).(entryTime := None, outcome := Some(Closed), paused := stop)
    {
      state := state.(entryTime := None, paused := stop);
      marks := marks.(outcome := Some(Closed));
    }

    method NoteRefusal(o: Option<Outcome>)
      modifies this
      ensures View() == Log(old(View()).(outcome := o), CloseRefused)
    {
      marks := marks.(outcome := o);
      history := Then(history, CloseRefused);
    }

    method SendAndWait(i: TickIn, bar: int, reason: Reason, side: Option<Side>, id: int, o: Option<Outcome>)
      returns (result: PollResult)
      modifies this
      ensures var p := PollAfter(cfg, old(View()), i, bar, reason, side, id);
              && result == p.result
              && View() == old(View()).(outcome := o, pendingId := Some(id), pendingReason := Some(reason), history := p.h)
    {
      hide Poll;
      Sending(bar, reason, side, id, o);
      result := WaitUntilClosed(side, i.post);
    }

    method CloseNow(i: TickIn, bar: int, reason: Reason, qty: real)
      modifies this
      ensures View() == CloseAndBook(cfg, old(View()), i, bar, reason, qty)
    {
      hide FinishExit, PollAfter, TrackedSide;
      if i.close.Refused? {
        NoteRefusal(Some(CloseFailed));
      } else {
        var side := TrackedSideNow();
        var result := SendAndWait(i, bar, reason, Some(side), i.close.id, Some(Sent));
        if result == Cleared { FinishClose(i, reason, qty); }
      }
    }

    /** _execute_exit. */
    method Exit(i: TickIn, bar: int, reason: Reason)
      modifies this
      ensures View() == ExecuteExit(cfg, old(View()), i, bar, reason)
    {
      hide ReadReply, CloseAndBook, ClearOtherSide;
      var side := TrackedSideNow();
      var check := VerifyPosition(i, side, reason, bar);
      if !check.Listed? {
        SetOutcome(Some(NotSent));
      } else if check.p.side != side {
        ClearStale();
      } else {
        CloseNow(i, bar, reason, if check.p.qty < 0.0 then -check.p.qty else check.p.qty);
      }
    }

    // ---- the price exits of a bar ----

    /** The body of _price_exit_reason on the position's own numbers. */
    static method Walk(h: Hold, r: Rules, short: bool, q: Quote) returns (h1: Hold, due: Option<Reason>)
      ensures h1 == Advance(h, r, short, q) && due == Due(h1, r, short, q.price)
    {
      hide Activated, Better, Scale, PercentFactor, AtrStop, StopDue, TrailDue;
      h1 := h.(bars := h.bars + 1);
      if r.trail.Some? {
        var t := r.trail.value;
        if h1.peak.None? { h1 := h1.(peak := Some(h.entry)); }
        var source := q.price;
        if t.fromExtreme { source := if short then q.low else q.high; }
        if Activated(t, short, h.entry, source) && Better(short, source, h1.peak.value) {
          h1 := h1.(peak := Some(source));
        }
        match t.kind {
          case Percent => h1 := h1.(stop := Some(Scale(h1.peak.value, PercentFactor(t, short))));
          case Atr =>
            if q.atr != 0.0 {
              h1 := h1.(stop := Some(AtrStop(t, short, h1.peak.value, q.atr)));
            }
          case UnknownKind =>
        }
      }
      assert h1 == Advance(h, r, short, q);
      due := None;
      if StopDue(h1, r, short, q.price) { due := Some(StopLoss); }
      if due.None? && TrailDue(h1, r, short, q.price) { due := Some(TrailingStop); }
      if due.None? && TruthyInt(r.maxBars) && h1.bars >= r.maxBars.value { due := Some(TimeStop); }
    }

    method HoldNow() returns (h: Hold)
      ensures h == Hold(if state.entryPrice.Some? then state.entryPrice.value else 0.0, state.barCount,
                        state.trailPeak, state.trailStop)
    {
      h := Hold(0.0, state.barCount, state.trailPeak, state.trailStop);
      if state.entryPrice.Some? { h := h.(entry := state.entryPrice.value); }
    }

    /** _price_exit_reason. */
    method PriceExitReason(i: TickIn, bar: int) returns (due: Option<Reason>)
      modifies this
      ensures Decision(View(), due) == Evaluate(cfg, old(View()), i, bar)
    {
      hide Advance, Due, Resolve;
      var short := IsShortNow();
      var rules := Resolve(i.settings, state.dir);
      var h := HoldNow();
      h, due := Walk(h, rules, short, i.quote);
      CountBar(h, Evaluated(bar, due, rules.maxBars, h));
    }

    method CountBar(h: Hold, ghost e: Event)
      modifies this
      ensures View() == Log(old(View()).(barCount := h.bars, trailPeak := h.peak, trailStop := h.stop), e)
    {
      state := state.(barCount := h.bars, trailPeak := h.peak, trailStop := h.stop);
      history := Then(history, e);
    }

    method MarkExits(bar: int, reason: Option<Reason>)
      modifies this
      ensures View() == old(View()).(exitsBar := Some(bar), exitsReason := reason)
    {
      marks := marks.(exitsBar := Some(bar), exitsReason := reason);
    }

    /** The price exits of bar, run once; a retry of the bar only repeats an exit not sent. */
    method ExitsOnce(i: TickIn, bar: int) returns (due: Option<Reason>)
      modifies this
      ensures Decision(View(), due) == PriceExitOnce(cfg, old(View()), i, bar)
    {
      hide Evaluate;
      if marks.exitsBar == Some(bar) {
        due := marks.exitsReason;
      } else {
        due := PriceExitReason(i, bar);
        MarkExits(bar, due);
      }
    }

    /** _after_exit_attempt. */
    method AfterAttempt(reason: Reason) returns (done: bool)
      modifies this
      ensures Answer(View(), done) == AfterExitAttempt(old(View()), reason)
    {
      done := state.entryPrice.None? || marks.outcome == Some(Sent) || marks.outcome == Some(CloseFailed);
      KeepReason(if done then None else Some(reason));
    }

    method KeepReason(reason: Option<Reason>)
      modifies this
      ensures View() == old(View()).(exitsReason := reason)
    {
      marks := marks.(exitsReason := reason);
    }

    method Attempt(i: TickIn, bar: int, reason: Reason) returns (done: bool)
      modifies this
      ensures Answer(View(), done) == TryExit(cfg, old(View()), i, bar, reason)
    {
      hide ExecuteExit, AfterExitAttempt;
      SetOutcome(None);
      Exit(i, bar, reason);
      done := AfterAttempt(reason);
    }

    /** _exits_without_position_check. */
    method ExitsUnchecked(i: TickIn, bar: int) returns (done: bool)
      modifies this
      ensures Answer(View(), done) == ExitsWithoutCheck(cfg, old(View()), i, bar)
    {
      hide PriceExitOnce, TryExit;
      if state.entryPrice.None? { return false; }
      var due := ExitsOnce(i, bar);
      if due.None? { return false; }
      done := Attempt(i, bar, due.value);
    }

    // ---- managing a position without signals ----

    method SetProblem(bar: int)
      modifies this
      ensures View() == Problem(old(View()), bar)
    {
      marks := marks.(problem := true, problemBar := Some(bar));
    }

    method MarkBar(bar: Option<int>)
      modifies this
      ensures View() == old(View()).(lastBar := bar)
    {
      state := state.(lastBar := bar);
    }

    method ManageListed(i: TickIn, bar: int) returns (flat: bool)
      modifies this
      ensures Answer(View(), flat) == ManageHeld(cfg, old(View()), i, bar)
    {
      hide PriceExitOnce, TryExit;
      var due := ExitsOnce(i, bar);
      if due.None? { return false; }
      var done := Attempt(i, bar, due.value);
      flat := state.entryPrice.None?;
      if done { MarkBar(Some(bar)); } else { SetProblem(bar); }
    }

    method ManageTracked(i: TickIn, bar: int) returns (flat: bool)
      modifies this
      ensures Answer(View(), flat) == ManageTrackedMissing(cfg, old(View()), i, bar)
    {
      hide FindFill, ConfirmGone, DetectExternalClose, Forget;
      var gone, found := PositionGoneConfirmed(i);
      if !gone {
        SetProblem(bar);
        return false;
      }
      var stop := DetectClose(found, i);
      if !stop { ForgetPosition(); }
      return true;
    }

    /** _untracked_flat_problem and what its caller does with it. */
    method ManageNothingTracked(bar: int) returns (flat: bool)
      modifies this
      ensures Answer(View(), flat) == ManageUntracked(old(View()), bar)
    {
      if !marks.codeFailed || !marks.mayHold { return true; }
      if marks.lastEmpty {
        SetProblem(bar);
        return false;
      }
      var n := marks.missing + 1;
      if n >= 2 {
        CountMisses(0);
        return true;
      }
      CountMisses(n);
      SetProblem(bar);
      return false;
    }

    method ManageBlind(i: TickIn, bar: int)
      modifies this
      ensures Answer(View(), false) == ManageUnchecked(cfg, old(View()), i, bar)
    {
      hide ExitsWithoutCheck;
      SetProblem(bar);
      var done := ExitsUnchecked(i, bar);
      if done { MarkBar(Some(bar)); }
    }

    method ClearProblem(also: bool)
      modifies this
      ensures View() == if also then old(View()).(problem := false, problemBar := None) else old(View()).(problem := false)
    {
      if also { marks := marks.(problem := false, problemBar := None); } else { marks := marks.(problem := false); }
    }

    /** _manage_without_signals: true when the broker confirmed that the bot is flat. */
    method ManageWithoutSignals(i: TickIn, bar: int, regime: bool) returns (flat: bool)
      modifies this
      ensures Answer(View(), flat) == Manage(cfg, old(View()), i, bar, regime)
    {
      hide ManageNow;
      if marks.exitsBar == Some(bar) && marks.exitsReason.None? && marks.problemBar != Some(bar) {
        ClearProblem(false);
        return false;
      }
      ClearProblem(true);
      flat := ManageChecked(i, bar, regime);
    }

    method ManageChecked(i: TickIn, bar: int, regime: bool) returns (flat: bool)
      modifies this
      ensures Answer(View(), flat) == ManageNow(cfg, old(View()), i, bar, regime)
    {
      hide BrokerPosition, ManageUnchecked, ManageTrackedMissing, ManageUntracked, ManageHeld;
      var check := AskBroker(regime, i);
      if check.CheckFailed? {
        ManageBlind(i, bar);
        flat := false;
      } else if check.Listed? {
        flat := ManageListed(i, bar);
      } else if state.entryPrice.Some? {
        flat := ManageTracked(i, bar);
      } else {
        flat := ManageNothingTracked(bar);
      }
    }

    // ---- a bot whose code failed ----

    method Pause()
      modifies this
      ensures View() == PauseForCode(old(View()))
    {
      state := state.(exitsOnly := false, paused := true);
      history := Then(history, PausedForCode);
    }

    method MarkRan(bar: int)
      modifies this
      ensures View() == MarkExitsRan(old(View()), bar)
    {
      if marks.exitsBar != Some(bar) || marks.exitsReason.Some? { return; }
      MarkBar(Some(bar));
    }

    /** A problem with the broker's answer raises, once the state is as it should be saved. */
    method RaiseProblem()
      modifies this
      ensures View() == old(View()).(raised := old(View()).problem, problem := false)
    {
      marks := marks.(raised := marks.problem, problem := false);
    }

    method ManageFailed(i: TickIn, bar: int, regime: bool)
      modifies this
      ensures View() == ManageAfterFailure(cfg, old(View()), i, bar, regime)
    {
      hide Manage, PauseForCode, MarkExitsRan;
      var flat := ManageWithoutSignals(i, bar, regime);
      if flat { Pause(); } else { MarkRan(bar); }
      RaiseProblem();
    }

    /** _tick_code_failure. */
    method TickCodeFailure(i: TickIn)
      modifies this
      ensures View() == CodeTick(cfg, old(View()), i)
    {
      hide ManageAfterFailure;
      if i.fetch.None? {
        marks := marks.(raised := true, problem := false);
        return;
      }
      var regime := if i.planLost then cfg.bidirectional else cfg.isRegime;
      ManageFailed(i, i.fetch.value, regime);
    }

    /** The start of _on_code_failure. */
    method CodeFails()
      modifies this
      ensures View() == EnterCodeFailure(old(View()))
    {
      var hold := state.entryPrice.Some? || state.dir.Some? || state.exitsOnly;
      ghost var owes := marks.exitsReason == Some(Signal);
      FailWith(hold, owes, marks.exitsBar);
    }

    method FailWith(hold: bool, ghost owes: bool, ghost onBar: Option<int>)
      modifies this
      ensures View() == Log(old(View()).(codeFailed := true, mayHold := hold, owesSignal := owes, exitsOnly := true),
                            CodeFailed(hold, owes, onBar))
    {
      marks := marks.(codeFailed := true, mayHold := hold);
      state := state.(exitsOnly := true);
      owesSignal := owes;
      history := Then(history, CodeFailed(hold, owes, onBar));
    }

    // ---- entries and flips ----

    /** _enter_position once the size is known. */
    method EnterPosition(i: TickIn, side: Side)
      modifies this
      ensures View() == Enter(old(View()), i, side)
    {
      if i.entryBlocked || i.entry.NotEntered? { return; }
      FillEntry(i.entry.price, i.now, side);
    }

    method FillEntry(price: real, now: real, side: Side)
      modifies this
      ensures View() == Open(old(View()), price, now, side)
    {
      state := state.(entryPrice := Some(price), entryTime := Some(now), barCount := 0, trailPeak := Some(price),
                      dir := Some(side));
      history := Then(history, Entered(side, now, marks.missing, price));
    }

    /** The post-stop cooldown: true when it drops the candidate. */
    method Cooldown() returns (drop: bool)
      modifies this
      ensures drop == (old(View()).skipLeft > 0)
      ensures View() == if drop then Log(old(View()).(skipLeft := old(View()).skipLeft - 1), CandidateSkipped)
                        else Log(old(View()), CandidatePassed)
    {
      drop := state.skipLeft > 0;
      if drop {
        state := state.(skipLeft := state.skipLeft - 1);
        history := Then(history, CandidateSkipped);
      } else {
        history := Then(history, CandidatePassed);
      }
    }

    method EnterReverse(i: TickIn, newDir: Option<Side>)
      modifies this
      ensures View() == ReverseEntry(cfg, old(View()), i, newDir)
    {
      hide Enter;
      if cfg.onFlip == CloseAndReverse && newDir.Some? && i.inHours {
        var drop := Cooldown();
        if !drop { EnterPosition(i, newDir.value); }
      }
    }

    method SetPendingFlip()
      modifies this
      ensures View() == LeaveFlip(old(View()))
    {
      state := state.(pendingFlip := true);
      history := Then(history, FlipLeft);
    }

    method SettleFlip(i: TickIn, qty: real)
      modifies this
      ensures View() == Forget(Log(old(View()).(consecStops := 0), Booked(FlipClose, RegimeFlip, qty, i.exitFill)))
                        .(pendingFlip := false)
    {
      state := state.(consecStops := 0, entryPrice := None, barCount := 0, trailPeak := None, trailStop := None,
                      pendingId := None, pendingReason := None, dir := None, pendingFlip := false);
      history := Then(history, Booked(FlipClose, RegimeFlip, qty, i.exitFill));
    }

    /** _handle_regime_flip. */
    method Flip(i: TickIn, bar: int, qty: real, newDir: Option<Side>)
      modifies this
      ensures View() == HandleFlip(cfg, old(View()), i, bar, qty, newDir)
    {
      hide PollAfter, ReverseEntry;
      if i.close.Refused? {
        SetPendingFlip();
        return;
      }
      var result := SendAndWait(i, bar, RegimeFlip, state.dir, i.close.id, marks.outcome);
      if result != Cleared {
        SetPendingFlip();
        return;
      }
      SettleFlip(i, qty);
      EnterReverse(i, newDir);
    }

    /** A pending flip whose position cleared between ticks. */
    method ResolveFlip(i: TickIn, newDir: Option<Side>)
      modifies this
      ensures View() == CleanPendingFlip(cfg, old(View()), i, newDir)
    {
      hide ReverseEntry;
      CleanFlip();
      EnterReverse(i, newDir);
    }

    method CleanFlip()
      modifies this
      ensures View() == Log(Forget(old(View())).(pendingFlip := false), FlipCleaned(old(View()).entryPrice.Some?))
    {
      history := Then(history, FlipCleaned(state.entryPrice.Some?));
      state := state.(entryPrice := None, barCount := 0, trailPeak := None, trailStop := None, pendingId := None,
                      pendingReason := None, dir := None, pendingFlip := false);
    }

    /** The loop over the positions before an entry: false refuses it. */
    method RoomFor(ps: seq<Position>, side: Side) returns (free: bool)
      ensures free == EntryAllowed(cfg, ps, side)
    {
      hide Find;
      var found := Scan(ps, cfg.symbol, None);
      free := found.None? || (!cfg.bidirectional && found.value.side == side);
    }

    /** Section 6 of _tick: the entry of a flat bot. */
    method TryToEnter(i: TickIn)
      modifies this
      ensures View() == TryEntry(cfg, old(View()), i)
    {
      hide Enter, EntryAllowed;
      var side := if cfg.isRegime then i.regimeDir else Some(cfg.direction);
      if !i.inHours || side.None? || !i.buySignal || i.entryBlocked { return; }
      var drop := Cooldown();
      if drop || i.entryCheck.Unavailable? { return; }
      var free := RoomFor(i.entryCheck.positions, side.value);
      if free && i.spreadOk { EnterPosition(i, side.value); }
    }

    method Flat(i: TickIn, found: Option<Found>)
      modifies this
      ensures View() == NoPosition(cfg, old(View()), i, found)
    {
      hide DetectExternalClose, Forget, TryEntry;
      if state.entryPrice.Some? {
        var stop := DetectClose(found, i);
        if stop { return; }
      }
      ForgetPosition();
      TryToEnter(i);
    }

    // ---- the main path ----

    method ConfirmedFlat(i: TickIn, found: Option<Found>)
      modifies this
      ensures View() == ActFlat(cfg, old(View()), i, found)
    {
      hide CleanPendingFlip, NoPosition;
      var newDir := if cfg.isRegime then i.regimeDir else Some(cfg.direction);
      if cfg.isRegime && state.pendingFlip { ResolveFlip(i, newDir); } else { Flat(i, found); }
    }

    /** The bar is given back and the tick counts as failed. */
    method GiveBack(prev: Option<int>)
      modifies this
      ensures View() == old(View()).(lastBar := prev, raised := true)
    {
      state := state.(lastBar := prev);
      marks := marks.(raised := true);
    }

    method NotListed(i: TickIn, prev: Option<int>)
      modifies this
      ensures View() == ActMissing(cfg, old(View()), i, prev)
    {
      hide FindFill, ConfirmGone, ActFlat;
      if state.entryPrice.None? {
        ConfirmedFlat(i, None);
        return;
      }
      var gone, found := PositionGoneConfirmed(i);
      if gone { ConfirmedFlat(i, found); } else { GiveBack(prev); }
    }

    method NotChecked(i: TickIn, bar: int, prev: Option<int>)
      modifies this
      ensures View() == ActUnchecked(cfg, old(View()), i, bar, prev)
    {
      hide ExitsWithoutCheck;
      var done := ExitsUnchecked(i, bar);
      var back := if done then state.lastBar else prev;
      GiveBack(back);
    }

    method DecideExit(i: TickIn, bar: int) returns (due: Option<Reason>)
      modifies this
      ensures Decision(View(), due) == ExitDue(cfg, old(View()), i, bar)
    {
      hide Evaluate;
      if marks.exitsBar == Some(bar) { due := marks.exitsReason; } else { due := PriceExitReason(i, bar); }
      if due.None? && i.sellSignal { due := Some(Signal); }
    }

    method RetryExit(bar: int, due: Option<Reason>, prev: Option<int>)
      modifies this
      ensures View() == old(View()).(exitsBar := Some(bar), exitsReason := due, lastBar := prev, raised := true)
    {
      marks := marks.(exitsBar := Some(bar), exitsReason := due, raised := true);
      state := state.(lastBar := prev);
    }

    /** Section 7 of _tick: the exits of a held position. */
    method ExitsOfHeld(i: TickIn, bar: int, prev: Option<int>)
      modifies this
      ensures View() == HeldExits(cfg, old(View()), i, bar, prev)
    {
      hide ExitDue, ExecuteExit;
      var due := DecideExit(i, bar);
      if due.Some? {
        SetOutcome(None);
        Exit(i, bar, due.value);
        if state.entryPrice.Some? && marks.outcome == Some(NotSent) { RetryExit(bar, due, prev); }
      }
    }

    method Held(i: TickIn, bar: int, prev: Option<int>, p: Position)
      modifies this
      ensures View() == ActHeld(cfg, old(View()), i, bar, prev, p)
    {
      hide HandleFlip, HeldExits;
      var newDir := if cfg.isRegime then i.regimeDir else Some(cfg.direction);
      if cfg.isRegime && (state.pendingFlip || (state.dir.Some? && newDir != state.dir && cfg.onFlip != HoldOn)) {
        Flip(i, bar, if p.qty < 0.0 then -p.qty else p.qty, newDir);
      } else {
        ExitsOfHeld(i, bar, prev);
      }
    }

    method ActOnSignals(i: TickIn, bar: int, prev: Option<int>)
      modifies this
      ensures View() == Act(cfg, old(View()), i, bar, prev)
    {
      hide BrokerPosition, ActUnchecked, ActMissing, ActHeld;
      var check := AskBroker(cfg.isRegime, i);
      match check {
        case CheckFailed => NotChecked(i, bar, prev);
        case Missing => NotListed(i, prev);
        case Listed(p) => Held(i, bar, prev, p);
      }
    }

    method Raise()
      modifies this
      ensures View() == old(View()).(raised := true)
    {
      marks := marks.(raised := true);
    }

    method WorkOn(i: TickIn, bar: int)
      modifies this
      ensures View() == NewBar(cfg, old(View()), i, bar)
    {
      hide Act, ManageAfterFailure, EnterCodeFailure;
      var prev := state.lastBar;
      if cfg.graph && i.cook.CodeError? {
        CodeFails();
        ManageFailed(i, bar, cfg.isRegime);
      } else if cfg.graph && i.cook.CookError? {
        Raise();
      } else {
        MarkBar(Some(bar));
        if cfg.graph || !i.indicatorsFail { ActOnSignals(i, bar, prev); }
      }
    }

    method SeeBars(i: TickIn)
      modifies this
      ensures View() == Bars(cfg, old(View()), i)
    {
      hide Manage, NewBar;
      if i.fetch.None? || state.lastBar == i.fetch { return; }
      var bar := i.fetch.value;
      if cfg.graph && i.referenceDown {
        var flat := ManageWithoutSignals(i, bar, cfg.isRegime);
        Raise();
      } else {
        WorkOn(i, bar);
      }
    }

    method SetCompiled()
      modifies this
      ensures View() == old(View()).(compiled := true)
    {
      marks := marks.(compiled := true);
    }

    method SetPaused()
      modifies this
      ensures View() == old(View()).(paused := true)
    {
      state := state.(paused := true);
    }

    method CompileThenWork(i: TickIn)
      modifies this
      ensures View() == Working(cfg, old(View()), i)
    {
      hide Bars, CodeTick, EnterCodeFailure;
      if !cfg.graph || marks.compiled {
        SeeBars(i);
        return;
      }
      match i.compile {
        case Compiles =>
          SetCompiled();
          SeeBars(i);
        case CodeRefused =>
          CodeFails();
          TickCodeFailure(i);
        case Broken => SetPaused();
        case CompilerDown => Raise();
      }
    }

    method BeginTick()
      modifies this
      ensures View() == Begin(old(View()))
    {
      marks := marks.(raised := false, problem := false);
      history := Then(history, TickBegan);
    }

    /** _tick.  From any state a run can be in it keeps the ledger, gives a position up only with
        evidence, closes only what the broker listed in the tick, and leaves its bar marked. */
    method OneTick(i: TickIn)
      modifies this
      ensures View() == Tick(cfg, old(View()), i)
      ensures RunnerSafety.Inv(cfg, old(View())) ==> RunnerSafety.Inv(cfg, View()) && Sound(cfg, View())
      ensures forall lo | RunnerBars.Marked(cfg, old(View()), lo) && i.fetch.Some? && lo <= i.fetch.value ::
                RunnerBars.Marked(cfg, View(), i.fetch.value)
    {
      hide Begin, CodeTick, Working, Sound, RunnerSafety.Inv, RunnerBars.Marked;
      TickIsSound(cfg, View(), i);
      BeginTick();
      if cfg.graph && marks.codeFailed {
        TickCodeFailure(i);
      } else if i.inHours || state.entryPrice.Some? {
        CompileThenWork(i);
      }
    }

    /** apply_graph_update on this bot: false refuses it. */
    method ApplyGraphUpdate() returns (taken: bool)
      modifies this
      ensures View() == UpdateGraph(old(View())) && taken == old(View()).entryPrice.None?
    {
      taken := state.entryPrice.None?;
      if taken {
        marks := marks.(compiled := false);
        state := state.(exitsOnly := false);
      }
    }

    /** The loop of run(): ticks, and graph updates between them, until a pause.  The object's ledger
        is exact, every position was given up with evidence, every close was of a listed position, and
        with rising bars every bar got at most one close and one count. */
    method Live(ghost s: Saved, steps: seq<Step>)
      requires View() == Init(cfg, s)
      modifies this
      ensures View() == Run(cfg, Init(cfg, s), steps)
      ensures RunnerSafety.Loadable(cfg, s) ==> Sound(cfg, View())
      ensures RunnerBars.BarsRise(cfg, Init(cfg, s), steps) ==> Ascending(ClosedBars(history)) && Ascending(CountedBars(history))
    {
      hide Tick, Init, UpdateGraph, Sound, RunnerBars.BarsRise, Ascending, ClosedBars, CountedBars;
      RunIsSound(cfg, s, steps);
      var k := 0;
      while k < |steps| && !state.paused
        invariant 0 <= k <= |steps| && View() == Run(cfg, Init(cfg, s), steps[..k])
      {
        assert steps[..k + 1][..k] == steps[..k];
        match steps[k] {
          case Ticks(i) => OneTick(i);
          case GraphUpdate => var taken := ApplyGraphUpdate();
        }
        k := k + 1;
      }
      RunStaysPaused(cfg, Init(cfg, s), steps, k);
      assert steps[..|steps|] == steps;
    }
  }

  /** The ledger is exact, nothing was given up without evidence, nothing closed that was not listed. */
  ghost predicate Sound(c: Config, w: World) {
    && Opened(w.history) - GivenUp(w.history) == (if w.entryPrice.Some? then 1 else 0)
    && (forall past, ev :: Within(Then(past, Gone(ev)), w.history) ==> Proof(c, past, ev))
    && (forall past, e :: Within(Then(past, e), w.history) ==> ClosesListed(c, past, e))
  }

  lemma SafeIsSound(c: Config, w: World)
    requires RunnerSafety.Inv(c, w)
    ensures Sound(c, w)
  {
    hide RunnerSafety.Safe, RunnerSafety.SafeThen, RunnerSafety.Sum, RunnerSafety.SumThen, Proof, ClosesListed, Within;
    BalanceIsLedger(c, w.history);
    forall past, ev | Within(Then(past, Gone(ev)), w.history) ensures Proof(c, past, ev) { SafeGone(c, w.history, past, ev); }
    forall past, e | Within(Then(past, e), w.history) ensures ClosesListed(c, past, e) { SafeCloses(c, w.history, past, e); }
  }

  lemma TickIsSound(c: Config, w: World, i: TickIn)
    ensures RunnerSafety.Inv(c, w) ==> RunnerSafety.Inv(c, Tick(c, w, i)) && Sound(c, Tick(c, w, i))
    ensures forall lo | RunnerBars.Marked(c, w, lo) && i.fetch.Some? && lo <= i.fetch.value ::
              RunnerBars.Marked(c, Tick(c, w, i), i.fetch.value)
  {
    hide Tick, Sound, RunnerSafety.Inv, RunnerBars.Marked;
    if RunnerSafety.Inv(c, w) {
      RunnerSafety.TickSafe(c, w, i);
      SafeIsSound(c, Tick(c, w, i));
    }
    forall lo | RunnerBars.Marked(c, w, lo) && i.fetch.Some? && lo <= i.fetch.value
      ensures RunnerBars.Marked(c, Tick(c, w, i), i.fetch.value)
    {
      RunnerBars.TickMarked(c, w, i, lo);
    }
  }

  lemma RunIsSound(c: Config, s: Saved, steps: seq<Step>)
    ensures var w := Run(c, Init(c, s), steps);
            && (RunnerSafety.Loadable(c, s) ==> Sound(c, w))
            && (RunnerBars.BarsRise(c, Init(c, s), steps) ==> Ascending(ClosedBars(w.history)) && Ascending(CountedBars(w.history)))
  {
    hide Run, Init, Sound, RunnerSafety.Inv, Ascending;
    if RunnerSafety.Loadable(c, s) {
      RunnerSafety.EveryRunIsSafe(c, s, steps);
      SafeIsSound(c, Run(c, Init(c, s), steps));
    }
    if RunnerBars.BarsRise(c, Init(c, s), steps) { OneClosePerBar(c, s, steps); }
  }

  lemma NoteReplyIs(c: Config, w: World, check: Check, regime: bool, i: TickIn)
    ensures var noted := w.(lastEmpty := NoPositions(i.check));
            NoteReply(c, w, check, regime, i)
              == if check.CheckFailed? then w
                 else if check.Listed? && w.entryPrice.None? then Resume(c, noted, check.p, regime, i) else noted
  {
    hide Resume;
  }

  /** A paused runner does nothing more. */
  lemma {:induction false} RunStaysPaused(c: Config, w: World, steps: seq<Step>, k: nat)
    requires k <= |steps| && (k < |steps| ==> Run(c, w, steps[..k]).paused)
    ensures Run(c, w, steps[..|steps|]) == Run(c, w, steps[..k])
    decreases |steps| - k
  {
    hide Tick;
    if k < |steps| {
      assert steps[..k + 1][..k] == steps[..k];
      RunStaysPaused(c, w, steps, k + 1);
    }
  }
}
