/** What a run's history says of three things the runner only half remembers: the signal exit that was
    kept for a bar when the code failed, the regime flip that is pending and whether its position is still
    there, and the entry time that outlives a position; and the proof, one step of the tick after the
    other, that the runner's fields go with it. */
module RunnerTraces {
  import opened BotTypes
  import opened PriceExits
  import opened RunnerSpec
  import RunnerSafety
  import RunnerBars

  // ---- reading a history ----

  /** What a history says of the signal closes, the pending flip and the entry time kept. */
  datatype Trace = Trace(
    failed: bool,            // the code has failed, or the run began in the exits-only state
    owed: Option<int>,       // the bar whose signal exit was kept when it failed, until one is sent
    signals: nat,            // signal closes accepted
    onlyOwed: bool,          // after the failure each was on the bar owed
    pending: bool,           // a flip is pending
    stray: bool,             // ... and its position was given up otherwise
    empty: nat,              // flip cleanups with nothing tracked
    kept: Option<real>,      // the last entry time that nothing has cleared
    timely: bool)            // every resumed position has the time kept, or else its own

  function Own(kept: Option<real>, at: real): real {
    if kept.Some? then kept.value else at
  }

  function SentOn(t: Trace, bar: int): Trace {
    t.(owed := None, signals := t.signals + 1, onlyOwed := t.onlyOwed && (t.failed ==> t.owed == Some(bar)))
  }

  function AddTo(t: Trace, e: Event): Trace {
    match e
    case CodeFailed(_, owes, onBar) => t.(failed := true, owed := if owes then onBar else None)
    case CloseAccepted(bar, why, _, _) => if why == Signal then SentOn(t, bar) else t
    case Booked(kind, _, _, _) =>
      var pending := t.pending && kind != FlipClose;
      t.(kept := if kind == OwnClose then None else t.kept, pending := pending, stray := pending)
    case SideCleared => t.(kept := None, stray := t.pending)
    case FlipCleaned(held) => t.(pending := false, stray := false, empty := t.empty + if held then 0 else 1)
    case FlipLeft => t.(pending := true, stray := false)
    case Entered(_, at, _, _) => t.(kept := Some(at), stray := false)
    case Resumed(at, _, since, _) => t.(kept := Some(since), stray := false, timely := t.timely && since == Own(t.kept, at))
    case _ => t
  }

  function Start(c: Config, s: Saved): Trace {
    Trace(c.graph && s.exitsOnly, None, 0, true, s.pendingFlip, s.pendingFlip && s.entryPrice.None?, 0, s.entryTime, true)
  }

  function TraceOf(c: Config, h: History): Trace
    decreases h, 0
  {
    match h
    case Began(s) => Start(c, s)
    case Then(past, e) => TraceThen(c, past, e)
  }

  // Apart, so that the verifier opens only the events a proof is about.
  function TraceThen(c: Config, past: History, e: Event): Trace
    decreases past, 1
  {
    AddTo(TraceOf(c, past), e)
  }

  lemma Adds(c: Config, h: History, e: Event)
    ensures TraceOf(c, Then(h, e)) == AddTo(TraceOf(c, h), e)
  {
    assert TraceThen(c, h, e) == AddTo(TraceOf(c, h), e);
  }

  // ---- how the runner's fields go with it ----

  /** But for a signal exit that was just sent. */
  predicate Tied(w: World, t: Trace) {
    && t.onlyOwed && t.timely && t.failed == w.codeFailed
    && t.pending == w.pendingFlip && t.stray == (w.pendingFlip && w.entryPrice.None?)
    && (w.paused || t.kept == w.entryTime)
  }

  predicate OwedIsKept(w: World, t: Trace) {
    w.codeFailed && w.exitsReason == Some(Signal) ==> t.owed == w.exitsBar
  }

  predicate Ties(c: Config, w: World) {
    Tied(w, TraceOf(c, w.history)) && OwedIsKept(w, TraceOf(c, w.history))
  }

  /** The fields it looks at. */
  predicate SameFields(w: World, w1: World) {
    && w1.codeFailed == w.codeFailed && w1.pendingFlip == w.pendingFlip && w1.entryPrice == w.entryPrice
    && w1.entryTime == w.entryTime && w1.paused == w.paused
    && w1.exitsBar == w.exitsBar && w1.exitsReason == w.exitsReason
  }

  predicate SameTrace(c: Config, w: World, w1: World) {
    TraceOf(c, w1.history) == TraceOf(c, w.history)
  }

  /** A step that sends no signal exit, cleans no flip up and leaves the marks alone. */
  predicate Moved(c: Config, w: World, w1: World) {
    var t, t1 := TraceOf(c, w.history), TraceOf(c, w1.history);
    && Ties(c, w1) && t1.empty == t.empty && t1.signals == t.signals
    && w1.codeFailed == w.codeFailed && w1.exitsBar == w.exitsBar && w1.exitsReason == w.exitsReason
  }

  /** A signal exit may be sent: on bar, when one was kept for it. */
  predicate Acted(c: Config, w: World, w1: World, bar: int) {
    var t, t1 := TraceOf(c, w.history), TraceOf(c, w1.history);
    && Ties(c, w1) && t1.empty == t.empty && w1.codeFailed == w.codeFailed
    && (t1.signals == t.signals || (t1.signals == t.signals + 1 && w.exitsBar == Some(bar) && w.exitsReason == Some(Signal)))
  }

  // ---- a look at the broker ----

  lemma ResumeMoved(c: Config, w: World, p: Position, regime: bool, i: TickIn)
    requires Ties(c, w) && w.entryPrice.None? && !w.paused
    ensures Moved(c, w, Resume(c, w, p, regime, i))
  {
    hide TraceOf, TraceThen;
    Adds(c, w.history, Resume(c, w, p, regime, i).history.last);
  }

  lemma NoteReplyMoved(c: Config, w: World, check: Check, regime: bool, i: TickIn)
    requires Ties(c, w) && !w.paused
    ensures var w1 := NoteReply(c, w, check, regime, i);
            && Moved(c, w, w1) && w1.paused == w.paused && w1.pendingFlip == w.pendingFlip
            && (check.Missing? ==> w1.entryPrice == w.entryPrice) && (check.Listed? ==> w1.entryPrice.Some?)
  {
    hide TraceOf, TraceThen, Resume;
    var noted := w.(lastEmpty := NoPositions(i.check));
    if check.Listed? && w.entryPrice.None? {
      ResumeMoved(c, noted, check.p, regime, i);
      ResumeTracks(c, noted, check.p, regime, i);
    }
  }

  lemma ResumeTracks(c: Config, w: World, p: Position, regime: bool, i: TickIn)
    ensures var w1 := Resume(c, w, p, regime, i);
            w1.entryPrice.Some? && w1.paused == w.paused && w1.pendingFlip == w.pendingFlip
  {
  }

  /** What a look at the broker leaves behind. */
  predicate Looked(c: Config, w: World, s: Sighting) {
    && Moved(c, w, s.w) && s.w.paused == w.paused && s.w.pendingFlip == w.pendingFlip
    && (s.check.Missing? ==> s.w.entryPrice == w.entryPrice) && (s.check.Listed? ==> s.w.entryPrice.Some?)
  }

  lemma BrokerPositionLooked(c: Config, w: World, regime: bool, i: TickIn)
    requires Ties(c, w) && !w.paused
    ensures Looked(c, w, BrokerPosition(c, w, regime, i))
    ensures BrokerPosition(c, w, regime, i).check == ReadReply(i.check, c.symbol, CheckSide(c, w, regime))
  {
    hide TraceOf, TraceThen, ReadReply, CheckSide, NoteReply;
    var want := CheckSide(c, w, regime);
    var check := ReadReply(i.check, c.symbol, want);
    var asked := Log(if check.Listed? then w.(missing := 0) else w, Checked(i.check, want));
    Adds(c, w.history, Checked(i.check, want));
    assert Ties(c, asked);
    NoteReplyMoved(c, asked, check, regime, i);
  }

  // ---- sending a close ----

  lemma {:induction false} PollSame(c: Config, h: History, side: Option<Side>, post: seq<Reply>, k: nat)
    requires k <= POLLS
    ensures TraceOf(c, Poll(c, h, side, post, k).h) == TraceOf(c, h)
    decreases POLLS - k
  {
    hide TraceOf, TraceThen;
    if k < POLLS {
      var e := PolledAfterClose(if k < |post| then post[k] else Unavailable, side);
      Adds(c, h, e);
      PollSame(c, Then(h, e), side, post, k + 1);
    }
  }

  lemma PollAfterSends(c: Config, w: World, i: TickIn, bar: int, reason: Reason, side: Option<Side>, id: int)
    ensures TraceOf(c, PollAfter(c, w, i, bar, reason, side, id).h)
         == if reason == Signal then SentOn(TraceOf(c, w.history), bar) else TraceOf(c, w.history)
  {
    hide TraceOf, TraceThen;
    var e := CloseAccepted(bar, reason, side, id);
    Adds(c, w.history, e);
    PollSame(c, Then(w.history, e), side, i.post, 0);
  }

  /** After an exit attempt: a signal close on bar went out, and the exit is not kept; or none did. */
  predicate Attempted(c: Config, w: World, x: World, bar: int, reason: Reason) {
    var t, t1 := TraceOf(c, w.history), TraceOf(c, x.history);
    && Tied(x, t1) && t1.empty == t.empty
    && x.codeFailed == w.codeFailed && x.exitsBar == w.exitsBar && x.exitsReason == w.exitsReason
    && ((t1.owed == t.owed && t1.signals == t.signals)
        || (reason == Signal && t1.signals == t.signals + 1 && (x.entryPrice.None? || x.outcome == Some(Sent))))
  }

  /** A signal exit of a bot whose code failed is the one that is owed. */
  predicate MaySend(c: Config, w: World, bar: int, reason: Reason) {
    var t := TraceOf(c, w.history);
    Tied(w, t) && (t.failed && reason == Signal ==> t.owed == Some(bar))
  }

  lemma FinishExitTied(c: Config, w: World, i: TickIn, reason: Reason, qty: real)
    requires Tied(w, TraceOf(c, w.history))
    ensures var x := FinishExit(c, w, i, reason, qty);
            var t, t1 := TraceOf(c, w.history), TraceOf(c, x.history);
            && Tied(x, t1) && t1.empty == t.empty && t1.owed == t.owed && t1.signals == t.signals
            && x.codeFailed == w.codeFailed && x.exitsBar == w.exitsBar && x.exitsReason == w.exitsReason && x.entryPrice.None?
  {
    hide TraceOf, TraceThen, Triggers;
    Adds(c, w.history, Booked(OwnClose, reason, qty, i.exitFill));
  }

  lemma RefusedAttempted(c: Config, w: World, bar: int, reason: Reason)
    requires MaySend(c, w, bar, reason)
    ensures Attempted(c, w, Log(w.(outcome := Some(CloseFailed)), CloseRefused), bar, reason)
  {
    hide TraceOf, TraceThen;
    Adds(c, w.history, CloseRefused);
  }

  lemma SentAttempted(c: Config, w: World, i: TickIn, bar: int, reason: Reason, id: int)
    requires MaySend(c, w, bar, reason)
    ensures var polled := PollAfter(c, w, i, bar, reason, Some(TrackedSide(c, w)), id);
            var sent := w.(outcome := Some(Sent), pendingId := Some(id), pendingReason := Some(reason), history := polled.h);
            Attempted(c, w, sent, bar, reason) && Tied(sent, TraceOf(c, sent.history))
  {
    hide TraceOf, TraceThen, PollAfter, TrackedSide;
    PollAfterSends(c, w, i, bar, reason, Some(TrackedSide(c, w)), id);
  }

  lemma CloseAndBookAttempted(c: Config, w: World, i: TickIn, bar: int, reason: Reason, qty: real)
    requires MaySend(c, w, bar, reason)
    ensures Attempted(c, w, CloseAndBook(c, w, i, bar, reason, qty), bar, reason)
  {
    hide TraceOf, TraceThen, PollAfter, TrackedSide, FinishExit, Tied;
    match i.close
    case Refused => RefusedAttempted(c, w, bar, reason);
    case Accepted(id) =>
      SentAttempted(c, w, i, bar, reason, id);
      var polled := PollAfter(c, w, i, bar, reason, Some(TrackedSide(c, w)), id);
      var sent := w.(outcome := Some(Sent), pendingId := Some(id), pendingReason := Some(reason), history := polled.h);
      if polled.result == Cleared {
        FinishExitTied(c, sent, i, reason, qty);
        assert CloseAndBook(c, w, i, bar, reason, qty) == FinishExit(c, sent, i, reason, qty);
      } else {
        assert CloseAndBook(c, w, i, bar, reason, qty) == sent;
      }
  }

  lemma ClearOtherSideAttempted(c: Config, w: World, bar: int, reason: Reason)
    requires MaySend(c, w, bar, reason)
    ensures Attempted(c, w, ClearOtherSide(w), bar, reason)
  {
    hide TraceOf, TraceThen;
    Adds(c, w.history, SideCleared);
  }

  lemma ExitSeenAttempted(c: Config, w: World, check: Check, i: TickIn, bar: int, reason: Reason)
    requires MaySend(c, w, bar, reason)
    ensures Attempted(c, w, ExitSeen(c, w, check, i, bar, reason), bar, reason)
  {
    hide TraceOf, TraceThen, CloseAndBook, ClearOtherSide, TrackedSide;
    ClearOtherSideAttempted(c, w, bar, reason);
    if check.Listed? { CloseAndBookAttempted(c, w, i, bar, reason, Abs(check.p.qty)); }
  }

  lemma ExecuteExitAttempted(c: Config, w: World, i: TickIn, bar: int, reason: Reason)
    requires MaySend(c, w, bar, reason)
    ensures Attempted(c, w, ExecuteExit(c, w, i, bar, reason), bar, reason)
  {
    hide TraceOf, TraceThen, ExitSeen, TrackedSide, ReadReply;
    var e := AskedAtExit(i.verify, TrackedSide(c, w), reason, bar);
    Adds(c, w.history, e);
    ExitSeenAttempted(c, Log(w, e), ReadReply(i.verify, c.symbol, None), i, bar, reason);
  }

  // ---- the exits of a bar ----

  lemma EvaluateSame(c: Config, w: World, i: TickIn, bar: int)
    ensures var ran := Evaluate(c, w, i, bar);
            SameTrace(c, w, ran.w) && SameFields(w, ran.w) && (ran.due.Some? ==> IsPriceExit(ran.due.value))
  {
    hide TraceOf, TraceThen, Advance, Due, Resolve, IsShort;
    var ran := Evaluate(c, w, i, bar);
    Adds(c, w.history, ran.w.history.last);
    var entry := if w.entryPrice.Some? then w.entryPrice.value else 0.0;
    RunnerSafety.DueFacts(Hold(entry, w.barCount, w.trailPeak, w.trailStop), Resolve(i.settings, w.dir), IsShort(c, w), i.quote);
  }

  lemma PriceExitOnceIs(c: Config, w: World, i: TickIn, bar: int)
    requires Ties(c, w)
    ensures var ran := PriceExitOnce(c, w, i, bar);
            && SameTrace(c, w, ran.w) && Ties(c, ran.w) && ran.w.exitsBar == Some(bar) && ran.w.exitsReason == ran.due
            && ran.w.codeFailed == w.codeFailed
            && (ran.due == Some(Signal) ==> w.exitsBar == Some(bar) && w.exitsReason == Some(Signal))
  {
    hide TraceOf, TraceThen, Evaluate;
    if w.exitsBar != Some(bar) { EvaluateSame(c, w, i, bar); }
  }

  lemma TryExitActed(c: Config, w: World, i: TickIn, bar: int, reason: Reason)
    requires Ties(c, w) && w.exitsBar == Some(bar) && w.exitsReason == Some(reason)
    ensures Acted(c, w, TryExit(c, w, i, bar, reason).w, bar)
  {
    hide TraceOf, TraceThen, ExecuteExit, Tied;
    var cleared := w.(outcome := None);
    assert MaySend(c, cleared, bar, reason) by { ClearedTied(c, w); }
    ExecuteExitAttempted(c, cleared, i, bar, reason);
    AfterAttemptActed(c, cleared, ExecuteExit(c, cleared, i, bar, reason), bar, reason);
  }

  lemma ClearedTied(c: Config, w: World)
    requires Ties(c, w)
    ensures Tied(w.(outcome := None), TraceOf(c, w.history)) && (w.codeFailed <==> TraceOf(c, w.history).failed)
  {
    hide TraceOf, TraceThen;
  }

  lemma AfterAttemptActed(c: Config, w: World, x: World, bar: int, reason: Reason)
    requires Ties(c, w) && w.exitsBar == Some(bar) && w.exitsReason == Some(reason) && Attempted(c, w, x, bar, reason)
    ensures Acted(c, w, AfterExitAttempt(x, reason).w, bar)
  {
    hide TraceOf, TraceThen;
    var a := AfterExitAttempt(x, reason);
    assert a.w == x.(exitsReason := None) || a.w == x.(exitsReason := Some(reason));
  }

  lemma ExitsWithoutCheckActed(c: Config, w: World, i: TickIn, bar: int)
    requires Ties(c, w)
    ensures Acted(c, w, ExitsWithoutCheck(c, w, i, bar).w, bar)
  {
    hide TraceOf, TraceThen, PriceExitOnce, TryExit;
    PriceExitOnceIs(c, w, i, bar);
    var ran := PriceExitOnce(c, w, i, bar);
    if ran.due.Some? { TryExitActed(c, ran.w, i, bar, ran.due.value); }
  }

  lemma ManageHeldActed(c: Config, w: World, i: TickIn, bar: int)
    requires Ties(c, w)
    ensures Acted(c, w, ManageHeld(c, w, i, bar).w, bar)
  {
    hide TraceOf, TraceThen, PriceExitOnce, TryExit;
    PriceExitOnceIs(c, w, i, bar);
    var ran := PriceExitOnce(c, w, i, bar);
    if ran.due.Some? { TryExitActed(c, ran.w, i, bar, ran.due.value); }
  }

  // ---- a position that is gone ----

  lemma ConfirmGoneSame(c: Config, w: World, found: Option<Found>)
    ensures SameTrace(c, w, ConfirmGone(w, found).w) && SameFields(w, ConfirmGone(w, found).w)
  {
    hide TraceOf, TraceThen;
    RunnerSafety.ConfirmGoneIs(w, found);
    hide ConfirmGone;
    Adds(c, w.history, Gone(if found.Some? then found.value.evidence else ByTwoReplies));
  }

  lemma BookExternalIs(c: Config, w: World, found: Option<Found>, i: TickIn)
    ensures var b := BookExternal(c, w, found, i);
            && b == w.(consecStops := b.consecStops, skipLeft := b.skipLeft, history := b.history)
            && b.history.Then? && b.history.past == w.history && b.history.last.Booked? && b.history.last.kind == ExternalClose
  {
    hide ExternalReason, Triggers;
  }

  lemma BookedMoved(c: Config, w: World, w1: World, e: Event)
    requires Ties(c, w) && e.Booked? && e.kind == ExternalClose && w1.history == Then(w.history, e)
    requires w1.codeFailed == w.codeFailed && w1.exitsBar == w.exitsBar && w1.exitsReason == w.exitsReason
    requires w1.pendingFlip == w.pendingFlip && w1.entryPrice.None?
    requires w1.paused || (w1.paused == w.paused && w1.entryTime == w.entryTime)
    ensures Moved(c, w, w1)
  {
    hide TraceOf, TraceThen;
    Adds(c, w.history, e);
  }

  lemma BookExternalTied(c: Config, w: World, found: Option<Found>, i: TickIn)
    requires Ties(c, w)
    ensures var b := BookExternal(c, w, found, i);
            && Moved(c, w, Forget(b)) && Moved(c, w, Forget(b).(entryTime := None, paused := true))
  {
    hide TraceOf, TraceThen, BookExternal, Ties, Moved, Forget;
    BookExternalIs(c, w, found, i);
    var b := BookExternal(c, w, found, i);
    ForgetFields(b);
    BookedMoved(c, w, Forget(b), b.history.last);
    BookedMoved(c, w, Forget(b).(entryTime := None, paused := true), b.history.last);
  }

  lemma ForgetFields(w: World)
    ensures var f := Forget(w);
            && f.entryPrice.None? && f.history == w.history && f.codeFailed == w.codeFailed && f.paused == w.paused
            && f.entryTime == w.entryTime && f.pendingFlip == w.pendingFlip
            && f.exitsBar == w.exitsBar && f.exitsReason == w.exitsReason
  {
  }

  lemma DetectExternalCloseMoved(c: Config, w: World, found: Option<Found>, i: TickIn)
    requires Ties(c, w)
    ensures var a := DetectExternalClose(c, w, found, i);
            if a.yes then Moved(c, w, a.w) else Moved(c, w, Forget(a.w)) && a.w.paused == w.paused
  {
    hide TraceOf, TraceThen, BookExternal, Moved;
    BookExternalTied(c, w, found, i);
    BookExternalPaused(c, w, found, i);
  }

  lemma BookExternalPaused(c: Config, w: World, found: Option<Found>, i: TickIn)
    ensures BookExternal(c, w, found, i).paused == w.paused
  {
  }

  lemma SameMoved(c: Config, w: World, w1: World)
    requires Ties(c, w) && SameTrace(c, w, w1) && SameFields(w, w1)
    ensures Moved(c, w, w1)
  {
    hide TraceOf, TraceThen;
  }

  lemma MovedTwice(c: Config, a: World, b: World, d: World)
    requires Moved(c, a, b) && Moved(c, b, d)
    ensures Moved(c, a, d)
  {
    hide TraceOf, TraceThen, Ties;
  }

  lemma MovedActed(c: Config, a: World, b: World, d: World, bar: int)
    requires Moved(c, a, b)
    ensures Acted(c, a, b, bar) && (Acted(c, b, d, bar) ==> Acted(c, a, d, bar))
  {
    hide TraceOf, TraceThen, Ties;
  }

  // ---- managing without signals ----

  /** The marks of a problem and of the bar do not matter to it. */
  lemma MarkActed(c: Config, w: World, w1: World, w2: World, bar: int)
    requires Acted(c, w, w1, bar)
    requires w2 == w1.(lastBar := w2.lastBar, problem := w2.problem, problemBar := w2.problemBar, raised := w2.raised,
                       missing := w2.missing)
    ensures Acted(c, w, w2, bar)
  {
    hide TraceOf, TraceThen;
  }

  lemma ManageTrackedMissingMoved(c: Config, w: World, i: TickIn, bar: int)
    requires Ties(c, w)
    ensures Acted(c, w, ManageTrackedMissing(c, w, i, bar).w, bar)
  {
    hide TraceOf, TraceThen, FindFill, ConfirmGone, DetectExternalClose, Moved, Acted, Ties, SameFields, Forget;
    var found := FindFill(c, w, i);
    var gone := ConfirmGone(w, found);
    ConfirmGoneSame(c, w, found);
    SameMoved(c, w, gone.w);
    MovedActed(c, w, gone.w, gone.w, bar);
    MarkActed(c, w, gone.w, Problem(gone.w, bar), bar);
    MovedTies(c, w, gone.w);
    DetectExternalCloseMoved(c, gone.w, found, i);
    var booked := DetectExternalClose(c, gone.w, found, i);
    var w1 := if booked.yes then booked.w else Forget(booked.w);
    MovedTwice(c, w, gone.w, w1);
    MovedActed(c, w, w1, w1, bar);
  }

  lemma MovedTies(c: Config, w: World, w1: World)
    requires Moved(c, w, w1)
    ensures Ties(c, w1)
  {
    hide TraceOf, TraceThen;
  }

  lemma ManageUntrackedActed(c: Config, w: World, bar: int)
    requires Acted(c, w, w, bar)
    ensures Acted(c, w, ManageUntracked(w, bar).w, bar)
  {
    hide Acted, ManageUntracked;
    RunnerSafety.UntrackedIs(w, bar);
    MarkActed(c, w, w, Problem(w, bar), bar);
    MarkActed(c, w, w, w.(missing := 0), bar);
    MarkActed(c, w, w, Problem(w.(missing := w.missing + 1), bar), bar);
  }

  lemma ManageSeenActed(c: Config, s: Sighting, i: TickIn, bar: int)
    requires Ties(c, s.w)
    ensures Acted(c, s.w, ManageSeen(c, s, i, bar).w, bar)
  {
    hide TraceOf, TraceThen, ManageTrackedMissing, ManageUntracked, ManageHeld, ExitsWithoutCheck;
    SameMoved(c, s.w, s.w);
    MovedActed(c, s.w, s.w, s.w, bar);
    match s.check
    case CheckFailed => ExitsWithoutCheckActed(c, Problem(s.w, bar), i, bar);
    case Missing =>
      ManageTrackedMissingMoved(c, s.w, i, bar);
      ManageUntrackedActed(c, s.w, bar);
    case Listed(_) => ManageHeldActed(c, s.w, i, bar);
  }

  lemma ManageActed(c: Config, w: World, i: TickIn, bar: int, regime: bool)
    requires Ties(c, w) && !w.paused
    ensures Acted(c, w, Manage(c, w, i, bar, regime).w, bar)
  {
    hide TraceOf, TraceThen, Manage, BrokerPosition, ManageSeen;
    RunnerBars.ManageIs(c, w, i, bar, regime);
    var w0 := w.(problem := false, problemBar := None);
    BrokerPositionLooked(c, w0, regime, i);
    var s := BrokerPosition(c, w0, regime, i);
    ManageSeenActed(c, s, i, bar);
    MovedActed(c, w0, s.w, ManageSeen(c, s, i, bar).w, bar);
  }

  // ---- a bot whose code failed ----

  lemma PauseActed(c: Config, w: World, m: World, bar: int)
    requires Acted(c, w, m, bar)
    ensures Acted(c, w, PauseForCode(m), bar)
  {
    hide TraceOf, TraceThen;
    Adds(c, m.history, PausedForCode);
  }

  lemma SettleActed(c: Config, w: World, m: Answer, bar: int)
    requires Acted(c, w, m.w, bar)
    ensures Acted(c, w, Settle(m, bar), bar)
  {
    hide TraceOf, TraceThen, MarkExitsRan, PauseForCode, Acted;
    PauseActed(c, w, m.w, bar);
    RunnerSafety.MarkExitsRanIs(m.w, bar);
    MarkActed(c, w, m.w, MarkExitsRan(m.w, bar), bar);
    var done := if m.yes then PauseForCode(m.w) else MarkExitsRan(m.w, bar);
    MarkActed(c, w, done, done.(raised := done.problem, problem := false), bar);
  }

  lemma ManageAfterFailureActed(c: Config, w: World, i: TickIn, bar: int, regime: bool)
    requires Ties(c, w) && !w.paused
    ensures Acted(c, w, ManageAfterFailure(c, w, i, bar, regime), bar)
  {
    hide TraceOf, TraceThen, Manage, Settle;
    ManageActed(c, w, i, bar, regime);
    SettleActed(c, w, Manage(c, w, i, bar, regime), bar);
  }

  /** A tick that sends a signal exit sends the one kept for its bar. */
  predicate TickActed(c: Config, w: World, w1: World, i: TickIn) {
    var t, t1 := TraceOf(c, w.history), TraceOf(c, w1.history);
    && Ties(c, w1) && t1.empty == t.empty
    && (t1.signals == t.signals
        || (t1.signals == t.signals + 1 && i.fetch.Some? && w.exitsBar == i.fetch && w.exitsReason == Some(Signal)))
  }

  lemma CodeTickActed(c: Config, w: World, i: TickIn)
    requires Ties(c, w) && !w.paused
    ensures TickActed(c, w, CodeTick(c, w, i), i) && CodeTick(c, w, i).codeFailed == w.codeFailed
  {
    hide TraceOf, TraceThen, ManageAfterFailure;
    if i.fetch.Some? {
      ManageAfterFailureActed(c, w, i, i.fetch.value, if i.planLost then c.bidirectional else c.isRegime);
    }
  }

  lemma EnterCodeFailureMoved(c: Config, w: World)
    requires Ties(c, w) && !w.codeFailed
    ensures var f := EnterCodeFailure(w);
            && Ties(c, f) && TraceOf(c, f.history).empty == TraceOf(c, w.history).empty
            && TraceOf(c, f.history).signals == TraceOf(c, w.history).signals
            && f.codeFailed && f.paused == w.paused && f.exitsBar == w.exitsBar && f.exitsReason == w.exitsReason
  {
    hide TraceOf, TraceThen;
    Adds(c, w.history, EnterCodeFailure(w).history.last);
  }

  // ---- the main path ----

  /** A step that cleans up a flip with nothing tracked when cleans says so. */
  predicate Worked(c: Config, w: World, w1: World, cleans: bool) {
    var t, t1 := TraceOf(c, w.history), TraceOf(c, w1.history);
    Ties(c, w1) && w1.codeFailed == w.codeFailed && t1.empty == t.empty + if cleans then 1 else 0
  }

  lemma MovedWorked(c: Config, a: World, b: World, d: World, cleans: bool)
    requires Moved(c, a, b)
    ensures Worked(c, b, d, cleans) ==> Worked(c, a, d, cleans)
    ensures Worked(c, a, b, false)
  {
    hide TraceOf, TraceThen, Ties;
  }

  lemma ActedWorked(c: Config, a: World, b: World, bar: int)
    requires Acted(c, a, b, bar)
    ensures Worked(c, a, b, false)
  {
    hide TraceOf, TraceThen, Ties;
  }

  /** The marks do not matter to it. */
  lemma MarkWorked(c: Config, w: World, w1: World, w2: World, cleans: bool)
    requires Worked(c, w, w1, cleans)
    requires w2 == w1.(lastBar := w2.lastBar, raised := w2.raised, compiled := w2.compiled)
    ensures Worked(c, w, w2, cleans)
  {
    hide TraceOf, TraceThen;
  }

  lemma OpenMoved(c: Config, w: World, price: real, now: real, side: Side)
    requires Ties(c, w) && w.entryPrice.None?
    ensures Moved(c, w, Open(w, price, now, side))
  {
    hide TraceOf, TraceThen;
    Adds(c, w.history, Entered(side, now, w.missing, price));
  }

  lemma EnterMoved(c: Config, w: World, i: TickIn, side: Side)
    requires Ties(c, w) && w.entryPrice.None?
    ensures Moved(c, w, Enter(w, i, side))
  {
    hide TraceOf, TraceThen, Open;
    if i.entry.Filled? { OpenMoved(c, w, i.entry.price, i.now, side); }
  }

  lemma CandidateMoved(c: Config, w: World, e: Event)
    requires Ties(c, w) && (e == CandidateSkipped || e == CandidatePassed)
    ensures Moved(c, w, Log(w, e)) && Moved(c, w, Log(w.(skipLeft := w.skipLeft - 1), e))
  {
    hide TraceOf, TraceThen;
    Adds(c, w.history, e);
  }

  lemma ReverseEntryMoved(c: Config, w: World, i: TickIn, newDir: Option<Side>)
    requires Ties(c, w) && w.entryPrice.None?
    ensures Moved(c, w, ReverseEntry(c, w, i, newDir))
  {
    hide TraceOf, TraceThen, Enter, ReverseEntry, Moved, Ties;
    RunnerSafety.ReverseEntryIs(c, w, i, newDir);
    CandidateMoved(c, w, CandidateSkipped);
    CandidateMoved(c, w, CandidatePassed);
    SameMoved(c, w, w) by { assert SameTrace(c, w, w) && SameFields(w, w); }
    if newDir.Some? {
      MovedTies(c, w, Log(w, CandidatePassed));
      EnterMoved(c, Log(w, CandidatePassed), i, newDir.value);
      MovedTwice(c, w, Log(w, CandidatePassed), Enter(Log(w, CandidatePassed), i, newDir.value));
    }
  }

  lemma TryEntryMoved(c: Config, w: World, i: TickIn)
    requires Ties(c, w) && w.entryPrice.None?
    ensures Moved(c, w, TryEntry(c, w, i))
  {
    hide TraceOf, TraceThen, Enter, Moved, Ties, EntryAllowed, EntryDir;
    CandidateMoved(c, w, CandidateSkipped);
    CandidateMoved(c, w, CandidatePassed);
    SameMoved(c, w, w) by { assert SameTrace(c, w, w) && SameFields(w, w); }
    var side := EntryDir(c, i);
    if side.Some? {
      MovedTies(c, w, Log(w, CandidatePassed));
      EnterMoved(c, Log(w, CandidatePassed), i, side.value);
      MovedTwice(c, w, Log(w, CandidatePassed), Enter(Log(w, CandidatePassed), i, side.value));
    }
  }

  lemma CleanPendingFlipWorked(c: Config, w: World, i: TickIn, newDir: Option<Side>)
    requires Ties(c, w)
    ensures Worked(c, w, CleanPendingFlip(c, w, i, newDir), w.entryPrice.None?)
  {
    hide TraceOf, TraceThen, ReverseEntry;
    var e := FlipCleaned(w.entryPrice.Some?);
    Adds(c, w.history, e);
    ReverseEntryMoved(c, Log(Forget(w).(pendingFlip := false), e), i, newDir);
  }

  lemma FinishFlipWorked(c: Config, w: World, i: TickIn, qty: real, newDir: Option<Side>)
    requires Ties(c, w)
    ensures Worked(c, w, FinishFlip(c, w, i, qty, newDir), false)
  {
    hide TraceOf, TraceThen, ReverseEntry, Ties, Moved;
    var e := Booked(FlipClose, RegimeFlip, qty, i.exitFill);
    var booked := Forget(Log(w.(consecStops := 0), e)).(pendingFlip := false);
    FlipBookedTied(c, w, e);
    ReverseEntryMoved(c, booked, i, newDir);
    MovedWorked(c, booked, ReverseEntry(c, booked, i, newDir), ReverseEntry(c, booked, i, newDir), false);
    assert FinishFlip(c, w, i, qty, newDir) == ReverseEntry(c, booked, i, newDir);
  }

  lemma FlipBookedTied(c: Config, w: World, e: Event)
    requires Ties(c, w) && e.Booked? && e.kind == FlipClose
    ensures var booked := Forget(Log(w.(consecStops := 0), e)).(pendingFlip := false);
            && Ties(c, booked) && booked.codeFailed == w.codeFailed && booked.entryPrice.None?
            && TraceOf(c, booked.history).empty == TraceOf(c, w.history).empty
  {
    hide TraceOf, TraceThen;
    Adds(c, w.history, e);
  }

  lemma LeaveFlipWorked(c: Config, w: World)
    requires Ties(c, w) && w.entryPrice.Some?
    ensures Worked(c, w, LeaveFlip(w), false)
  {
    hide TraceOf, TraceThen;
    Adds(c, w.history, FlipLeft);
  }

  lemma HandleFlipWorked(c: Config, w: World, i: TickIn, bar: int, qty: real, newDir: Option<Side>)
    requires Ties(c, w) && w.entryPrice.Some?
    ensures Worked(c, w, HandleFlip(c, w, i, bar, qty, newDir), false)
  {
    hide TraceOf, TraceThen, PollAfter, FinishFlip, LeaveFlip;
    match i.close
    case Refused => LeaveFlipWorked(c, w);
    case Accepted(id) =>
      PollAfterSends(c, w, i, bar, RegimeFlip, w.dir, id);
      var sent := w.(pendingId := Some(id), pendingReason := Some(RegimeFlip),
                     history := PollAfter(c, w, i, bar, RegimeFlip, w.dir, id).h);
      LeaveFlipWorked(c, sent);
      FinishFlipWorked(c, sent, i, qty, newDir);
  }

  lemma NoPositionWorked(c: Config, w: World, i: TickIn, found: Option<Found>)
    requires Ties(c, w)
    ensures Worked(c, w, NoPosition(c, w, i, found), false)
  {
    hide TraceOf, TraceThen, DetectExternalClose, TryEntry, Moved, Ties, Forget;
    var a := DetectExternalClose(c, w, found, i);
    var flat := Forget(if w.entryPrice.Some? then a.w else w);
    if w.entryPrice.Some? { DetectExternalCloseMoved(c, w, found, i); } else { ForgetMoved(c, w); }
    if w.entryPrice.Some? && a.yes {
      MovedWorked(c, w, a.w, a.w, false);
    } else {
      MovedTies(c, w, flat);
      ForgetIsFlat(if w.entryPrice.Some? then a.w else w);
      TryEntryMoved(c, flat, i);
      MovedTwice(c, w, flat, TryEntry(c, flat, i));
      MovedWorked(c, w, TryEntry(c, flat, i), flat, false);
    }
  }

  lemma ForgetMoved(c: Config, w: World)
    requires Ties(c, w) && w.entryPrice.None?
    ensures Moved(c, w, Forget(w))
  {
    hide TraceOf, TraceThen;
  }

  lemma ForgetIsFlat(w: World)
    ensures Forget(w).entryPrice.None?
  {
  }

  /** The state from which a missing position makes a cleanup of nothing. */
  predicate FlatWithFlip(c: Config, w: World) {
    c.isRegime && w.pendingFlip && w.entryPrice.None?
  }

  lemma ActFlatWorked(c: Config, w: World, i: TickIn, found: Option<Found>)
    requires Ties(c, w)
    ensures Worked(c, w, ActFlat(c, w, i, found), FlatWithFlip(c, w))
  {
    hide TraceOf, TraceThen, CleanPendingFlip, NoPosition, EntryDir, Worked, Ties;
    CleanPendingFlipWorked(c, w, i, EntryDir(c, i));
    NoPositionWorked(c, w, i, found);
  }

  lemma ActMissingWorked(c: Config, w: World, i: TickIn, prev: Option<int>)
    requires Ties(c, w)
    ensures Worked(c, w, ActMissing(c, w, i, prev), FlatWithFlip(c, w))
  {
    hide TraceOf, TraceThen, ActFlat, FindFill, ConfirmGone, Worked, Ties, Moved;
    if w.entryPrice.None? {
      ActFlatWorked(c, w, i, None);
    } else {
      var found := FindFill(c, w, i);
      var gone := ConfirmGone(w, found);
      ConfirmGoneSame(c, w, found);
      SameMoved(c, w, gone.w);
      MovedTies(c, w, gone.w);
      MovedWorked(c, w, gone.w, gone.w, false);
      MarkWorked(c, w, gone.w, gone.w.(lastBar := prev, raised := true), false);
      ActFlatWorked(c, gone.w, i, found);
      MovedWorked(c, w, gone.w, ActFlat(c, gone.w, i, found), false);
    }
  }

  lemma ExitDueIs(c: Config, w: World, i: TickIn, bar: int)
    ensures var ran := ExitDue(c, w, i, bar); SameTrace(c, w, ran.w) && SameFields(w, ran.w)
  {
    hide TraceOf, TraceThen, Evaluate;
    EvaluateSame(c, w, i, bar);
  }

  lemma HeldExitsWorked(c: Config, w: World, i: TickIn, bar: int, prev: Option<int>)
    requires Ties(c, w) && !w.codeFailed
    ensures Worked(c, w, HeldExits(c, w, i, bar, prev), false)
  {
    hide TraceOf, TraceThen, ExitDue, ExecuteExit;
    ExitDueIs(c, w, i, bar);
    var ran := ExitDue(c, w, i, bar);
    if ran.due.Some? { ExecuteExitAttempted(c, ran.w.(outcome := None), i, bar, ran.due.value); }
  }

  lemma ActHeldWorked(c: Config, w: World, i: TickIn, bar: int, prev: Option<int>, p: Position)
    requires Ties(c, w) && !w.codeFailed && w.entryPrice.Some?
    ensures Worked(c, w, ActHeld(c, w, i, bar, prev, p), false)
  {
    hide TraceOf, TraceThen, HandleFlip, HeldExits, EntryDir, Worked, Ties;
    HandleFlipWorked(c, w, i, bar, Abs(p.qty), EntryDir(c, i));
    HeldExitsWorked(c, w, i, bar, prev);
  }

  lemma ActUncheckedWorked(c: Config, w: World, i: TickIn, bar: int, prev: Option<int>)
    requires Ties(c, w)
    ensures Worked(c, w, ActUnchecked(c, w, i, bar, prev), false)
  {
    hide TraceOf, TraceThen, ExitsWithoutCheck, Worked, Ties, Acted;
    var ran := ExitsWithoutCheck(c, w, i, bar);
    ExitsWithoutCheckActed(c, w, i, bar);
    ActedWorked(c, w, ran.w, bar);
    MarkWorked(c, w, ran.w, ran.w.(lastBar := if ran.yes then ran.w.lastBar else prev, raised := true), false);
  }

  lemma ActWorked(c: Config, w: World, i: TickIn, bar: int, prev: Option<int>)
    requires Ties(c, w) && !w.codeFailed && !w.paused
    ensures Worked(c, w, Act(c, w, i, bar, prev),
                   ReadReply(i.check, c.symbol, CheckSide(c, w, c.isRegime)).Missing? && FlatWithFlip(c, w))
  {
    hide TraceOf, TraceThen, BrokerPosition, ActUnchecked, ActMissing, ActHeld, Ties, ReadReply, CheckSide;
    BrokerPositionLooked(c, w, c.isRegime, i);
    var s := BrokerPosition(c, w, c.isRegime, i);
    match s.check
    case CheckFailed => ActUncheckedWorked(c, s.w, i, bar, prev);
    case Missing => ActMissingWorked(c, s.w, i, prev);
    case Listed(p) => ActHeldWorked(c, s.w, i, bar, prev, p);
  }

  // ---- a whole tick ----

  /** Exactly when a tick cleans up a flip with nothing tracked. */
  predicate CleansNothing(c: Config, w: World, i: TickIn) {
    && FlatWithFlip(c, w) && !(c.graph && w.codeFailed) && i.inHours
    && (if c.graph then (w.compiled || i.compile.Compiles?) && !i.referenceDown && i.cook.Cooked? else !i.indicatorsFail)
    && i.fetch.Some? && w.lastBar != i.fetch
    && ReadReply(i.check, c.symbol, CheckSide(c, w, true)).Missing?
  }

  /** What a tick does: a signal exit is sent after the code failed only as the one kept for its bar. */
  predicate Ticked(c: Config, w: World, w1: World, i: TickIn, cleans: bool) {
    var t, t1 := TraceOf(c, w.history), TraceOf(c, w1.history);
    && Ties(c, w1) && t1.empty == t.empty + (if cleans then 1 else 0) && (w.codeFailed ==> w1.codeFailed)
    && (w1.codeFailed ==> t1.signals == t.signals
                          || (t1.signals == t.signals + 1 && i.fetch.Some? && w.exitsBar == i.fetch && w.exitsReason == Some(Signal)))
  }

  lemma WorkedTicked(c: Config, w: World, w1: World, i: TickIn, cleans: bool)
    requires Worked(c, w, w1, cleans) && !w.codeFailed
    ensures Ticked(c, w, w1, i, cleans)
  {
    hide TraceOf, TraceThen, Ties;
  }

  lemma FailedTicked(c: Config, w: World, f: World, w1: World, i: TickIn)
    requires TraceOf(c, f.history).empty == TraceOf(c, w.history).empty && TraceOf(c, f.history).signals == TraceOf(c, w.history).signals
    requires f.exitsBar == w.exitsBar && f.exitsReason == w.exitsReason
    requires TickActed(c, f, w1, i) && w1.codeFailed
    ensures Ticked(c, w, w1, i, false)
  {
    hide TraceOf, TraceThen, Ties;
  }

  lemma ActedTick(c: Config, w: World, w1: World, i: TickIn)
    requires i.fetch.Some? && Acted(c, w, w1, i.fetch.value)
    ensures TickActed(c, w, w1, i) && w1.codeFailed == w.codeFailed
  {
    hide TraceOf, TraceThen, Ties;
  }

  lemma CookFailedTicked(c: Config, w: World, i: TickIn, bar: int)
    requires Ties(c, w) && !w.codeFailed && !w.paused && c.graph && i.fetch == Some(bar)
    ensures Ticked(c, w, ManageAfterFailure(c, EnterCodeFailure(w), i, bar, c.isRegime), i, false)
  {
    hide TraceOf, TraceThen, ManageAfterFailure, EnterCodeFailure, Ties, Acted, TickActed, Ticked;
    EnterCodeFailureMoved(c, w);
    var f := EnterCodeFailure(w);
    ManageAfterFailureActed(c, f, i, bar, c.isRegime);
    ActedTick(c, f, ManageAfterFailure(c, f, i, bar, c.isRegime), i);
    FailedTicked(c, w, f, ManageAfterFailure(c, f, i, bar, c.isRegime), i);
  }

  lemma CookedTicked(c: Config, w: World, i: TickIn, bar: int)
    requires Ties(c, w) && !w.codeFailed && !w.paused
    ensures Ticked(c, w, Act(c, w.(lastBar := Some(bar)), i, bar, w.lastBar), i,
                   FlatWithFlip(c, w) && ReadReply(i.check, c.symbol, CheckSide(c, w, true)).Missing?)
  {
    hide TraceOf, TraceThen, Act, Ties, Worked, Ticked, ReadReply;
    var marked := w.(lastBar := Some(bar));
    MarkedTies(c, w, marked);
    SameMoved(c, w, marked) by { assert SameTrace(c, w, marked) && SameFields(w, marked); }
    ActWorked(c, marked, i, bar, w.lastBar);
    var cleans := ReadReply(i.check, c.symbol, CheckSide(c, w, c.isRegime)).Missing? && FlatWithFlip(c, w);
    MovedWorked(c, w, marked, Act(c, marked, i, bar, w.lastBar), cleans);
    WorkedTicked(c, w, Act(c, marked, i, bar, w.lastBar), i, cleans);
  }

  lemma NewBarTicked(c: Config, w: World, i: TickIn, bar: int)
    requires Ties(c, w) && !w.codeFailed && !w.paused && i.fetch == Some(bar)
    ensures Ticked(c, w, NewBar(c, w, i, bar), i,
                   FlatWithFlip(c, w) && (if c.graph then i.cook.Cooked? else !i.indicatorsFail)
                   && ReadReply(i.check, c.symbol, CheckSide(c, w, true)).Missing?)
  {
    hide Act, ManageAfterFailure, EnterCodeFailure, Ties, Ticked, ReadReply, CheckSide, FlatWithFlip;
    CookedTicked(c, w, i, bar);
    MarkedTicked(c, w, w.(lastBar := Some(bar)), i);
    MarkedTicked(c, w, w.(raised := true), i);
    if c.graph { CookFailedTicked(c, w, i, bar); }
  }

  lemma MarkedTies(c: Config, w: World, w1: World)
    requires Ties(c, w)
    requires w1 == w.(lastBar := w1.lastBar, raised := w1.raised, compiled := w1.compiled, paused := w1.paused, problem := w1.problem,
                      exitsOnly := w1.exitsOnly)
    requires w.paused ==> w1.paused
    ensures Ties(c, w1)
  {
    hide TraceOf, TraceThen;
  }

  /** A step that changes nothing it looks at. */
  lemma MarkedTicked(c: Config, w: World, w1: World, i: TickIn)
    requires Ties(c, w)
    requires w1 == w.(lastBar := w1.lastBar, raised := w1.raised, compiled := w1.compiled, paused := w1.paused, problem := w1.problem)
    requires w.paused ==> w1.paused
    ensures Ticked(c, w, w1, i, false)
  {
    hide TraceOf, TraceThen;
  }

  /** Exactly when a bot that has nothing to compile does so. */
  predicate BarCleansNothing(c: Config, w: World, i: TickIn) {
    FlatWithFlip(c, w) && (if c.graph then !i.referenceDown && i.cook.Cooked? else !i.indicatorsFail)
    && i.fetch.Some? && w.lastBar != i.fetch && ReadReply(i.check, c.symbol, CheckSide(c, w, true)).Missing?
  }

  lemma BarsCases(c: Config, w: World, i: TickIn)
    ensures var w1 := Bars(c, w, i);
            if i.fetch.None? || w.lastBar == i.fetch then w1 == w
            else if c.graph && i.referenceDown then w1 == Manage(c, w, i, i.fetch.value, c.isRegime).w.(raised := true)
            else w1 == NewBar(c, w, i, i.fetch.value)
  {
    hide Manage, NewBar;
  }

  lemma OldBarCleansNothing(c: Config, w: World, i: TickIn)
    requires i.fetch.None? || w.lastBar == i.fetch || (c.graph && i.referenceDown)
    ensures !BarCleansNothing(c, w, i)
  {
    hide ReadReply, CheckSide;
  }

  lemma FreshBarTicked(c: Config, w: World, i: TickIn, bar: int)
    requires Ties(c, w) && !w.codeFailed && !w.paused && i.fetch == Some(bar)
    requires w.lastBar != i.fetch && !(c.graph && i.referenceDown)
    ensures Ticked(c, w, NewBar(c, w, i, bar), i, BarCleansNothing(c, w, i))
  {
    hide NewBar, Ticked, Ties, ReadReply, CheckSide;
    NewBarTicked(c, w, i, bar);
  }

  lemma ReferenceDownTicked(c: Config, w: World, i: TickIn, bar: int)
    requires Ties(c, w) && !w.codeFailed && !w.paused
    ensures Ticked(c, w, Manage(c, w, i, bar, c.isRegime).w.(raised := true), i, false)
  {
    hide Manage, Ticked, Ties, Worked, Acted;
    ManageActed(c, w, i, bar, c.isRegime);
    var m := Manage(c, w, i, bar, c.isRegime).w;
    ActedWorked(c, w, m, bar);
    MarkWorked(c, w, m, m.(raised := true), false);
    WorkedTicked(c, w, m.(raised := true), i, false);
  }

  lemma BarsTicked(c: Config, w: World, i: TickIn)
    requires Ties(c, w) && !w.codeFailed && !w.paused
    ensures Ticked(c, w, Bars(c, w, i), i, BarCleansNothing(c, w, i))
  {
    hide Manage, NewBar, Ties, Ticked, Bars, BarCleansNothing;
    BarsCases(c, w, i);
    if i.fetch.None? || w.lastBar == i.fetch {
      OldBarCleansNothing(c, w, i);
      MarkedTicked(c, w, w, i);
    } else if c.graph && i.referenceDown {
      OldBarCleansNothing(c, w, i);
      ReferenceDownTicked(c, w, i, i.fetch.value);
    } else {
      FreshBarTicked(c, w, i, i.fetch.value);
    }
  }

  /** Compiling first makes the bot one that has nothing to compile. */
  lemma WorkingCleans(c: Config, w: World, i: TickIn)
    requires !w.codeFailed
    ensures var cleans := CleansNothing(c, w, i.(inHours := true));
            && (!c.graph || w.compiled ==> cleans == BarCleansNothing(c, w, i))
            && (c.graph && !w.compiled && i.compile.Compiles? ==> cleans == BarCleansNothing(c, w.(compiled := true), i))
            && (c.graph && !w.compiled && !i.compile.Compiles? ==> !cleans)
  {
    hide ReadReply;
  }

  lemma RefusedTicked(c: Config, w: World, i: TickIn)
    requires Ties(c, w) && !w.codeFailed && !w.paused && c.graph
    ensures Ticked(c, w, CodeTick(c, EnterCodeFailure(w), i), i, false)
  {
    hide CodeTick, EnterCodeFailure, Ties, Ticked, TickActed, TraceOf, TraceThen;
    EnterCodeFailureMoved(c, w);
    CodeTickActed(c, EnterCodeFailure(w), i);
    FailedTicked(c, w, EnterCodeFailure(w), CodeTick(c, EnterCodeFailure(w), i), i);
  }

  lemma WorkingCases(c: Config, w: World, i: TickIn)
    ensures var w1 := Working(c, w, i);
            if !c.graph || w.compiled then w1 == Bars(c, w, i)
            else match i.compile
                 case Compiles => w1 == Bars(c, w.(compiled := true), i)
                 case CodeRefused => w1 == CodeTick(c, EnterCodeFailure(w), i)
                 case Broken => w1 == w.(paused := true)
                 case CompilerDown => w1 == w.(raised := true)
  {
    hide Bars, CodeTick, EnterCodeFailure;
  }

  lemma WorkingTicked(c: Config, w: World, i: TickIn)
    requires Ties(c, w) && !w.codeFailed && !w.paused
    ensures Ticked(c, w, Working(c, w, i), i, CleansNothing(c, w, i.(inHours := true)))
  {
    hide Bars, CodeTick, EnterCodeFailure, Ties, Ticked, CleansNothing, BarCleansNothing, Working;
    WorkingCleans(c, w, i);
    WorkingCases(c, w, i);
    if !c.graph || w.compiled {
      BarsTicked(c, w, i);
    } else {
      match i.compile
      case Compiles =>
        MarkedTies(c, w, w.(compiled := true));
        BarsTicked(c, w.(compiled := true), i);
        CompiledTicked(c, w, Bars(c, w.(compiled := true), i), i, CleansNothing(c, w, i.(inHours := true)));
      case CodeRefused => RefusedTicked(c, w, i);
      case Broken => MarkedTicked(c, w, w.(paused := true), i);
      case CompilerDown => MarkedTicked(c, w, w.(raised := true), i);
    }
  }

  lemma CompiledTicked(c: Config, w: World, w1: World, i: TickIn, cleans: bool)
    requires Ticked(c, w.(compiled := true), w1, i, cleans)
    ensures Ticked(c, w, w1, i, cleans)
  {
    hide TraceOf, TraceThen, Ties;
  }

  lemma BeginTies(c: Config, w: World)
    requires Ties(c, w)
    ensures Ties(c, Begin(w)) && SameTrace(c, w, Begin(w)) && SameFields(w, Begin(w))
  {
    hide TraceOf, TraceThen;
    Adds(c, w.history, TickBegan);
  }

  lemma BegunTicked(c: Config, w: World, w1: World, i: TickIn, cleans: bool)
    requires SameTrace(c, w, Begin(w)) && Ticked(c, Begin(w), w1, i, cleans)
    ensures Ticked(c, w, w1, i, cleans)
  {
    hide TraceOf, TraceThen, Ties;
  }

  lemma BeginFields(w: World)
    ensures var b := Begin(w);
            && b.codeFailed == w.codeFailed && b.entryPrice == w.entryPrice && b.pendingFlip == w.pendingFlip && b.dir == w.dir
            && b.lastBar == w.lastBar && b.compiled == w.compiled && b.paused == w.paused
  {
  }

  lemma TickIs(c: Config, w: World, i: TickIn)
    requires w.codeFailed ==> c.graph
    ensures var b, w1 := Begin(w), Tick(c, w, i);
            if w.codeFailed then w1 == CodeTick(c, b, i)
            else if !i.inHours && w.entryPrice.None? then w1 == b
            else w1 == Working(c, b, i)
  {
    hide Working, CodeTick, Begin;
    BeginFields(w);
  }

  lemma BeginSees(c: Config, w: World)
    ensures FlatWithFlip(c, Begin(w)) == FlatWithFlip(c, w) && CheckSide(c, Begin(w), true) == CheckSide(c, w, true)
  {
  }

  lemma BegunCleans(c: Config, w: World, i: TickIn)
    ensures CleansNothing(c, w, i)
       <==> !(c.graph && w.codeFailed) && (i.inHours || w.entryPrice.Some?) && CleansNothing(c, Begin(w), i.(inHours := true))
  {
    BeginSees(c, w);
    BeginFields(w);
    FlatIsFlat(c, w);
    hide ReadReply, Begin, FlatWithFlip, CheckSide;
  }

  lemma FlatIsFlat(c: Config, w: World)
    ensures FlatWithFlip(c, w) ==> w.entryPrice.None?
  {
  }

  /** One tick, from any state a run can be in. */
  lemma TickTicked(c: Config, w: World, i: TickIn)
    requires Ties(c, w) && !w.paused && (w.codeFailed ==> c.graph)
    ensures Ticked(c, w, Tick(c, w, i), i, CleansNothing(c, w, i))
  {
    hide TraceOf, TraceThen, Tick, Working, CodeTick, Ties, Ticked, TickActed, CleansNothing;
    BeginTies(c, w);
    TickIs(c, w, i);
    BegunCleans(c, w, i);
    var b := Begin(w);
    if b.codeFailed {
      CodeTickActed(c, b, i);
      FailedTicked(c, b, b, CodeTick(c, b, i), i);
    } else {
      MarkedTicked(c, b, b, i);
      WorkingTicked(c, b, i);
    }
    BegunTicked(c, w, Tick(c, w, i), i, CleansNothing(c, w, i));
  }

  // ---- whole runs ----

  lemma InitTies(c: Config, s: Saved)
    ensures Ties(c, Init(c, s)) && !Init(c, s).paused && (Init(c, s).codeFailed ==> c.graph)
  {
  }

  lemma NextTicked(c: Config, w: World, s: Step)
    requires Ties(c, w) && (w.codeFailed ==> c.graph)
    ensures Ties(c, Next(c, w, s))
    ensures TraceOf(c, Next(c, w, s).history).empty
         == TraceOf(c, w.history).empty + if !w.paused && s.Ticks? && CleansNothing(c, w, s.input) then 1 else 0
  {
    hide TraceOf, TraceThen, Tick, Ties, CleansNothing;
    match s
    case Ticks(i) => if !w.paused { TickTicked(c, w, i); }
    case GraphUpdate => MarkedTies(c, w, w.(compiled := false, exitsOnly := false));
  }

  /** Over every run the fields go with the history. */
  lemma {:induction false} EveryRunTies(c: Config, s: Saved, steps: seq<Step>)
    requires RunnerSafety.Loadable(c, s)
    ensures Ties(c, Run(c, Init(c, s), steps))
  {
    hide Ties, Next, Init, TraceOf, TraceThen;
    if steps == [] {
      InitTies(c, s);
    } else {
      EveryRunTies(c, s, steps[..|steps| - 1]);
      FailsOnlyGraphs(c, s, steps[..|steps| - 1]);
      NextTicked(c, Run(c, Init(c, s), steps[..|steps| - 1]), steps[|steps| - 1]);
    }
  }

  lemma FailsOnlyGraphs(c: Config, s: Saved, steps: seq<Step>)
    requires RunnerSafety.Loadable(c, s)
    ensures var w := Run(c, Init(c, s), steps); w.codeFailed ==> c.graph
  {
    RunnerSafety.EveryRunIsSafe(c, s, steps);
  }
}
