/** One close per bar and one count per bar, over all four paths of a tick (the main one, the
    reference down, the position check down, the code failed) and all their retries: the marks the
    runner keeps say which bars are closed on and counted, and every step of the tick keeps them
    right. */
module RunnerBars {
  import opened BotTypes
  import opened PriceExits
  import opened RunnerSpec
  import RunnerSafety

  // ---- reading a history ----

  /** The newest bar counted and the newest bar with an accepted close; rising: each one came
      after the one before it. */
  datatype Note = Note(counted: Option<int>, closed: Option<int>, rising: bool)

  predicate Before(a: Option<int>, bar: int) {
    a.Some? ==> a.value < bar
  }

  function AddTo(n: Note, e: Event): Note {
    match e
    case Evaluated(bar, _, _, _) => n.(counted := Some(bar), rising := n.rising && Before(n.counted, bar))
    case CloseAccepted(bar, _, _, _) => n.(closed := Some(bar), rising := n.rising && Before(n.closed, bar))
    case _ => n
  }

  function Tally(h: History): Note
    decreases h, 0
  {
    match h
    case Began(_) => Note(None, None, true)
    case Then(past, e) => TallyThen(past, e)
  }

  // Apart, so that the verifier opens only the events a proof is about.
  function TallyThen(past: History, e: Event): Note
    decreases past, 1
  {
    AddTo(Tally(past), e)
  }

  lemma Adds(h: History, e: Event)
    ensures Tally(Then(h, e)) == AddTo(Tally(h), e)
  {
    assert TallyThen(h, e) == AddTo(Tally(h), e);
  }

  // ---- how the runner's marks go with it ----

  /** The runner's marks rule out a second close on bar. */
  predicate CloseDone(w: World, bar: int) {
    if w.codeFailed then w.exitsBar == Some(bar) && w.exitsReason.None? else w.lastBar == Some(bar)
  }

  /** The runner's marks rule out counting bar again. */
  predicate CountDone(w: World, bar: int) {
    w.exitsBar == Some(bar) || (!w.codeFailed && w.lastBar == Some(bar))
  }

  /** All bars so far are at most lo, and those at lo are marked. */
  predicate Marked(c: Config, w: World, lo: int) {
    var n := Tally(w.history);
    && n.rising
    && (n.closed.Some? ==> n.closed.value <= lo && (n.closed.value == lo ==> CloseDone(w, lo)))
    && (n.counted.Some? ==> n.counted.value <= lo && (n.counted.value == lo ==> CountDone(w, lo)))
    && (c.graph && !w.codeFailed && !w.compiled ==> Before(n.closed, lo) && Before(n.counted, lo))
    && (w.codeFailed ==> c.graph)
  }

  /** Only a graph bot's code fails, and a graph bot works on bars only once it is compiled. */
  predicate Works(c: Config, w: World) {
    if w.codeFailed then c.graph else c.graph ==> w.compiled
  }

  /** No close on bar yet. */
  predicate Closable(w: World, bar: int) {
    Tally(w.history).rising && Before(Tally(w.history).closed, bar)
  }

  /** bar may get a close, and is counted only if its exits ran. */
  predicate Open(w: World, bar: int) {
    var n := Tally(w.history);
    && n.rising && Before(n.closed, bar)
    && (n.counted.Some? ==> n.counted.value <= bar && (n.counted.value == bar ==> w.exitsBar == Some(bar)))
  }

  /** A step with neither a count nor a close, that leaves the marks alone. */
  predicate SameBars(w: World, w1: World) {
    && Tally(w1.history) == Tally(w.history)
    && w1.lastBar == w.lastBar && w1.exitsBar == w.exitsBar && w1.exitsReason == w.exitsReason
    && w1.codeFailed == w.codeFailed && w1.compiled == w.compiled
  }

  lemma ResumeSame(c: Config, w: World, p: Position, regime: bool, i: TickIn)
    ensures SameBars(w, Resume(c, w, p, regime, i))
  {
    hide Tally, TallyThen;
    Adds(w.history, Resume(c, w, p, regime, i).history.last);
  }

  lemma NoteReplySame(c: Config, w: World, check: Check, regime: bool, i: TickIn)
    ensures SameBars(w, NoteReply(c, w, check, regime, i))
  {
    hide Tally, TallyThen, Resume, NoteReply, NoPositions;
    if check.Listed? {
      assert check == Listed(check.p);
      RunnerSafety.NoteReplyIs(c, w, check.p, regime, i);
      ResumeSame(c, w.(lastEmpty := NoPositions(i.check)), check.p, regime, i);
    } else {
      NotListedSame(c, w, check, regime, i);
    }
  }

  lemma NotListedSame(c: Config, w: World, check: Check, regime: bool, i: TickIn)
    requires !check.Listed?
    ensures SameBars(w, NoteReply(c, w, check, regime, i))
  {
    hide Tally, TallyThen;
  }

  lemma BrokerPositionSame(c: Config, w: World, regime: bool, i: TickIn)
    ensures SameBars(w, BrokerPosition(c, w, regime, i).w)
  {
    hide Tally, TallyThen, ReadReply, CheckSide, NoteReply;
    var check := ReadReply(i.check, c.symbol, CheckSide(c, w, regime));
    var e := Checked(i.check, CheckSide(c, w, regime));
    Adds(w.history, e);
    NoteReplySame(c, Log(if check.Listed? then w.(missing := 0) else w, e), check, regime, i);
  }

  lemma ConfirmGoneSame(w: World, found: Option<Found>)
    ensures SameBars(w, ConfirmGone(w, found).w)
  {
    hide Tally, TallyThen;
    GoneSame(w, ByTwoReplies);
    if found.Some? {
      GoneSame(w, found.value.evidence);
      assert ConfirmGone(w, found).w == Log(w.(missing := 0), Gone(found.value.evidence));
    }
  }

  lemma GoneSame(w: World, ev: Evidence)
    ensures SameBars(w, Log(w.(missing := 0), Gone(ev)))
  {
    hide Tally, TallyThen;
    Adds(w.history, Gone(ev));
  }

  lemma BookExternalSame(c: Config, w: World, found: Option<Found>, i: TickIn)
    ensures SameBars(w, BookExternal(c, w, found, i))
  {
    hide Tally, TallyThen, ExternalReason;
    Adds(w.history, BookExternal(c, w, found, i).history.last);
  }

  lemma AfterExternalCloseSame(c: Config, w: World, found: Option<Found>, i: TickIn)
    ensures SameBars(w, DetectExternalClose(c, w, found, i).w)
  {
    hide Tally, TallyThen, BookExternal;
    BookExternalSame(c, w, found, i);
  }

  lemma EnterSame(w: World, i: TickIn, side: Side)
    ensures SameBars(w, Enter(w, i, side))
  {
    hide Tally, TallyThen;
    Adds(w.history, Entered(side, i.now, w.missing, if i.entry.Filled? then i.entry.price else 0.0));
  }

  lemma CandidateSame(w: World, e: Event)
    requires e == CandidateSkipped || e == CandidatePassed
    ensures SameBars(w, Log(w, e)) && SameBars(w, Log(w.(skipLeft := w.skipLeft - 1), e))
  {
    hide Tally, TallyThen;
    Adds(w.history, e);
  }

  lemma ReverseEntrySame(c: Config, w: World, i: TickIn, newDir: Option<Side>)
    ensures SameBars(w, ReverseEntry(c, w, i, newDir))
  {
    hide Tally, TallyThen, Enter, ReverseEntry, Log;
    RunnerSafety.ReverseEntryIs(c, w, i, newDir);
    CandidateSame(w, CandidateSkipped);
    CandidateSame(w, CandidatePassed);
    if newDir.Some? { EnterSame(Log(w, CandidatePassed), i, newDir.value); }
  }

  lemma TryEntrySame(c: Config, w: World, i: TickIn)
    ensures SameBars(w, TryEntry(c, w, i))
  {
    hide Tally, TallyThen, EnterIfClear, TryEntry, Log;
    RunnerSafety.TryEntryIs(c, w, i);
    CandidateSame(w, CandidateSkipped);
    CandidateSame(w, CandidatePassed);
    if EntryDir(c, i).Some? { EnterIfClearSame(c, Log(w, CandidatePassed), i, EntryDir(c, i).value); }
  }

  lemma EnterIfClearSame(c: Config, w: World, i: TickIn, side: Side)
    ensures SameBars(w, EnterIfClear(c, w, i, side))
  {
    hide Tally, TallyThen, Enter, EntryAllowed;
    EnterSame(w, i, side);
  }

  // ---- counting and closing ----

  lemma EvaluateOpen(c: Config, w: World, i: TickIn, bar: int)
    requires Open(w, bar) && w.exitsBar != Some(bar)
    ensures var w1 := Evaluate(c, w, i, bar).w;
            && Tally(w1.history) == Tally(w.history).(counted := Some(bar))
            && w1.lastBar == w.lastBar && w1.exitsBar == w.exitsBar && w1.exitsReason == w.exitsReason
            && w1.codeFailed == w.codeFailed && w1.compiled == w.compiled && w1.entryPrice == w.entryPrice
  {
    hide Tally, TallyThen, Advance, Due, Resolve;
    var w1 := Evaluate(c, w, i, bar).w;
    Adds(w.history, w1.history.last);
  }

  lemma PriceExitOnceOpen(c: Config, w: World, i: TickIn, bar: int)
    requires Open(w, bar)
    ensures var w1 := PriceExitOnce(c, w, i, bar).w;
            && Open(w1, bar) && w1.exitsBar == Some(bar)
            && w1.lastBar == w.lastBar && w1.codeFailed == w.codeFailed && w1.compiled == w.compiled
            && w1.entryPrice == w.entryPrice
  {
    hide Tally, TallyThen, Evaluate;
    if w.exitsBar != Some(bar) { EvaluateOpen(c, w, i, bar); }
  }

  lemma {:induction false} PollSame(c: Config, h: History, side: Option<Side>, post: seq<Reply>, k: nat)
    requires k <= POLLS
    ensures Tally(Poll(c, h, side, post, k).h) == Tally(h)
    decreases POLLS - k
  {
    hide Tally, TallyThen;
    if k < POLLS {
      var e := PolledAfterClose(if k < |post| then post[k] else Unavailable, side);
      Adds(h, e);
      PollSame(c, Then(h, e), side, post, k + 1);
    }
  }

  /** After an exit attempt: a close on bar went out and is marked so, or bar is still open. */
  predicate Attempted(w: World, w1: World, bar: int) {
    var n := Tally(w.history);
    var n1 := Tally(w1.history);
    && w1.lastBar == w.lastBar && w1.exitsBar == w.exitsBar && w1.codeFailed == w.codeFailed
    && w1.compiled == w.compiled
    && (n1 == n || (n1 == n.(closed := Some(bar)) && (w1.entryPrice.None? || w1.outcome == Some(Sent))))
  }

  lemma PollAfterCloses(c: Config, w: World, i: TickIn, bar: int, reason: Reason, side: Option<Side>, id: int)
    requires Closable(w, bar)
    ensures Tally(PollAfter(c, w, i, bar, reason, side, id).h) == Tally(w.history).(closed := Some(bar))
  {
    hide Tally, TallyThen;
    var e := CloseAccepted(bar, reason, side, id);
    Adds(w.history, e);
    PollSame(c, Then(w.history, e), side, i.post, 0);
  }

  lemma FinishExitSame(c: Config, w: World, i: TickIn, reason: Reason, qty: real)
    ensures var w1 := FinishExit(c, w, i, reason, qty); SameBars(w, w1) && w1.entryPrice.None?
  {
    hide Tally, TallyThen;
    Adds(w.history, Booked(OwnClose, reason, qty, i.exitFill));
    var b := BookExit(c, w, OwnClose, reason, qty, i.exitFill);
    assert FinishExit(c, w, i, reason, qty)
        == Forget(b).(entryTime := None, outcome := Some(Closed), paused := b.paused || i.drawdown);
  }

  lemma CloseAndBookOnce(c: Config, w: World, i: TickIn, bar: int, reason: Reason, qty: real)
    requires Closable(w, bar)
    ensures Attempted(w, CloseAndBook(c, w, i, bar, reason, qty), bar)
  {
    hide Tally, TallyThen, PollAfter, TrackedSide, FinishExit;
    var w1 := CloseAndBook(c, w, i, bar, reason, qty);
    if i.close.Refused? {
      Adds(w.history, CloseRefused);
      assert w1 == Log(w.(outcome := Some(CloseFailed)), CloseRefused);
    } else {
      var id := i.close.id;
      PollAfterCloses(c, w, i, bar, reason, Some(TrackedSide(c, w)), id);
      var polled := PollAfter(c, w, i, bar, reason, Some(TrackedSide(c, w)), id);
      var sent := w.(outcome := Some(Sent), pendingId := Some(id), pendingReason := Some(reason),
                     history := polled.h);
      if polled.result == Cleared {
        FinishExitSame(c, sent, i, reason, qty);
        assert w1 == FinishExit(c, sent, i, reason, qty);
      } else {
        assert w1 == sent;
      }
    }
  }

  lemma ExitSeenOnce(c: Config, w: World, check: Check, i: TickIn, bar: int, reason: Reason)
    requires Closable(w, bar)
    ensures Attempted(w, ExitSeen(c, w, check, i, bar, reason), bar)
  {
    hide Tally, TallyThen, CloseAndBook, TrackedSide;
    Adds(w.history, SideCleared);
    if check.Listed? { CloseAndBookOnce(c, w, i, bar, reason, Abs(check.p.qty)); }
  }

  lemma ExecuteExitOnce(c: Config, w: World, i: TickIn, bar: int, reason: Reason)
    requires Closable(w, bar)
    ensures Attempted(w, ExecuteExit(c, w, i, bar, reason), bar)
  {
    hide Tally, TallyThen, ExitSeen, TrackedSide, ReadReply;
    var e := AskedAtExit(i.verify, TrackedSide(c, w), reason, bar);
    Adds(w.history, e);
    ExitSeenOnce(c, Log(w, e), ReadReply(i.verify, c.symbol, None), i, bar, reason);
  }

  /** TryExit: when it says the bar is not done, no close went out on it. */
  predicate Tried(w: World, a: Answer, bar: int) {
    && a.w.lastBar == w.lastBar && a.w.exitsBar == w.exitsBar && a.w.codeFailed == w.codeFailed
    && a.w.compiled == w.compiled
    && (if a.yes then a.w.exitsReason.None? else Tally(a.w.history) == Tally(w.history))
    && (Tally(a.w.history) == Tally(w.history) || Tally(a.w.history) == Tally(w.history).(closed := Some(bar)))
  }

  lemma AfterExitAttemptOnce(w: World, x: World, bar: int, reason: Reason)
    requires Attempted(w, x, bar)
    ensures Tried(w, AfterExitAttempt(x, reason), bar)
  {
    hide Tally, TallyThen;
    var done := x.entryPrice.None? || x.outcome == Some(Sent) || x.outcome == Some(CloseFailed);
    var a := Answer(x.(exitsReason := if done then None else Some(reason)), done);
    assert Tried(w, a, bar);
    assert AfterExitAttempt(x, reason) == a;
  }

  lemma TryExitOnce(c: Config, w: World, i: TickIn, bar: int, reason: Reason)
    requires Closable(w, bar)
    ensures Tried(w, TryExit(c, w, i, bar, reason), bar)
  {
    hide Tally, TallyThen, ExecuteExit, AfterExitAttempt;
    var w0 := w.(outcome := None);
    ExecuteExitOnce(c, w0, i, bar, reason);
    AfterExitAttemptOnce(w0, ExecuteExit(c, w0, i, bar, reason), bar, reason);
  }

  /** The price exits of an open bar: yes, and the bar is marked done for closes (once lastBar is
      set to it, or at once for a bot whose code failed); no, and it has no close. */
  predicate Exited(w: World, a: Answer, bar: int) {
    var n := Tally(a.w.history);
    && a.w.lastBar == w.lastBar && a.w.codeFailed == w.codeFailed && a.w.compiled == w.compiled
    && n.rising
    && (n.closed.Some? ==> n.closed.value <= bar)
    && (n.counted.Some? ==> n.counted.value <= bar && (n.counted.value == bar ==> a.w.exitsBar == Some(bar)))
    && (n.closed == Some(bar) ==> a.yes && a.w.exitsBar == Some(bar) && a.w.exitsReason.None?)
  }

  lemma ExitsWithoutCheckOnce(c: Config, w: World, i: TickIn, bar: int)
    requires Open(w, bar)
    ensures Exited(w, ExitsWithoutCheck(c, w, i, bar), bar)
  {
    hide Tally, TallyThen, PriceExitOnce, TryExit;
    if w.entryPrice.Some? {
      PriceExitOnceOpen(c, w, i, bar);
      var ran := PriceExitOnce(c, w, i, bar);
      if ran.due.Some? { TryExitOnce(c, ran.w, i, bar, ran.due.value); }
    }
  }

  // ---- managing without signals ----

  lemma MarkedWhenExited(c: Config, w: World, a: Answer, bar: int)
    requires Open(w, bar) && Exited(w, a, bar)
    requires Works(c, w)
    ensures a.yes ==> Marked(c, a.w.(lastBar := Some(bar)), bar)
    ensures !a.yes ==> Marked(c, a.w, bar) && Open(a.w, bar)
  {
    hide Tally, TallyThen;
  }

  lemma ManageHeldMarked(c: Config, w: World, i: TickIn, bar: int)
    requires Open(w, bar) && Works(c, w)
    ensures Marked(c, ManageHeld(c, w, i, bar).w, bar) && ManageHeld(c, w, i, bar).w.codeFailed == w.codeFailed
  {
    hide Tally, TallyThen, PriceExitOnce, TryExit;
    PriceExitOnceOpen(c, w, i, bar);
    var ran := PriceExitOnce(c, w, i, bar);
    var a := ManageHeld(c, w, i, bar);
    if ran.due.None? {
      assert a == Answer(ran.w, false);
    } else {
      TryExitOnce(c, ran.w, i, bar, ran.due.value);
      var t := TryExit(c, ran.w, i, bar, ran.due.value);
      MarkedWhenExited(c, w, t, bar);
      assert a.w == if t.yes then t.w.(lastBar := Some(bar)) else Problem(t.w, bar);
    }
  }

  lemma ManageUncheckedMarked(c: Config, w: World, i: TickIn, bar: int)
    requires Open(w, bar) && Works(c, w)
    ensures Marked(c, ManageUnchecked(c, w, i, bar).w, bar) && ManageUnchecked(c, w, i, bar).w.codeFailed == w.codeFailed
  {
    hide Tally, TallyThen, ExitsWithoutCheck;
    ExitsWithoutCheckOnce(c, Problem(w, bar), i, bar);
    var ran := ExitsWithoutCheck(c, Problem(w, bar), i, bar);
    MarkedWhenExited(c, w, ran, bar);
  }

  lemma ManageMissingSame(c: Config, w: World, i: TickIn, bar: int)
    ensures SameBars(w, ManageMissing(c, w, i, bar).w)
  {
    hide ManageTrackedMissing, ManageUntracked, SameBars;
    if w.entryPrice.Some? { TrackedMissingSame(c, w, i, bar); } else { UntrackedSame(w, bar); }
  }

  lemma UntrackedSame(w: World, bar: int)
    ensures SameBars(w, ManageUntracked(w, bar).w)
  {
    hide Tally, TallyThen;
  }

  lemma TrackedMissingSame(c: Config, w: World, i: TickIn, bar: int)
    ensures SameBars(w, ManageTrackedMissing(c, w, i, bar).w)
  {
    hide Tally, TallyThen, FindFill, ConfirmGone, DetectExternalClose;
    var found := FindFill(c, w, i);
    ConfirmGoneSame(w, found);
    AfterExternalCloseSame(c, ConfirmGone(w, found).w, found, i);
  }

  lemma ManageSeenMarked(c: Config, s: Sighting, i: TickIn, bar: int)
    requires Open(s.w, bar) && Works(c, s.w)
    ensures Marked(c, ManageSeen(c, s, i, bar).w, bar) && ManageSeen(c, s, i, bar).w.codeFailed == s.w.codeFailed
  {
    hide Tally, TallyThen, ManageUnchecked, ManageMissing, ManageHeld;
    match s.check
    case CheckFailed => ManageUncheckedMarked(c, s.w, i, bar);
    case Missing => ManageMissingSame(c, s.w, i, bar);
    case Listed(_) => ManageHeldMarked(c, s.w, i, bar);
  }

  lemma ManageIs(c: Config, w: World, i: TickIn, bar: int, regime: bool)
    ensures var a := Manage(c, w, i, bar, regime);
            || a == Answer(w.(problem := false), false)
            || a == ManageNow(c, w.(problem := false, problemBar := None), i, bar, regime)
  {
    hide ManageNow;
  }

  lemma ManageMarked(c: Config, w: World, i: TickIn, bar: int, regime: bool)
    requires Open(w, bar) && Works(c, w)
    ensures Marked(c, Manage(c, w, i, bar, regime).w, bar)
         && Manage(c, w, i, bar, regime).w.codeFailed == w.codeFailed
  {
    hide Tally, TallyThen, Manage, ManageNow;
    ManageIs(c, w, i, bar, regime);
    ManageNowMarked(c, w.(problem := false, problemBar := None), i, bar, regime);
  }

  lemma ManageNowMarked(c: Config, w: World, i: TickIn, bar: int, regime: bool)
    requires Open(w, bar) && Works(c, w)
    ensures Marked(c, ManageNow(c, w, i, bar, regime).w, bar)
         && ManageNow(c, w, i, bar, regime).w.codeFailed == w.codeFailed
  {
    hide Tally, TallyThen, BrokerPosition, ManageSeen;
    BrokerPositionSame(c, w, regime, i);
    ManageSeenMarked(c, BrokerPosition(c, w, regime, i), i, bar);
  }

  /** A bar whose exits ran and left nothing to send: managing it again counts and sends nothing. */
  predicate Ran(w: World, bar: int) {
    w.exitsBar == Some(bar) && w.exitsReason.None?
  }

  lemma UncheckedRanSame(c: Config, w: World, i: TickIn, bar: int)
    requires Ran(w, bar)
    ensures SameBars(w, ManageUnchecked(c, w, i, bar).w.(lastBar := w.lastBar))
  {
    hide Tally, TallyThen, Evaluate, TryExit;
  }

  lemma HeldRanSame(c: Config, w: World, i: TickIn, bar: int)
    requires Ran(w, bar)
    ensures SameBars(w, ManageHeld(c, w, i, bar).w.(lastBar := w.lastBar))
  {
    hide Tally, TallyThen, Evaluate, TryExit;
  }

  lemma ManageSeenRanSame(c: Config, s: Sighting, i: TickIn, bar: int)
    requires Ran(s.w, bar)
    ensures var w1 := ManageSeen(c, s, i, bar).w;
            SameBars(s.w, w1.(lastBar := s.w.lastBar))
  {
    hide Tally, TallyThen, ManageMissing, ManageUnchecked, ManageHeld;
    match s.check
    case CheckFailed => UncheckedRanSame(c, s.w, i, bar);
    case Missing => ManageMissingSame(c, s.w, i, bar);
    case Listed(_) => HeldRanSame(c, s.w, i, bar);
  }

  lemma ManageRanSame(c: Config, w: World, i: TickIn, bar: int, regime: bool)
    requires Ran(w, bar)
    ensures var w1 := Manage(c, w, i, bar, regime).w;
            SameBars(w, w1.(lastBar := w.lastBar))
  {
    hide Tally, TallyThen, Manage, BrokerPosition, ManageSeen;
    ManageIs(c, w, i, bar, regime);
    var w0 := w.(problem := false, problemBar := None);
    BrokerPositionSame(c, w0, regime, i);
    ManageSeenRanSame(c, BrokerPosition(c, w0, regime, i), i, bar);
  }

  // ---- a whole tick ----

  lemma MarkedLater(c: Config, w: World, lo: int, bar: int)
    requires Marked(c, w, lo) && lo <= bar
    ensures Marked(c, w, bar)
    ensures w.codeFailed && !Ran(w, bar) ==> Open(w, bar)
    ensures !w.codeFailed && w.lastBar != Some(bar) ==> Open(w, bar)
    ensures c.graph && !w.codeFailed && !w.compiled ==> Open(w, bar)
  {
    hide Tally, TallyThen;
  }

  lemma SettleMarked(c: Config, m: Answer, bar: int)
    requires Marked(c, m.w, bar) && m.w.codeFailed
    ensures Marked(c, Settle(m, bar), bar)
  {
    hide Tally, TallyThen, MarkExitsRan;
    Adds(m.w.history, PausedForCode);
    RunnerSafety.MarkExitsRanIs(m.w, bar);
  }

  lemma ManageAfterFailureMarked(c: Config, w: World, i: TickIn, bar: int, regime: bool)
    requires w.codeFailed && c.graph && (Open(w, bar) || (Ran(w, bar) && Marked(c, w, bar)))
    ensures Marked(c, ManageAfterFailure(c, w, i, bar, regime), bar)
  {
    hide Tally, TallyThen, Manage, Settle;
    if Ran(w, bar) { ManageRanSame(c, w, i, bar, regime); } else { ManageMarked(c, w, i, bar, regime); }
    SettleMarked(c, Manage(c, w, i, bar, regime), bar);
  }

  lemma CodeTickMarked(c: Config, w: World, i: TickIn)
    requires w.codeFailed && c.graph && i.fetch.Some?
    requires Open(w, i.fetch.value) || (Ran(w, i.fetch.value) && Marked(c, w, i.fetch.value))
    ensures Marked(c, CodeTick(c, w, i), i.fetch.value)
  {
    hide Tally, TallyThen, ManageAfterFailure;
    var regime := if i.planLost then c.bidirectional else c.isRegime;
    ManageAfterFailureMarked(c, w, i, i.fetch.value, regime);
    assert CodeTick(c, w, i) == ManageAfterFailure(c, w, i, i.fetch.value, regime);
  }

  lemma EnterCodeFailureOpen(w: World, bar: int)
    requires Open(w, bar)
    ensures Open(EnterCodeFailure(w), bar) && EnterCodeFailure(w).codeFailed
  {
    hide Tally, TallyThen;
    Adds(w.history, EnterCodeFailure(w).history.last);
  }

  // ---- the main path ----

  /** Flat, or not yet confirmed flat: no count, no close, and the bar is done or given back. */
  predicate Handled(w: World, w1: World, prev: Option<int>) {
    SameBars(w, w1) || (w1.lastBar == prev && SameBars(w, w1.(lastBar := w.lastBar)))
  }

  lemma CleanPendingFlipSame(c: Config, w: World, i: TickIn, newDir: Option<Side>)
    ensures SameBars(w, CleanPendingFlip(c, w, i, newDir))
  {
    hide Tally, TallyThen, ReverseEntry;
    var e := FlipCleaned(w.entryPrice.Some?);
    Adds(w.history, e);
    ReverseEntrySame(c, Log(Forget(w).(pendingFlip := false), e), i, newDir);
  }

  lemma NoPositionSame(c: Config, w: World, i: TickIn, found: Option<Found>)
    ensures SameBars(w, NoPosition(c, w, i, found))
  {
    hide Tally, TallyThen, TryEntry, DetectExternalClose;
    AfterExternalCloseSame(c, w, found, i);
    var b := DetectExternalClose(c, w, found, i).w;
    TryEntrySame(c, Forget(b), i);
    TryEntrySame(c, Forget(w), i);
  }

  lemma ActMissingSame(c: Config, w: World, i: TickIn, prev: Option<int>)
    ensures Handled(w, ActMissing(c, w, i, prev), prev)
  {
    hide Tally, TallyThen, ActFlat, FindFill, ConfirmGone;
    ActFlatSame(c, w, i, None);
    var found := FindFill(c, w, i);
    ConfirmGoneSame(w, found);
    ActFlatSame(c, ConfirmGone(w, found).w, i, found);
  }

  lemma ActFlatSame(c: Config, w: World, i: TickIn, found: Option<Found>)
    ensures SameBars(w, ActFlat(c, w, i, found))
  {
    hide Tally, TallyThen, CleanPendingFlip, NoPosition;
    CleanPendingFlipSame(c, w, i, EntryDir(c, i));
    NoPositionSame(c, w, i, found);
  }

  lemma FinishFlipSame(c: Config, w: World, i: TickIn, qty: real, newDir: Option<Side>)
    ensures SameBars(w, FinishFlip(c, w, i, qty, newDir))
  {
    hide Tally, TallyThen, ReverseEntry;
    var e := Booked(FlipClose, RegimeFlip, qty, i.exitFill);
    Adds(w.history, e);
    ReverseEntrySame(c, Forget(Log(w.(consecStops := 0), e)).(pendingFlip := false), i, newDir);
  }

  /** At most one close went out on the bar, which stays marked as worked on. */
  predicate ClosedOn(w: World, w1: World, bar: int) {
    && w1.lastBar == w.lastBar && w1.exitsBar == w.exitsBar && w1.codeFailed == w.codeFailed
    && w1.compiled == w.compiled
    && (Tally(w1.history) == Tally(w.history) || Tally(w1.history) == Tally(w.history).(closed := Some(bar)))
  }

  lemma FlipSent(c: Config, w: World, i: TickIn, bar: int, qty: real, newDir: Option<Side>)
    requires i.close.Accepted?
    ensures var polled := PollAfter(c, w, i, bar, RegimeFlip, w.dir, i.close.id);
            var sent := w.(pendingId := Some(i.close.id), pendingReason := Some(RegimeFlip), history := polled.h);
            && (polled.result == Cleared ==> HandleFlip(c, w, i, bar, qty, newDir) == FinishFlip(c, sent, i, qty, newDir))
            && (polled.result != Cleared ==> HandleFlip(c, w, i, bar, qty, newDir) == LeaveFlip(sent))
  {
    hide PollAfter, FinishFlip, LeaveFlip;
  }

  lemma LeaveFlipSame(w: World)
    ensures SameBars(w, LeaveFlip(w))
  {
    hide Tally, TallyThen;
    Adds(w.history, FlipLeft);
  }

  lemma HandleFlipOnce(c: Config, w: World, i: TickIn, bar: int, qty: real, newDir: Option<Side>)
    requires Closable(w, bar)
    ensures ClosedOn(w, HandleFlip(c, w, i, bar, qty, newDir), bar)
  {
    hide Tally, TallyThen, PollAfter, FinishFlip, LeaveFlip;
    if i.close.Refused? {
      LeaveFlipSame(w);
      assert HandleFlip(c, w, i, bar, qty, newDir) == LeaveFlip(w);
    } else {
      hide HandleFlip;
      FlipSent(c, w, i, bar, qty, newDir);
      PollAfterCloses(c, w, i, bar, RegimeFlip, w.dir, i.close.id);
      var polled := PollAfter(c, w, i, bar, RegimeFlip, w.dir, i.close.id);
      var sent := w.(pendingId := Some(i.close.id), pendingReason := Some(RegimeFlip), history := polled.h);
      if polled.result == Cleared { FinishFlipSame(c, sent, i, qty, newDir); } else { LeaveFlipSame(sent); }
    }
  }

  /** The price exits of a bar on the main path: counted unless they ran already. */
  lemma ExitDueOpen(c: Config, w: World, i: TickIn, bar: int)
    requires Open(w, bar) && w.lastBar == Some(bar)
    ensures var w1 := ExitDue(c, w, i, bar).w;
            && Closable(w1, bar) && SameMarks(w, w1)
            && Tally(w1.history).counted in {Tally(w.history).counted, Some(bar)}
            && Tally(w1.history).closed == Tally(w.history).closed
  {
    hide Tally, TallyThen, Evaluate;
    if w.exitsBar != Some(bar) { EvaluateOpen(c, w, i, bar); }
  }

  predicate SameMarks(w: World, w1: World) {
    && w1.lastBar == w.lastBar && w1.exitsBar == w.exitsBar && w1.exitsReason == w.exitsReason
    && w1.codeFailed == w.codeFailed && w1.compiled == w.compiled
  }

  lemma AttemptMarked(c: Config, w: World, x: World, bar: int, prev: Option<int>, due: Option<Reason>)
    requires Closable(w, bar) && w.lastBar == Some(bar) && !w.codeFailed && (c.graph ==> w.compiled)
    requires Tally(w.history).counted.Some? ==> Tally(w.history).counted.value <= bar
    requires Attempted(w, x, bar)
    ensures Marked(c, x, bar)
    ensures x.entryPrice.Some? && x.outcome == Some(NotSent) ==>
              Marked(c, x.(exitsBar := Some(bar), exitsReason := due, lastBar := prev, raised := true), bar)
  {
    hide Tally, TallyThen;
  }

  lemma HeldExitsMarked(c: Config, w: World, i: TickIn, bar: int, prev: Option<int>)
    requires Open(w, bar) && w.lastBar == Some(bar) && !w.codeFailed && (c.graph ==> w.compiled)
    ensures Marked(c, HeldExits(c, w, i, bar, prev), bar)
  {
    hide Tally, TallyThen, ExitDue, ExecuteExit;
    ExitDueOpen(c, w, i, bar);
    var ran := ExitDue(c, w, i, bar);
    var w1 := HeldExits(c, w, i, bar, prev);
    if ran.due.None? {
      assert w1 == ran.w;
    } else {
      var w0 := ran.w.(outcome := None);
      ExecuteExitOnce(c, w0, i, bar, ran.due.value);
      var x := ExecuteExit(c, w0, i, bar, ran.due.value);
      AttemptMarked(c, w0, x, bar, prev, ran.due);
      assert w1 == if x.entryPrice.Some? && x.outcome == Some(NotSent)
                   then x.(exitsBar := Some(bar), exitsReason := ran.due, lastBar := prev, raised := true)
                   else x;
    }
  }

  /** A bar the main path works on: open, marked as worked on, by a bot whose code runs. */
  predicate Fresh(c: Config, w: World, bar: int) {
    Open(w, bar) && w.lastBar == Some(bar) && !w.codeFailed && (c.graph ==> w.compiled)
  }

  lemma ActUncheckedMarked(c: Config, w: World, i: TickIn, bar: int, prev: Option<int>)
    requires Fresh(c, w, bar)
    ensures Marked(c, ActUnchecked(c, w, i, bar, prev), bar)
  {
    hide Tally, TallyThen, ExitsWithoutCheck;
    ExitsWithoutCheckOnce(c, w, i, bar);
    MarkedWhenExited(c, w, ExitsWithoutCheck(c, w, i, bar), bar);
  }

  lemma ActHeldMarked(c: Config, w: World, i: TickIn, bar: int, prev: Option<int>, p: Position)
    requires Fresh(c, w, bar)
    ensures Marked(c, ActHeld(c, w, i, bar, prev, p), bar)
  {
    hide Tally, TallyThen, HandleFlip, HeldExits;
    HandleFlipOnce(c, w, i, bar, Abs(p.qty), EntryDir(c, i));
    HeldExitsMarked(c, w, i, bar, prev);
  }

  lemma ActSeenMarked(c: Config, s: Sighting, i: TickIn, bar: int, prev: Option<int>)
    requires Fresh(c, s.w, bar)
    ensures Marked(c, ActSeen(c, s, i, bar, prev), bar)
  {
    hide Tally, TallyThen, ActUnchecked, ActMissing, ActHeld;
    match s.check
    case CheckFailed => ActUncheckedMarked(c, s.w, i, bar, prev);
    case Missing => ActMissingSame(c, s.w, i, prev);
    case Listed(p) => ActHeldMarked(c, s.w, i, bar, prev, p);
  }

  lemma ActMarked(c: Config, w: World, i: TickIn, bar: int, prev: Option<int>)
    requires Fresh(c, w, bar)
    ensures Marked(c, Act(c, w, i, bar, prev), bar)
  {
    hide Tally, TallyThen, BrokerPosition, ActSeen;
    BrokerPositionSame(c, w, c.isRegime, i);
    ActSeenMarked(c, BrokerPosition(c, w, c.isRegime, i), i, bar, prev);
  }

  lemma NewBarMarked(c: Config, w: World, i: TickIn, bar: int)
    requires Open(w, bar) && !w.codeFailed && (c.graph ==> w.compiled)
    ensures Marked(c, NewBar(c, w, i, bar), bar)
  {
    hide Tally, TallyThen, Act, ManageAfterFailure, EnterCodeFailure;
    var w1 := NewBar(c, w, i, bar);
    if c.graph && i.cook.CodeError? {
      EnterCodeFailureOpen(w, bar);
      ManageAfterFailureMarked(c, EnterCodeFailure(w), i, bar, c.isRegime);
      assert w1 == ManageAfterFailure(c, EnterCodeFailure(w), i, bar, c.isRegime);
    } else if c.graph && i.cook.CookError? {
      assert w1 == w.(raised := true);
    } else if !c.graph && i.indicatorsFail {
      assert w1 == w.(lastBar := Some(bar));
    } else {
      var marked := w.(lastBar := Some(bar));
      ActMarked(c, marked, i, bar, w.lastBar);
      assert w1 == Act(c, marked, i, bar, w.lastBar);
    }
  }

  lemma BarsMarked(c: Config, w: World, i: TickIn, lo: int)
    requires Marked(c, w, lo) && !w.codeFailed && (c.graph ==> w.compiled)
    requires i.fetch.Some? && lo <= i.fetch.value
    ensures Marked(c, Bars(c, w, i), i.fetch.value)
  {
    hide Tally, TallyThen, Manage, NewBar;
    var bar := i.fetch.value;
    MarkedLater(c, w, lo, bar);
    if w.lastBar == Some(bar) {
      assert Bars(c, w, i) == w;
    } else if c.graph && i.referenceDown {
      ManageMarked(c, w, i, bar, c.isRegime);
      assert Bars(c, w, i) == Manage(c, w, i, bar, c.isRegime).w.(raised := true);
    } else {
      NewBarMarked(c, w, i, bar);
      assert Bars(c, w, i) == NewBar(c, w, i, bar);
    }
  }

  lemma WorkingMarked(c: Config, w: World, i: TickIn, lo: int)
    requires Marked(c, w, lo) && !w.codeFailed
    requires i.fetch.Some? && lo <= i.fetch.value
    ensures Marked(c, Working(c, w, i), i.fetch.value)
  {
    hide Tally, TallyThen, Working, Bars, CodeTick, EnterCodeFailure;
    var bar := i.fetch.value;
    RunnerSafety.WorkingIs(c, w, i);
    MarkedLater(c, w, lo, bar);
    FlagsMarked(c, w, bar);
    if c.graph ==> w.compiled { BarsMarked(c, w, i, lo); }
    BarsMarked(c, w.(compiled := true), i, bar);
    if c.graph && !w.compiled {
      EnterCodeFailureOpen(w, bar);
      CodeTickMarked(c, EnterCodeFailure(w), i);
    }
  }

  lemma BeginSame(w: World)
    ensures SameBars(w, Begin(w))
  {
    hide Tally, TallyThen;
    Adds(w.history, TickBegan);
  }

  lemma TickMarked(c: Config, w: World, i: TickIn, lo: int)
    requires Marked(c, w, lo)
    requires i.fetch.Some? && lo <= i.fetch.value
    ensures Marked(c, Tick(c, w, i), i.fetch.value)
  {
    hide Tally, TallyThen, Begin, CodeTick, Working;
    var bar := i.fetch.value;
    BeginSame(w);
    var b := Begin(w);
    MarkedLater(c, b, lo, bar);
    if b.codeFailed {
      CodeTickMarked(c, b, i);
    } else if i.inHours || b.entryPrice.Some? {
      WorkingMarked(c, b, i, lo);
    }
  }

  // A tick that gets no bars counts none and closes on none.

  lemma WorkingIs(c: Config, w: World, i: TickIn)
    requires i.fetch.None?
    ensures Working(c, w, i) in {w, w.(compiled := true), w.(paused := true), w.(raised := true)}
            || (Working(c, w, i) == EnterCodeFailure(w).(raised := true, problem := false) && c.graph && !w.compiled)
  {
    hide EnterCodeFailure;
  }

  lemma FlagsMarked(c: Config, w: World, lo: int)
    requires Marked(c, w, lo)
    ensures Marked(c, w.(compiled := true), lo) && Marked(c, w.(paused := true), lo)
    ensures Marked(c, w.(raised := true), lo) && Marked(c, w.(raised := true, problem := false), lo)
  {
    hide Tally, TallyThen;
  }

  lemma WorkingNoFetch(c: Config, w: World, i: TickIn, lo: int)
    requires Marked(c, w, lo) && i.fetch.None?
    ensures Marked(c, Working(c, w, i), lo)
  {
    hide Tally, TallyThen, EnterCodeFailure, Working, Marked;
    WorkingIs(c, w, i);
    FlagsMarked(c, w, lo);
    if c.graph && !w.compiled {
      EnterCodeFailureNoBar(c, w, lo);
      FlagsMarked(c, EnterCodeFailure(w), lo);
    }
  }

  lemma EnterCodeFailureNoBar(c: Config, w: World, lo: int)
    requires Marked(c, w, lo) && c.graph && !w.compiled
    ensures Marked(c, EnterCodeFailure(w), lo)
  {
    hide Tally, TallyThen;
    Adds(w.history, EnterCodeFailure(w).history.last);
  }

  lemma TickNoFetch(c: Config, w: World, i: TickIn, lo: int)
    requires Marked(c, w, lo) && i.fetch.None?
    ensures Marked(c, Tick(c, w, i), lo)
  {
    hide Tally, TallyThen, Begin, Working;
    BeginSame(w);
    WorkingNoFetch(c, Begin(w), i, lo);
  }

  // ---- whole runs ----

  /** The least bar the next tick may fetch: the last one fetched, or the one after it once an
      accepted graph update lets the bot compile again. */
  function Floor(c: Config, w: World, steps: seq<Step>): Option<int> {
    if steps == [] then None
    else
      var before := Floor(c, w, steps[..|steps| - 1]);
      match steps[|steps| - 1]
      case Ticks(i) => if i.fetch.Some? then i.fetch else before
      case GraphUpdate =>
        if before.None? || Run(c, w, steps[..|steps| - 1]).entryPrice.Some? then before
        else Some(before.value + 1)
  }

  /** Bars never go back, and a graph update taken while flat is followed by a new bar. */
  predicate BarsRise(c: Config, w: World, steps: seq<Step>) {
    steps == []
    || var before := steps[..|steps| - 1];
       && BarsRise(c, w, before)
       && (steps[|steps| - 1].Ticks? && steps[|steps| - 1].input.fetch.Some? && Floor(c, w, before).Some? ==>
             steps[|steps| - 1].input.fetch.value >= Floor(c, w, before).value)
  }

  predicate MarkedFrom(c: Config, w: World, floor: Option<int>) {
    if floor.Some? then Marked(c, w, floor.value)
    else Tally(w.history) == Note(None, None, true) && (w.codeFailed ==> c.graph)
  }

  lemma NextMarked(c: Config, w: World, s: Step, floor: Option<int>)
    requires MarkedFrom(c, w, floor)
    requires s.Ticks? && s.input.fetch.Some? && floor.Some? ==> s.input.fetch.value >= floor.value
    ensures var floor1 := if s.Ticks? then if s.input.fetch.Some? then s.input.fetch else floor
                          else if floor.None? || w.entryPrice.Some? then floor else Some(floor.value + 1);
            MarkedFrom(c, Next(c, w, s), floor1)
  {
    hide Tally, TallyThen, Tick;
    match s
    case Ticks(i) =>
      if i.fetch.Some? {
        var lo := if floor.Some? then floor.value else i.fetch.value;
        assert Marked(c, w, lo);
        MarkedLater(c, w, lo, i.fetch.value);
        TickMarked(c, w, i, lo);
      } else if floor.Some? {
        TickNoFetch(c, w, i, floor.value);
      } else {
        TickNoBar(c, w, i);
      }
    case GraphUpdate =>
  }

  /** Before the first bar there is nothing to count or close on. */
  lemma TickNoBar(c: Config, w: World, i: TickIn)
    requires Tally(w.history) == Note(None, None, true) && (w.codeFailed ==> c.graph) && i.fetch.None?
    ensures Tally(Tick(c, w, i).history) == Note(None, None, true) && (Tick(c, w, i).codeFailed ==> c.graph)
  {
    hide Tally, TallyThen, Tick;
    var n := Tally(Tick(c, w, i).history);
    TickNoFetch(c, w, i, if n.closed.Some? then n.closed.value - 1 else 0);
    TickNoFetch(c, w, i, if n.counted.Some? then n.counted.value - 1 else 0);
  }

  /** In one runner's life every bar gets at most one accepted close and is counted at most once,
      over all paths of a tick and all retries. */
  lemma {:induction false} EveryRunIsMarked(c: Config, s: Saved, steps: seq<Step>)
    requires BarsRise(c, Init(c, s), steps)
    ensures MarkedFrom(c, Run(c, Init(c, s), steps), Floor(c, Init(c, s), steps))
  {
    hide Tally, TallyThen, Next;
    if steps == [] {
      InitTally(c, s);
    } else {
      var before := steps[..|steps| - 1];
      EveryRunIsMarked(c, s, before);
      NextMarked(c, Run(c, Init(c, s), before), steps[|steps| - 1], Floor(c, Init(c, s), before));
    }
  }

  lemma InitTally(c: Config, s: Saved)
    ensures MarkedFrom(c, Init(c, s), None)
  {
  }
}
