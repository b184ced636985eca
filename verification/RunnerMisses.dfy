/** How many replies without the position it takes to give it up. */
module RunnerMisses {
  import opened BotTypes
  import opened PriceExits
  import opened RunnerSpec
  import opened RunnerSafety
  import opened RunnerTheorems
  import RunnerBars

  /** Events that neither show a reply to _broker_position nor begin or end a position on one. */
  predicate Neutral(e: Event) {
    !e.Checked? && !e.Gone? && !e.Entered? && !e.Resumed?
  }

  predicate Neutrally(h: History, h1: History) {
    h == h1 || (h1.Then? && Neutral(h1.last) && Neutrally(h, h1.past))
  }

  /** Every position given up on two replies had at most two counted. */
  predicate NoneLate(c: Config, h: History) {
    h.Then? ==> NoneLate(c, h.past) && (h.last == Gone(ByTwoReplies) ==> Sum(c, h.past).unseen <= 2)
  }

  /** A tracked position's misses are all in the runner's counter. */
  predicate Exact(c: Config, w: World) {
    NoneLate(c, w.history) && (w.entryPrice.Some? ==> Sum(c, w.history).unseen <= w.missing)
  }

  /** A step that only adds neutral events and starts no position. */
  predicate Plain(w: World, w1: World) {
    Neutrally(w.history, w1.history) && w1.missing == w.missing && (w1.entryPrice.Some? ==> w.entryPrice.Some?)
  }

  lemma {:induction false} NeutrallyTransitive(a: History, b: History, d: History)
    requires Neutrally(a, b) && Neutrally(b, d)
    ensures Neutrally(a, d)
    decreases d
  {
    if b != d { NeutrallyTransitive(a, b, d.past); }
  }

  lemma {:induction false} NeutralKeeps(c: Config, h: History, h1: History)
    requires Neutrally(h, h1)
    ensures Sum(c, h1).unseen == Sum(c, h).unseen && (NoneLate(c, h) ==> NoneLate(c, h1))
    decreases h1
  {
    if h != h1 {
      hide Sum, SumThen, Safe, SafeThen, Add;
      NeutralKeeps(c, h, h1.past);
      SumOf(c, h1);
      AddLacking(c, Sum(c, h1.past), h1.last);
    }
  }

  lemma OneNeutral(h: History, e: Event)
    requires Neutral(e)
    ensures Neutrally(h, Then(h, e)) && Neutrally(h, h)
  {
    assert Neutrally(h, h);
  }

  lemma NoneLateThen(c: Config, h: History, e: Event)
    ensures NoneLate(c, Then(h, e)) <==> NoneLate(c, h) && (e == Gone(ByTwoReplies) ==> Sum(c, h).unseen <= 2)
  {
    hide Sum;
  }

  lemma PlainExact(c: Config, w: World, w1: World)
    requires Exact(c, w) && Plain(w, w1)
    ensures Exact(c, w1)
  {
    hide Sum, NoneLate, Neutrally;
    NeutralKeeps(c, w.history, w1.history);
  }

  lemma PlainTwice(a: World, b: World, d: World)
    requires Plain(a, b) && Plain(b, d)
    ensures Plain(a, d)
  {
    hide Neutrally;
    NeutrallyTransitive(a.history, b.history, d.history);
  }

  /** One neutral event and other fields. */
  lemma PlainLog(w: World, e: Event, w1: World)
    requires Neutral(e) && w1.history == Then(w.history, e) && w1.missing == w.missing
    requires w1.entryPrice.Some? ==> w.entryPrice.Some?
    ensures Plain(w, w1)
  {
    hide Neutrally;
    OneNeutral(w.history, e);
  }

  // ---- the steps that add only neutral events ----

  lemma {:induction false} PollPlain(c: Config, h: History, side: Option<Side>, post: seq<Reply>, k: nat)
    requires k <= POLLS
    ensures Neutrally(h, Poll(c, h, side, post, k).h)
    decreases POLLS - k
  {
    hide Lists, Neutrally;
    var reply := if k < |post| then post[k] else Unavailable;
    var asked := Then(h, PolledAfterClose(reply, side));
    OneNeutral(h, PolledAfterClose(reply, side));
    if k < POLLS && reply.Ok? && Lists(reply.positions, c.symbol, side) {
      PollPlain(c, asked, side, post, k + 1);
      NeutrallyTransitive(h, asked, Poll(c, h, side, post, k).h);
    }
  }

  lemma PollAfterPlain(c: Config, w: World, i: TickIn, bar: int, reason: Reason, side: Option<Side>, id: int)
    ensures Neutrally(w.history, PollAfter(c, w, i, bar, reason, side, id).h)
  {
    hide Poll, Neutrally;
    var h := Then(w.history, CloseAccepted(bar, reason, side, id));
    OneNeutral(w.history, CloseAccepted(bar, reason, side, id));
    PollPlain(c, h, side, i.post, 0);
    NeutrallyTransitive(w.history, h, PollAfter(c, w, i, bar, reason, side, id).h);
  }

  lemma FinishExitPlain(c: Config, w: World, i: TickIn, reason: Reason, qty: real)
    ensures Plain(w, FinishExit(c, w, i, reason, qty))
  {
    hide Triggers, Neutrally;
    PlainLog(w, Booked(OwnClose, reason, qty, i.exitFill), FinishExit(c, w, i, reason, qty));
  }

  lemma CloseAndBookPlain(c: Config, w: World, i: TickIn, bar: int, reason: Reason, qty: real)
    ensures Plain(w, CloseAndBook(c, w, i, bar, reason, qty))
  {
    hide PollAfter, FinishExit, TrackedSide, Neutrally;
    match i.close
    case Refused => PlainLog(w, CloseRefused, CloseAndBook(c, w, i, bar, reason, qty));
    case Accepted(id) =>
      var polled := PollAfter(c, w, i, bar, reason, Some(TrackedSide(c, w)), id);
      PollAfterPlain(c, w, i, bar, reason, Some(TrackedSide(c, w)), id);
      var sent := w.(outcome := Some(Sent), pendingId := Some(id), pendingReason := Some(reason), history := polled.h);
      assert Plain(w, sent);
      if polled.result == Cleared {
        FinishExitPlain(c, sent, i, reason, qty);
        PlainTwice(w, sent, FinishExit(c, sent, i, reason, qty));
      }
  }

  lemma ExecuteExitPlain(c: Config, w: World, i: TickIn, bar: int, reason: Reason)
    ensures Plain(w, ExecuteExit(c, w, i, bar, reason))
  {
    hide ExitSeen, ReadReply, Plain;
    var asked := Log(w, AskedAtExit(i.verify, TrackedSide(c, w), reason, bar));
    var check := ReadReply(i.verify, c.symbol, None);
    PlainLog(w, AskedAtExit(i.verify, TrackedSide(c, w), reason, bar), asked);
    ExitSeenPlain(c, asked, check, i, bar, reason);
    PlainTwice(w, asked, ExitSeen(c, asked, check, i, bar, reason));
  }

  lemma ExitSeenPlain(c: Config, w: World, check: Check, i: TickIn, bar: int, reason: Reason)
    ensures Plain(w, ExitSeen(c, w, check, i, bar, reason))
  {
    hide CloseAndBook, ClearOtherSide, Plain;
    PlainMark(w, w.(outcome := Some(NotSent)));
    if check.Listed? {
      CloseAndBookPlain(c, w, i, bar, reason, Abs(check.p.qty));
      ClearOtherSidePlain(w);
    }
  }

  lemma ClearOtherSidePlain(w: World)
    ensures Plain(w, ClearOtherSide(w))
  {
    hide Neutrally;
    PlainLog(w, SideCleared, ClearOtherSide(w));
  }

  /** No event, and other fields. */
  lemma PlainMark(w: World, w1: World)
    requires w1.history == w.history && w1.missing == w.missing && w1.entryPrice == w.entryPrice
    ensures Plain(w, w1)
  {
  }

  lemma EvaluatePlain(c: Config, w: World, i: TickIn, bar: int)
    ensures Plain(w, Evaluate(c, w, i, bar).w) && Plain(w, w)
  {
    hide Advance, Due, Resolve, Neutrally, IsShort;
    var ran := Evaluate(c, w, i, bar);
    PlainLog(w, ran.w.history.last, ran.w);
    OneNeutral(w.history, TickBegan);
  }

  lemma PriceExitOncePlain(c: Config, w: World, i: TickIn, bar: int)
    ensures Plain(w, PriceExitOnce(c, w, i, bar).w)
  {
    hide Evaluate, Neutrally;
    EvaluatePlain(c, w, i, bar);
  }

  lemma TryExitPlain(c: Config, w: World, i: TickIn, bar: int, reason: Reason)
    ensures Plain(w, TryExit(c, w, i, bar, reason).w)
  {
    hide ExecuteExit, Plain;
    var cleared := w.(outcome := None);
    var tried := ExecuteExit(c, cleared, i, bar, reason);
    PlainMark(w, cleared);
    ExecuteExitPlain(c, cleared, i, bar, reason);
    PlainTwice(w, cleared, tried);
    PlainMark(tried, tried.(exitsReason := None));
    PlainMark(tried, tried.(exitsReason := Some(reason)));
    PlainTwice(w, tried, tried.(exitsReason := None));
    PlainTwice(w, tried, tried.(exitsReason := Some(reason)));
  }

  lemma ExitsWithoutCheckPlain(c: Config, w: World, i: TickIn, bar: int)
    ensures Plain(w, ExitsWithoutCheck(c, w, i, bar).w)
  {
    hide PriceExitOnce, TryExit, Evaluate, Neutrally;
    PriceExitOncePlain(c, w, i, bar);
    EvaluatePlain(c, w, i, bar);
    var ran := PriceExitOnce(c, w, i, bar);
    if w.entryPrice.Some? && ran.due.Some? {
      TryExitPlain(c, ran.w, i, bar, ran.due.value);
      PlainTwice(w, ran.w, TryExit(c, ran.w, i, bar, ran.due.value).w);
    }
  }

  lemma ManageHeldPlain(c: Config, w: World, i: TickIn, bar: int)
    ensures Plain(w, ManageHeld(c, w, i, bar).w)
  {
    hide PriceExitOnce, TryExit, Evaluate, Neutrally;
    PriceExitOncePlain(c, w, i, bar);
    var ran := PriceExitOnce(c, w, i, bar);
    if ran.due.Some? {
      TryExitPlain(c, ran.w, i, bar, ran.due.value);
      PlainTwice(w, ran.w, TryExit(c, ran.w, i, bar, ran.due.value).w);
    }
  }

  lemma HeldExitsPlain(c: Config, w: World, i: TickIn, bar: int, prev: Option<int>)
    ensures Plain(w, HeldExits(c, w, i, bar, prev))
  {
    hide ExecuteExit, Evaluate, Neutrally;
    EvaluatePlain(c, w, i, bar);
    var ran := ExitDue(c, w, i, bar);
    assert Plain(w, ran.w);
    if ran.due.Some? {
      ExecuteExitPlain(c, ran.w.(outcome := None), i, bar, ran.due.value);
      PlainTwice(w, ran.w.(outcome := None), ExecuteExit(c, ran.w.(outcome := None), i, bar, ran.due.value));
    }
  }

  // ---- entries ----

  /** A flat world: whatever its counters say. */
  predicate Flat(c: Config, w: World) {
    NoneLate(c, w.history) && w.entryPrice.None?
  }

  lemma OpenExact(c: Config, w: World, price: real, now: real, side: Side)
    requires Flat(c, w)
    ensures Exact(c, Open(w, price, now, side))
  {
    hide Sum, SumThen, Safe, SafeThen, Add, NoneLate;
    var e := Entered(side, now, w.missing, price);
    NoneLateThen(c, w.history, e);
    SumOf(c, Then(w.history, e));
    AddLacking(c, Sum(c, w.history), e);
  }

  lemma FlatLog(c: Config, w: World, e: Event)
    requires Flat(c, w) && Neutral(e)
    ensures Flat(c, Log(w, e))
  {
    hide Sum, NoneLate;
    NoneLateThen(c, w.history, e);
  }

  lemma EnterExact(c: Config, w: World, i: TickIn, side: Side)
    requires Flat(c, w)
    ensures Exact(c, Enter(w, i, side))
  {
    hide Open, Sum, NoneLate;
    if i.entry.Filled? { OpenExact(c, w, i.entry.price, i.now, side); }
  }

  lemma ReverseEntryExact(c: Config, w: World, i: TickIn, newDir: Option<Side>)
    requires Flat(c, w)
    ensures Exact(c, ReverseEntry(c, w, i, newDir))
  {
    hide Enter, Sum, NoneLate, ReverseEntry;
    ReverseEntryIs(c, w, i, newDir);
    FlatLog(c, w, CandidateSkipped);
    FlatLog(c, w, CandidatePassed);
    if newDir.Some? { EnterExact(c, Log(w, CandidatePassed), i, newDir.value); }
  }

  lemma TryEntryExact(c: Config, w: World, i: TickIn)
    requires Flat(c, w)
    ensures Exact(c, TryEntry(c, w, i))
  {
    hide Sum, NoneLate, EntryDir, TryEntry, EnterIfClear;
    TryEntryIs(c, w, i);
    FlatLog(c, w, CandidateSkipped);
    FlatLog(c, w, CandidatePassed);
    var side := EntryDir(c, i);
    if side.Some? { EnterIfClearExact(c, Log(w, CandidatePassed), i, side.value); }
  }

  lemma EnterIfClearExact(c: Config, w: World, i: TickIn, side: Side)
    requires Flat(c, w)
    ensures Exact(c, EnterIfClear(c, w, i, side))
  {
    hide Enter, Sum, NoneLate, EntryAllowed;
    EnterExact(c, w, i, side);
  }

  lemma FinishFlipExact(c: Config, w: World, i: TickIn, qty: real, newDir: Option<Side>)
    requires NoneLate(c, w.history)
    ensures Exact(c, FinishFlip(c, w, i, qty, newDir))
  {
    hide ReverseEntry, Sum, NoneLate;
    var e := Booked(FlipClose, RegimeFlip, qty, i.exitFill);
    NoneLateThen(c, w.history, e);
    var booked := Log(w.(consecStops := 0), e);
    ReverseEntryExact(c, Forget(booked).(pendingFlip := false), i, newDir);
  }

  lemma HandleFlipExact(c: Config, w: World, i: TickIn, bar: int, qty: real, newDir: Option<Side>)
    requires Exact(c, w)
    ensures Exact(c, HandleFlip(c, w, i, bar, qty, newDir))
  {
    hide PollAfter, FinishFlip, Sum, NoneLate, Neutrally;
    match i.close
    case Refused =>
      var refused := HandleFlip(c, w, i, bar, qty, newDir);
      PlainLog(w, FlipLeft, refused);
      PlainExact(c, w, refused);
    case Accepted(id) =>
      var polled := PollAfter(c, w, i, bar, RegimeFlip, w.dir, id);
      PollAfterPlain(c, w, i, bar, RegimeFlip, w.dir, id);
      NeutralKeeps(c, w.history, polled.h);
      var sent := w.(pendingId := Some(id), pendingReason := Some(RegimeFlip), history := polled.h);
      PlainLog(sent, FlipLeft, LeaveFlip(sent));
      PlainExact(c, sent, LeaveFlip(sent));
      FinishFlipExact(c, sent, i, qty, newDir);
  }

  // ---- a look at the broker ----

  /** After a reply: exact, but for a miss that is not counted yet. */
  predicate Looked(c: Config, w: World, check: Check) {
    NoneLate(c, w.history)
    && (w.entryPrice.Some? ==>
          Sum(c, w.history).unseen <= w.missing + if check.Missing? && !w.lastEmpty then 1 else 0)
  }

  /** A reply came and is not noted yet. */
  predicate Replied(c: Config, w: World, check: Check, r: Reply) {
    && NoneLate(c, w.history) && (check.Listed? ==> w.missing == 0)
    && (w.entryPrice.Some? ==>
          Sum(c, w.history).unseen <= w.missing + if check.Missing? && !NoPositions(r) then 1 else 0)
  }

  function Counted(w: World, check: Check): World {
    if check.Listed? then w.(missing := 0) else w
  }

  lemma CountedIs(w: World, check: Check)
    ensures var w1 := Counted(w, check);
            w1.history == w.history && w1.entryPrice == w.entryPrice && w1.missing == if check.Listed? then 0 else w.missing
  {
  }

  lemma CheckedCounts(c: Config, w: World, want: Option<Side>, r: Reply)
    requires Exact(c, w)
    ensures var check := ReadReply(r, c.symbol, want); Replied(c, Log(Counted(w, check), Checked(r, want)), check, r)
  {
    hide Sum, SumThen, Safe, SafeThen, Add, NoneLate, Counted;
    var e := Checked(r, want);
    CountedIs(w, ReadReply(r, c.symbol, want));
    NoneLateThen(c, w.history, e);
    SumOf(c, Then(w.history, e));
    AddLacking(c, Sum(c, w.history), e);
  }

  lemma ResumeExact(c: Config, w: World, p: Position, regime: bool, i: TickIn)
    requires NoneLate(c, w.history)
    ensures Exact(c, Resume(c, w, p, regime, i))
  {
    hide Sum, SumThen, Safe, SafeThen, Add, NoneLate;
    var e := Resume(c, w, p, regime, i).history.last;
    NoneLateThen(c, w.history, e);
    SumOf(c, Then(w.history, e));
    AddLacking(c, Sum(c, w.history), e);
  }

  lemma BrokerPositionIs(c: Config, w: World, regime: bool, i: TickIn)
    ensures var want := CheckSide(c, w, regime);
            var check := ReadReply(i.check, c.symbol, want);
            BrokerPosition(c, w, regime, i)
              == Sighting(NoteReply(c, Log(Counted(w, check), Checked(i.check, want)), check, regime, i), check)
  {
    hide ReadReply, CheckSide, NoteReply;
  }

  lemma BrokerPositionLooks(c: Config, w: World, regime: bool, i: TickIn)
    requires Exact(c, w)
    ensures var s := BrokerPosition(c, w, regime, i);
            Looked(c, s.w, s.check) && s.w.missing <= w.missing && (s.check.Listed? ==> Exact(c, s.w))
  {
    hide BrokerPosition, NoteReply, ReadReply, CheckSide, Exact, Looked, Replied, Counted;
    var want := CheckSide(c, w, regime);
    var check := ReadReply(i.check, c.symbol, want);
    BrokerPositionIs(c, w, regime, i);
    CountedIs(w, check);
    CheckedCounts(c, w, want, i.check);
    NoteReplyLooks(c, Log(Counted(w, check), Checked(i.check, want)), check, regime, i);
  }

  lemma NoteReplyLooks(c: Config, w: World, check: Check, regime: bool, i: TickIn)
    requires Replied(c, w, check, i.check)
    ensures var w1 := NoteReply(c, w, check, regime, i);
            Looked(c, w1, check) && w1.missing == w.missing && (check.Listed? ==> Exact(c, w1))
  {
    hide Sum, NoneLate, Resume, NoteReply, NoPositions;
    if check.Listed? {
      assert check == Listed(check.p);
      var noted := w.(lastEmpty := NoPositions(i.check));
      NoteReplyIs(c, w, check.p, regime, i);
      ResumeExact(c, noted, check.p, regime, i);
      ResumeMissing(c, noted, check.p, regime, i);
    } else {
      NoteReplyTracks(c, w, check, regime, i);
    }
  }

  lemma ResumeMissing(c: Config, w: World, p: Position, regime: bool, i: TickIn)
    ensures Resume(c, w, p, regime, i).missing == w.missing
  {
  }

  /** Not confirmed: the miss is counted.  Confirmed: by at most two. */
  lemma ConfirmGoneExact(c: Config, w: World, found: Option<Found>)
    requires Looked(c, w, Missing) && w.entryPrice.Some? && w.missing <= 1
    requires found.Some? ==> !found.value.evidence.ByTwoReplies?
    ensures var a := ConfirmGone(w, found);
            && NoneLate(c, a.w.history) && (!a.yes ==> Exact(c, a.w))
            && a.w.entryPrice == w.entryPrice
  {
    hide Sum, NoneLate, ConfirmGone;
    ConfirmGoneIs(w, found);
    NoneLateThen(c, w.history, Gone(ByTwoReplies));
    if found.Some? { NoneLateThen(c, w.history, Gone(found.value.evidence)); }
  }

  lemma {:induction false} FoundIsNoCount(pendingId: Option<int>, since: Option<real>, short: bool, os: seq<Order>)
    ensures var f := ClosingFill(pendingId, since, short, os); f.Some? ==> !f.value.evidence.ByTwoReplies?
  {
    if os != [] { FoundIsNoCount(pendingId, since, short, os[1..]); }
  }

  lemma FindFillIsNoCount(c: Config, w: World, i: TickIn)
    ensures var f := FindFill(c, w, i); f.Some? ==> !f.value.evidence.ByTwoReplies?
  {
    hide ClosingFill;
    if i.fills.Fills? { FoundIsNoCount(w.pendingId, w.entryTime, IsShort(c, w), i.fills.orders); }
  }

  lemma BookExternalLate(c: Config, w: World, found: Option<Found>, i: TickIn)
    requires NoneLate(c, w.history)
    ensures NoneLate(c, BookExternal(c, w, found, i).history)
  {
    hide Triggers, ExternalReason, Sum, NoneLate;
    NoneLateThen(c, w.history, BookExternal(c, w, found, i).history.last);
  }

  lemma AfterExternalCloseFlat(c: Config, w: World, found: Option<Found>, i: TickIn)
    requires NoneLate(c, w.history)
    ensures Flat(c, AfterExternalClose(c, w, found, i))
  {
    hide BookExternal, Sum, NoneLate;
    BookExternalLate(c, w, found, i);
  }

  lemma NoPositionExact(c: Config, w: World, i: TickIn, found: Option<Found>)
    requires NoneLate(c, w.history)
    ensures Exact(c, NoPosition(c, w, i, found))
  {
    hide BookExternal, Sum, NoneLate, TryEntry, NoPosition, Forget;
    NoPositionCases(c, w, i, found);
    BookExternalLate(c, w, found, i);
    var b := BookExternal(c, w, found, i);
    ForgetFlat(w);
    ForgetFlat(b);
    if w.entryPrice.None? { TryEntryExact(c, Forget(w), i); } else if !i.drawdown { TryEntryExact(c, Forget(b), i); }
  }

  lemma NoPositionCases(c: Config, w: World, i: TickIn, found: Option<Found>)
    ensures var w1, b := NoPosition(c, w, i, found), BookExternal(c, w, found, i);
            && (w.entryPrice.None? ==> w1 == TryEntry(c, Forget(w), i))
            && (w.entryPrice.Some? && i.drawdown ==> w1 == Forget(b).(entryTime := None, paused := true))
            && (w.entryPrice.Some? && !i.drawdown ==> w1 == TryEntry(c, Forget(b), i))
  {
    hide BookExternal, TryEntry, Forget;
  }

  lemma ForgetFlat(w: World)
    ensures Forget(w).entryPrice.None? && Forget(w).history == w.history
  {
  }

  lemma ActFlatExact(c: Config, w: World, i: TickIn, found: Option<Found>)
    requires NoneLate(c, w.history)
    ensures Exact(c, ActFlat(c, w, i, found))
  {
    hide NoPosition, ReverseEntry, EntryDir, Sum, NoneLate;
    NoPositionExact(c, w, i, found);
    NoneLateThen(c, w.history, FlipCleaned(w.entryPrice.Some?));
    ReverseEntryExact(c, Log(Forget(w).(pendingFlip := false), FlipCleaned(w.entryPrice.Some?)), i, EntryDir(c, i));
  }

  lemma ActMissingExact(c: Config, w: World, i: TickIn, prev: Option<int>)
    requires Looked(c, w, Missing) && w.missing <= 1
    ensures Exact(c, ActMissing(c, w, i, prev))
  {
    hide ActFlat, FindFill, ConfirmGone, Sum, NoneLate;
    if w.entryPrice.None? {
      ActFlatExact(c, w, i, None);
    } else {
      var found := FindFill(c, w, i);
      FindFillIsNoCount(c, w, i);
      ConfirmGoneExact(c, w, found);
      ActFlatExact(c, ConfirmGone(w, found).w, i, found);
    }
  }

  lemma ManageMissingExact(c: Config, w: World, i: TickIn, bar: int)
    requires Looked(c, w, Missing) && w.missing <= 1
    ensures Exact(c, ManageMissing(c, w, i, bar).w)
  {
    hide AfterExternalClose, FindFill, ConfirmGone, Sum, NoneLate;
    if w.entryPrice.Some? {
      var found := FindFill(c, w, i);
      FindFillIsNoCount(c, w, i);
      ConfirmGoneExact(c, w, found);
      AfterExternalCloseFlat(c, ConfirmGone(w, found).w, found, i);
    }
  }

  lemma ManageUncheckedExact(c: Config, w: World, i: TickIn, bar: int)
    requires Exact(c, w)
    ensures Exact(c, ManageUnchecked(c, w, i, bar).w)
  {
    hide ExitsWithoutCheck, Sum, NoneLate, Neutrally;
    ExitsWithoutCheckPlain(c, Problem(w, bar), i, bar);
    PlainExact(c, Problem(w, bar), ExitsWithoutCheck(c, Problem(w, bar), i, bar).w);
  }

  lemma ManageExact(c: Config, w: World, i: TickIn, bar: int, regime: bool)
    requires Exact(c, w) && w.missing <= 1
    ensures Exact(c, Manage(c, w, i, bar, regime).w)
  {
    hide ManageNow, Manage, Sum, NoneLate;
    RunnerBars.ManageIs(c, w, i, bar, regime);
    ManageNowExact(c, w.(problem := false, problemBar := None), i, bar, regime);
  }

  lemma ManageNowExact(c: Config, w: World, i: TickIn, bar: int, regime: bool)
    requires Exact(c, w) && w.missing <= 1
    ensures Exact(c, ManageNow(c, w, i, bar, regime).w)
  {
    hide BrokerPosition, ManageMissing, ManageHeld, ManageUnchecked, Exact, Plain, Looked;
    var s := BrokerPosition(c, w, regime, i);
    BrokerPositionLooks(c, w, regime, i);
    match s.check {
      case CheckFailed =>
        LookedExact(c, s.w);
        ManageUncheckedExact(c, s.w, i, bar);
      case Missing => ManageMissingExact(c, s.w, i, bar);
      case Listed(_) =>
        ManageHeldPlain(c, s.w, i, bar);
        PlainExact(c, s.w, ManageHeld(c, s.w, i, bar).w);
    }
  }

  lemma LookedExact(c: Config, w: World)
    requires Looked(c, w, CheckFailed)
    ensures Exact(c, w)
  {
    hide Sum, NoneLate;
  }

  lemma ActUncheckedExact(c: Config, w: World, i: TickIn, bar: int, prev: Option<int>)
    requires Exact(c, w)
    ensures Exact(c, ActUnchecked(c, w, i, bar, prev))
  {
    hide ExitsWithoutCheck, Sum, NoneLate, Neutrally;
    ExitsWithoutCheckPlain(c, w, i, bar);
    PlainExact(c, w, ExitsWithoutCheck(c, w, i, bar).w);
  }

  lemma ActExact(c: Config, w: World, i: TickIn, bar: int, prev: Option<int>)
    requires Exact(c, w) && w.missing <= 1
    ensures Exact(c, Act(c, w, i, bar, prev))
  {
    hide BrokerPosition, ActMissing, ActUnchecked, HandleFlip, HeldExits, EntryDir, Sum, NoneLate, Neutrally;
    var s := BrokerPosition(c, w, c.isRegime, i);
    BrokerPositionLooks(c, w, c.isRegime, i);
    match s.check {
      case CheckFailed => ActUncheckedExact(c, s.w, i, bar, prev);
      case Missing => ActMissingExact(c, s.w, i, prev);
      case Listed(p) =>
        HandleFlipExact(c, s.w, i, bar, Abs(p.qty), EntryDir(c, i));
        HeldExitsPlain(c, s.w, i, bar, prev);
        PlainExact(c, s.w, HeldExits(c, s.w, i, bar, prev));
    }
  }

  // ---- whole runs ----

  lemma ManageAfterFailureExact(c: Config, w: World, i: TickIn, bar: int, regime: bool)
    requires Exact(c, w) && w.missing <= 1
    ensures Exact(c, ManageAfterFailure(c, w, i, bar, regime))
  {
    hide Manage, Settle, Exact;
    ManageExact(c, w, i, bar, regime);
    SettleExact(c, Manage(c, w, i, bar, regime), bar);
  }

  lemma SettleExact(c: Config, m: Answer, bar: int)
    requires Exact(c, m.w)
    ensures Exact(c, Settle(m, bar))
  {
    hide Sum, NoneLate, MarkExitsRan, PauseForCode;
    MarkExitsRanIs(m.w, bar);
    PauseExact(c, m.w);
  }

  lemma PauseExact(c: Config, w: World)
    requires Exact(c, w)
    ensures Exact(c, PauseForCode(w))
  {
    hide Exact, Plain;
    PlainLog(w, PausedForCode, PauseForCode(w));
    PlainExact(c, w, PauseForCode(w));
  }

  lemma FailureExact(c: Config, w: World)
    requires Exact(c, w)
    ensures Exact(c, EnterCodeFailure(w)) && EnterCodeFailure(w).missing == w.missing
  {
    hide Sum, NoneLate, Neutrally;
    var w1 := EnterCodeFailure(w);
    PlainLog(w, w1.history.last, w1);
    PlainExact(c, w, w1);
  }

  lemma NewBarExact(c: Config, w: World, i: TickIn, bar: int)
    requires Exact(c, w) && w.missing <= 1
    ensures Exact(c, NewBar(c, w, i, bar))
  {
    hide ManageAfterFailure, Act, EnterCodeFailure, Sum, NoneLate;
    FailureExact(c, w);
    ManageAfterFailureExact(c, EnterCodeFailure(w), i, bar, c.isRegime);
    ActExact(c, w.(lastBar := Some(bar)), i, bar, w.lastBar);
  }

  lemma BarsExact(c: Config, w: World, i: TickIn)
    requires Exact(c, w) && w.missing <= 1
    ensures Exact(c, Bars(c, w, i))
  {
    hide Manage, NewBar, Sum, NoneLate;
    if i.fetch.Some? {
      ManageExact(c, w, i, i.fetch.value, c.isRegime);
      NewBarExact(c, w, i, i.fetch.value);
    }
  }

  lemma CodeTickExact(c: Config, w: World, i: TickIn)
    requires Exact(c, w) && w.missing <= 1
    ensures Exact(c, CodeTick(c, w, i))
  {
    hide ManageAfterFailure, Sum, NoneLate;
    if i.fetch.Some? {
      ManageAfterFailureExact(c, w, i, i.fetch.value, if i.planLost then c.bidirectional else c.isRegime);
    }
  }

  lemma TickExact(c: Config, w: World, i: TickIn)
    requires Exact(c, w) && w.missing <= 1
    ensures Exact(c, Tick(c, w, i))
  {
    hide Working, CodeTick, Begin, Exact;
    BeginExact(c, w);
    CodeTickExact(c, Begin(w), i);
    WorkingExact(c, Begin(w), i);
  }

  lemma BeginExact(c: Config, w: World)
    requires Exact(c, w)
    ensures Exact(c, Begin(w)) && Begin(w).missing == w.missing
  {
    hide Exact, Plain;
    PlainLog(w, TickBegan, Begin(w));
    PlainExact(c, w, Begin(w));
  }

  lemma WorkingExact(c: Config, w: World, i: TickIn)
    requires Exact(c, w) && w.missing <= 1
    ensures Exact(c, Working(c, w, i))
  {
    hide Working, Bars, CodeTick, EnterCodeFailure, Sum, NoneLate;
    WorkingIs(c, w, i);
    FailureExact(c, w);
    CodeTickExact(c, EnterCodeFailure(w), i);
    BarsExact(c, w, i);
    BarsExact(c, w.(compiled := true), i);
  }

  lemma {:induction false} EveryRunIsExact(c: Config, s: Saved, steps: seq<Step>)
    requires Loadable(c, s)
    ensures Exact(c, Run(c, Init(c, s), steps))
  {
    if steps != [] {
      hide Tick, Init;
      var before := steps[..|steps| - 1];
      EveryRunIsExact(c, s, before);
      EveryRunIsSafe(c, s, before);
      var w := Run(c, Init(c, s), before);
      assert w.missing <= 1;
      match steps[|steps| - 1]
      case Ticks(i) => TickExact(c, w, i);
      case GraphUpdate =>
    } else {
      NoMissAtFirst(c, s);
    }
  }

  lemma NoMissAtFirst(c: Config, s: Saved)
    ensures Exact(c, Init(c, s))
  {
  }

  lemma {:induction false} NoneLateWithin(c: Config, p: History, h: History)
    requires NoneLate(c, h) && Within(p, h)
    ensures NoneLate(c, p)
    decreases h
  {
    if p != h { NoneLateWithin(c, p, h.past); }
  }

  /** Of a position given up on two replies, both came since it was opened if and only if the
      runner's counter of misses was zero when it was entered. */
  lemma BothRepliesSinceIff(c: Config, s: Saved, steps: seq<Step>, past: History)
    requires Loadable(c, s) && Within(Then(past, Gone(ByTwoReplies)), Run(c, Init(c, s), steps).history)
    ensures |LackingSince(c, past)| >= 2 <==> CarriedMisses(c, past) == 0
  {
    hide Run, Init, Sum, SumThen, Safe, SafeThen;
    EventIsOk(c, s, steps, past, Gone(ByTwoReplies));
    EveryRunIsExact(c, s, steps);
    NoneLateWithin(c, Then(past, Gone(ByTwoReplies)), Run(c, Init(c, s), steps).history);
    LackingCounts(c, past);
  }
}
