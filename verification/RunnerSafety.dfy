/** What every run of a runner keeps, whatever the broker answers: what makes a history safe, said
    without the runner, and the proof, one step of the tick after the other, that a runner only ever
    makes safe histories and that its fields go with them. */
module RunnerSafety {
  import opened BotTypes
  import opened PriceExits
  import opened RunnerSpec

  // ---- reading a history ----

  /** What a history adds up to. */
  datatype Digest = Digest(
    balance: int,            // positions opened less positions given up
    lacking: nat,            // replies of _broker_position that list other positions but not this
                             // one, since the last that listed it
    unseen: nat,             // such replies since the position was opened, with the misses that
                             // were still counted then
    failed: bool,            // the bot's code has failed, or the run began in the exits-only state
    mayHold: bool,           // ... while the bot might hold a position it does not track
    owes: bool,              // ... while a signal exit was decided but not sent
    dir: Option<Side>,       // the direction recorded when the position was opened
    since: Option<real>,     // the entry time recorded then
    counted: nat,            // bars counted toward the time stop
    ids: set<int>,           // close orders the bot sent, or had pending when it began
    listed: set<Side>,       // sides on which a reply of this tick lists the symbol
    closing: Option<Side>,   // the side of the close accepted in this tick
    dropped: bool,           // a tracked position was given up in this tick
    losses: nat,             // booked exits in a row that count for the sizing trigger
    quota: int,              // entry candidates to drop, set by the last qualifying stop
    skips: nat)              // candidates dropped since then

  function Start(c: Config, s: Saved): Digest {
    Digest(if s.entryPrice.Some? then 1 else 0, 0, 0, c.graph && s.exitsOnly, c.graph && s.exitsOnly, false,
           s.dir, s.entryTime, if s.barCount > 0 then s.barCount else 0,
           if s.pendingId.Some? then {s.pendingId.value} else {}, {}, None, false,
           s.consecStops, s.skipLeft, 0)
  }

  function SidesListed(c: Config, r: Reply): set<Side> {
    match r
    case Unavailable => {}
    case Ok(ps) =>
      (if Lists(ps, c.symbol, Some(Long)) then {Long} else {})
      + (if Lists(ps, c.symbol, Some(Short)) then {Short} else {})
  }

  function LackingAfter(c: Config, lacking: nat, r: Reply, want: Option<Side>): nat {
    match r
    case Unavailable => lacking
    case Ok(ps) => if Find(ps, c.symbol, want).Some? then 0 else if ps == [] then lacking else lacking + 1
  }

  function Dropped(d: Digest): Digest {
    d.(balance := d.balance - 1, counted := 0, dropped := true)
  }

  function Add(c: Config, d: Digest, e: Event): Digest {
    match e
    case TickBegan => d.(listed := {}, closing := None, dropped := false)
    case Checked(r, want) =>
      d.(lacking := LackingAfter(c, d.lacking, r, want), unseen := LackingAfter(c, d.unseen, r, want),
         listed := d.listed + SidesListed(c, r))
    case AskedAtExit(r, _, _, _) => d.(listed := d.listed + SidesListed(c, r))
    case Evaluated(_, _, _, _) => d.(counted := d.counted + 1)
    case CloseAccepted(_, _, side, id) => d.(closing := side, ids := d.ids + {id})
    case Booked(_, reason, _, _) =>
      var starts := c.skipOn && Triggers(reason, c.skipTrigger);
      Dropped(d).(losses := if Triggers(reason, c.sizingTrigger) then d.losses + 1 else 0,
                  quota := if starts then c.skipCount else d.quota,
                  skips := if starts then 0 else d.skips)
    case SideCleared => Dropped(d)
    case FlipCleaned(held) => if held then Dropped(d) else d
    case CandidateSkipped => d.(skips := d.skips + 1)
    case Entered(side, at, carried, _) =>
      d.(balance := d.balance + 1, dir := Some(side), since := Some(at), counted := 0, unseen := carried)
    case Resumed(_, dir, since, _) => d.(balance := d.balance + 1, dir := dir, since := Some(since), unseen := 0)
    case CodeFailed(mayHold, owes, _) => d.(failed := true, mayHold := mayHold, owes := owes)
    case _ => d
  }

  function Sum(c: Config, h: History): Digest
    decreases h, 0
  {
    match h
    case Began(s) => Start(c, s)
    case Then(past, e) => SumThen(c, past, e)
  }

  // Apart, so that the verifier opens only the events a proof is about.
  function SumThen(c: Config, past: History, e: Event): Digest
    decreases past, 1
  {
    Add(c, Sum(c, past), e)
  }

  function OpenedSide(c: Config, d: Digest): Side {
    if d.dir.Some? then d.dir.value else c.direction
  }

  // ---- what makes a history safe ----

  /** Evidence that a tracked position missing at the broker is gone. */
  predicate GoodEvidence(c: Config, d: Digest, ev: Evidence) {
    match ev
    case ByOwnOrder(id) => id in d.ids
    case ByFill(side, at, since) =>
      && side == CloseSide(OpenedSide(c, d) == Short)
      && d.since == Some(since)
      && at - since >= -FILL_TIME_SLACK
    case ByTwoReplies => d.unseen >= 2
  }

  predicate JustConfirmedGone(h: History) {
    h.Then? && h.last.Gone?
  }

  predicate JustPassed(h: History) {
    h.Then? && h.last.CandidatePassed?
  }

  /** The last thing that happened is a reply without the position, and its close was accepted
      earlier in the same tick. */
  predicate CloseSeen(c: Config, h: History, d: Digest) {
    && h.Then? && h.last.PolledAfterClose? && h.last.reply.Ok?
    && h.last.pollSide == d.closing == Some(OpenedSide(c, d))
    && !Lists(h.last.reply.positions, c.symbol, d.closing)
  }

  /** The last thing that happened is an exit-time reply with the symbol on the other side. */
  predicate OtherSideSeen(c: Config, h: History, d: Digest) {
    && h.Then? && h.last.AskedAtExit? && h.last.reply.Ok?
    && var p := Find(h.last.reply.positions, c.symbol, None);
       p.Some? && p.value.side == Opposite(OpenedSide(c, d))
  }

  /** e may follow the history h, which adds up to d. */
  predicate EventOk(c: Config, h: History, d: Digest, e: Event) {
    match e
    case Entered(_, _, carried, _) => d.balance == 0 && !d.failed && JustPassed(h) && carried <= 1
    case Resumed(_, _, _, _) => d.balance == 0
    case Gone(ev) => d.balance == 1 && GoodEvidence(c, d, ev)
    case Booked(kind, _, _, _) =>
      d.balance == 1 && if kind == ExternalClose then JustConfirmedGone(h) else CloseSeen(c, h, d)
    case SideCleared => d.balance == 1 && OtherSideSeen(c, h, d)
    case FlipCleaned(held) => if held then d.balance == 1 && JustConfirmedGone(h) else d.balance == 0
    case CloseAccepted(_, why, onSide, _) =>
      && d.balance == 1 && onSide == Some(OpenedSide(c, d)) && onSide.value in d.listed
      && (d.failed ==> IsPriceExit(why) || (why == Signal && d.owes))
    case Evaluated(_, due, limit, _) =>
      && d.balance == 1
      && (due.Some? ==> IsPriceExit(due.value))
      && (due == Some(TimeStop) ==> limit.Some? && d.counted + 1 >= limit.value)
    case CodeFailed(mayHold, _, _) => d.balance == 1 ==> mayHold
    case PausedForCode => d.failed && d.balance == 0 && (d.mayHold ==> d.dropped || d.lacking >= 2)
    case CandidateSkipped => d.skips < d.quota && !d.failed
    case CandidatePassed => d.skips >= d.quota && !d.failed
    case _ => true
  }

  predicate Safe(c: Config, h: History)
    decreases h, 0
  {
    h.Then? ==> SafeThen(c, h.past, h.last)
  }

  predicate SafeThen(c: Config, past: History, e: Event)
    decreases past, 1
  {
    Safe(c, past) && EventOk(c, past, Sum(c, past), e)
  }

  lemma Grows(c: Config, h: History, e: Event)
    ensures Sum(c, Then(h, e)) == Add(c, Sum(c, h), e)
    ensures Safe(c, Then(h, e)) == (Safe(c, h) && EventOk(c, h, Sum(c, h), e))
  {
    assert SumThen(c, h, e) == Add(c, Sum(c, h), e);
    assert SafeThen(c, h, e) == (Safe(c, h) && EventOk(c, h, Sum(c, h), e));
  }

  // ---- how the runner's fields go with its history ----

  /** The exits a bot may send: once its code failed, only the price exits and a signal exit left
      unsent then. */
  predicate MaySend(w: World, reason: Reason) {
    IsPriceExit(reason) || (reason == Signal && (w.codeFailed ==> w.owesSignal))
  }

  predicate Linked(c: Config, w: World, d: Digest) {
    && d.balance == (if w.entryPrice.Some? then 1 else 0)
    && w.missing <= 1 && w.missing <= d.lacking && (w.entryPrice.Some? ==> w.missing <= d.unseen)
    && w.codeFailed == d.failed && (w.codeFailed ==> c.graph && w.mayHold == d.mayHold && w.owesSignal == d.owes)
    && (w.entryPrice.Some? ==> w.dir == d.dir)
    && (w.entryPrice.Some? && c.isRegime && w.pendingFlip && !w.codeFailed ==> w.dir.Some?)
    && w.barCount <= d.counted
    && w.skipLeft == d.quota - d.skips
    && w.consecStops == d.losses
    && (w.pendingId.Some? ==> w.pendingId.value in d.ids)
    && (w.entryTime.Some? && w.entryPrice.Some? ==> w.entryTime == d.since)
    && (w.exitsReason.Some? ==> MaySend(w, w.exitsReason.value))
  }

  predicate Inv(c: Config, w: World) {
    Safe(c, w.history) && Linked(c, w, Sum(c, w.history))
  }

  /** A step keeps the invariant and does not touch the code-failure mode. */
  predicate Keeps(c: Config, w: World, w1: World) {
    Inv(c, w1) && w1.codeFailed == w.codeFailed && w1.mayHold == w.mayHold && w1.owesSignal == w.owesSignal
    && w1.exitsOnly == w.exitsOnly
  }

  /** The pause that ends the exits-only state: the last thing that happened, with nothing tracked. */
  predicate JustPaused(w: World) {
    w.paused && !w.exitsOnly && w.entryPrice.None? && w.history.Then? && w.history.last.PausedForCode?
  }

  /** A step of a bot whose code failed: the saved exits-only state ends only in that pause. */
  predicate KeepsOrPauses(c: Config, w: World, w1: World) {
    && Inv(c, w1) && w1.codeFailed == w.codeFailed && w1.mayHold == w.mayHold && w1.owesSignal == w.owesSignal
    && (w1.exitsOnly == w.exitsOnly || JustPaused(w1))
  }

  /** What a tick does to the exits-only state: it begins with a code failure and ends only in that
      pause. */
  predicate ModeMoves(c: Config, w: World, w1: World) {
    && Inv(c, w1)
    && (w.codeFailed ==> w1.codeFailed && (w1.exitsOnly == w.exitsOnly || JustPaused(w1)))
    && (!w.codeFailed && w1.codeFailed ==> w1.exitsOnly || JustPaused(w1))
    && (!w.codeFailed && !w1.codeFailed ==> w1.exitsOnly == w.exitsOnly)
  }

  /** The bar marks and the tick's flags do not matter to it. */
  lemma MarksSafe(c: Config, w: World, w1: World)
    requires Inv(c, w)
    requires w1 == w.(lastBar := w1.lastBar, exitsBar := w1.exitsBar, problem := w1.problem, problemBar := w1.problemBar,
                      raised := w1.raised, outcome := w1.outcome, compiled := w1.compiled)
    ensures Keeps(c, w, w1)
  {
  }

  // ---- each step keeps it ----

  lemma FindIsListed(ps: seq<Position>, symbol: string, want: Option<Side>)
    ensures var f := Find(ps, symbol, want);
            f.Some? ==> && f.value.symbol == symbol && Lists(ps, symbol, Some(f.value.side))
                        && (want.Some? ==> f.value.side == want.value)
  {
  }

  lemma CheckedSafe(c: Config, w: World, want: Option<Side>, r: Reply)
    requires Inv(c, w)
    requires ReadReply(r, c.symbol, want).Listed? ==> w.missing == 0
    ensures Keeps(c, w, Log(w, Checked(r, want)))
  {
  }

  lemma ReplyCounts(c: Config, d: Digest, want: Option<Side>, r: Reply)
    ensures var d1 := Add(c, d, Checked(r, want));
            var check := ReadReply(r, c.symbol, want);
            && (check.Missing? && !NoPositions(r) ==> d1.lacking == d.lacking + 1 && d1.unseen == d.unseen + 1)
            && (check.Listed? ==> check.p.side in d1.listed && (want.Some? ==> check.p.side == want.value))
  {
    if r.Ok? {
      FindIsListed(r.positions, c.symbol, want);
      var check := ReadReply(r, c.symbol, want);
      if check.Listed? {
        assert check.p.side == Long || check.p.side == Short;
      }
    }
  }

  lemma ResumeSafe(c: Config, w: World, p: Position, regime: bool, i: TickIn)
    requires Inv(c, w) && w.entryPrice.None? && w.missing == 0
    requires c.isRegime && !w.codeFailed ==> regime
    ensures Keeps(c, w, Resume(c, w, p, regime, i))
  {
  }

  lemma NoteReplySafe(c: Config, w: World, check: Check, regime: bool, i: TickIn)
    requires Inv(c, w) && (w.codeFailed || regime == c.isRegime) && (check.Listed? ==> w.missing == 0)
    ensures Keeps(c, w, NoteReply(c, w, check, regime, i))
  {
    hide Safe, SafeThen, Sum, SumThen, Resume, NoPositions;
    var w1 := NoteReply(c, w, check, regime, i);
    var noted := w.(lastEmpty := NoPositions(i.check));
    if check.CheckFailed? {
      assert w1 == w;
    } else if check.Listed? && w.entryPrice.None? {
      assert Inv(c, noted);
      ResumeSafe(c, noted, check.p, regime, i);
    } else {
      assert w1 == noted;
    }
  }

  lemma NoteReplyTracks(c: Config, w: World, check: Check, regime: bool, i: TickIn)
    ensures var w1 := NoteReply(c, w, check, regime, i);
            if check.Listed? then w1.entryPrice.Some?
            else w1.entryPrice == w.entryPrice && w1.missing == w.missing && w1.history == w.history
                 && (check.Missing? ==> w1.lastEmpty == NoPositions(i.check))
  {
  }

  lemma NoteReplyRegime(c: Config, w: World, check: Check, i: TickIn)
    requires Inv(c, w) && !w.codeFailed && c.isRegime && check.Listed?
    requires check.p.side in Sum(c, w.history).listed
    requires w.dir.Some? ==> w.dir.value == check.p.side
    ensures var w1 := NoteReply(c, w, check, c.isRegime, i);
            w1.pendingFlip || w1.dir.Some? ==> w1.dir.Some? && w1.dir.value in Sum(c, w1.history).listed
  {
    hide Inv, Sum, SumThen, NoPositions, Resume, NoteReply;
    NoteReplyIs(c, w, check.p, true, i);
    assert check == Listed(check.p) && c.isRegime == true;
    var noted := w.(lastEmpty := NoPositions(i.check));
    if w.entryPrice.None? {
      ResumeListed(c, noted, check.p, i);
    } else {
      PendingHasSide(c, w);
      assert noted.dir == w.dir && noted.history == w.history && noted.pendingFlip == w.pendingFlip;
    }
  }

  lemma NoteReplyIs(c: Config, w: World, p: Position, regime: bool, i: TickIn)
    ensures var noted := w.(lastEmpty := NoPositions(i.check));
            && (w.entryPrice.None? ==> NoteReply(c, w, Listed(p), regime, i) == Resume(c, noted, p, regime, i))
            && (w.entryPrice.Some? ==> NoteReply(c, w, Listed(p), regime, i) == noted)
  {
    hide NoPositions, Resume;
  }

  lemma PendingHasSide(c: Config, w: World)
    requires Inv(c, w) && !w.codeFailed && c.isRegime && w.entryPrice.Some?
    ensures w.pendingFlip ==> w.dir.Some?
  {
    hide Safe, SafeThen, Sum, SumThen;
  }

  lemma ResumeListed(c: Config, w: World, p: Position, i: TickIn)
    requires p.side in Sum(c, w.history).listed && (w.dir.Some? ==> w.dir.value == p.side)
    ensures var w1 := Resume(c, w, p, true, i); w1.dir == Some(p.side) && p.side in Sum(c, w1.history).listed
  {
    hide Safe, SafeThen, Sum, SumThen;
    Grows(c, w.history, Resume(c, w, p, true, i).history.last);
  }

  /** What _broker_position leaves behind when the position is missing, or listed. */
  predicate Asked(c: Config, w: World, check: Check) {
    && (check.Listed? ==> w.entryPrice.Some?)
    && (check.Missing? && !w.lastEmpty ==>
          && w.missing + 1 <= Sum(c, w.history).lacking
          && (w.entryPrice.Some? ==> w.missing + 1 <= Sum(c, w.history).unseen))
    && (check.Listed? && c.isRegime && !w.codeFailed && (w.pendingFlip || w.dir.Some?) ==>
          w.dir.Some? && w.dir.value in Sum(c, w.history).listed)
  }

  lemma BrokerPositionSafe(c: Config, w: World, regime: bool, i: TickIn)
    requires Inv(c, w) && (w.codeFailed || regime == c.isRegime)
    ensures var s := BrokerPosition(c, w, regime, i);
            Keeps(c, w, s.w) && Asked(c, s.w, s.check)
  {
    hide Safe, SafeThen, Sum, SumThen, Add, NoteReply, ReadReply, CheckSide;
    var want := CheckSide(c, w, regime);
    var check := ReadReply(i.check, c.symbol, want);
    var counted := if check.Listed? then w.(missing := 0) else w;
    var asked := Log(counted, Checked(i.check, want));
    CountedSafe(c, w);
    CheckedSafe(c, counted, want, i.check);
    Grows(c, w.history, Checked(i.check, want));
    ReplyCounts(c, Sum(c, w.history), want, i.check);
    NoteReplySafe(c, asked, check, regime, i);
    NoteReplyTracks(c, asked, check, regime, i);
    CheckedSide(c, w, regime);
    if check.Listed? && c.isRegime && !w.codeFailed { NoteReplyRegime(c, asked, check, i); }
  }

  lemma CountedSafe(c: Config, w: World)
    requires Inv(c, w)
    ensures Keeps(c, w, w.(missing := 0))
  {
  }

  lemma CheckedSide(c: Config, w: World, regime: bool)
    ensures regime && w.dir.Some? ==> CheckSide(c, w, regime) == w.dir
  {
  }

  // ---- giving a position up ----

  lemma FindFillGood(c: Config, w: World, i: TickIn)
    requires Inv(c, w) && w.entryPrice.Some?
    ensures var f := FindFill(c, w, i);
            f.Some? ==> GoodEvidence(c, Sum(c, w.history), f.value.evidence)
  {
    if i.fills.Fills? { ClosingFillFits(w.pendingId, w.entryTime, IsShort(c, w), i.fills.orders); }
  }

  /** A fill is taken only with the evidence it gives. */
  lemma {:induction false} ClosingFillFits(id: Option<int>, since: Option<real>, short: bool, os: seq<Order>)
    ensures var f := ClosingFill(id, since, short, os);
            f.Some? ==> && f.value.order in os
                        && FillEvidence(id, since, short, f.value.order) == Some(f.value.evidence)
  {
    if os != [] { ClosingFillFits(id, since, short, os[1..]); }
  }

  lemma GoneSafe(c: Config, w: World, ev: Evidence)
    requires Inv(c, w) && w.entryPrice.Some? && GoodEvidence(c, Sum(c, w.history), ev)
    ensures Keeps(c, w, Log(w.(missing := 0), Gone(ev)))
  {
  }

  lemma ConfirmGoneIs(w: World, found: Option<Found>)
    ensures var n := if w.lastEmpty then w.missing else w.missing + 1;
            ConfirmGone(w, found)
              == if found.Some? || n >= 2
                 then Answer(Log(w.(missing := 0), Gone(if found.Some? then found.value.evidence else ByTwoReplies)), true)
                 else Answer(w.(missing := n), false)
  {
  }

  lemma ConfirmGoneSafe(c: Config, w: World, found: Option<Found>)
    requires Inv(c, w) && w.entryPrice.Some?
    requires !w.lastEmpty ==> w.missing + 1 <= Sum(c, w.history).unseen && w.missing + 1 <= Sum(c, w.history).lacking
    requires found.Some? ==> GoodEvidence(c, Sum(c, w.history), found.value.evidence)
    ensures var a := ConfirmGone(w, found);
            Keeps(c, w, a.w) && a.w.entryPrice == w.entryPrice && (a.yes ==> JustConfirmedGone(a.w.history))
  {
    ConfirmGoneIs(w, found);
    hide ConfirmGone, Safe, SafeThen, Sum, SumThen, GoodEvidence;
    if found.Some? {
      GoneSafe(c, w, found.value.evidence);
    } else if !w.lastEmpty && w.missing == 1 {
      GoneByRepliesSafe(c, w);
    } else {
      MissSafe(c, w, if w.lastEmpty then w.missing else w.missing + 1);
    }
  }

  lemma GoneByRepliesSafe(c: Config, w: World)
    requires Inv(c, w) && w.entryPrice.Some? && Sum(c, w.history).unseen >= 2
    ensures Keeps(c, w, Log(w.(missing := 0), Gone(ByTwoReplies)))
  {
    hide Safe, SafeThen, Sum, SumThen, Inv, Keeps;
    GoneSafe(c, w, ByTwoReplies);
  }

  lemma MissSafe(c: Config, w: World, n: nat)
    requires Inv(c, w) && n <= 1 && n <= Sum(c, w.history).lacking && (w.entryPrice.Some? ==> n <= Sum(c, w.history).unseen)
    ensures Keeps(c, w, w.(missing := n))
  {
    hide Safe, SafeThen, Sum, SumThen;
  }

  /** Booking an exit with its evidence and forgetting the position. */
  lemma BookedSafe(c: Config, w: World, kind: BookKind, reason: Reason, qty: real, price: real)
    requires Inv(c, w) && w.entryPrice.Some?
    requires if kind == ExternalClose then JustConfirmedGone(w.history)
             else CloseSeen(c, w.history, Sum(c, w.history))
    ensures var w1 := Forget(BookExit(c, w, kind, reason, qty, price));
            Keeps(c, w, w1) && Sum(c, w1.history).dropped
  {
  }

  // ---- sending a close ----

  /** The last event is a reply without the position. */
  predicate LastLacks(c: Config, h: History, side: Option<Side>) {
    && h.Then? && h.last.PolledAfterClose? && h.last.reply.Ok? && h.last.pollSide == side
    && !Lists(h.last.reply.positions, c.symbol, side)
  }

  lemma {:induction false} PollSafe(c: Config, h: History, side: Option<Side>, post: seq<Reply>, k: nat)
    requires k <= POLLS && Safe(c, h)
    ensures var p := Poll(c, h, side, post, k);
            Safe(c, p.h) && Sum(c, p.h) == Sum(c, h) && (p.result == Cleared ==> LastLacks(c, p.h, side))
    decreases POLLS - k
  {
    hide Safe, SafeThen, Sum, SumThen;
    if k < POLLS {
      var e := PolledAfterClose(if k < |post| then post[k] else Unavailable, side);
      Grows(c, h, e);
      PollSafe(c, Then(h, e), side, post, k + 1);
    }
  }

  lemma FinishExitSafe(c: Config, w: World, i: TickIn, reason: Reason, qty: real)
    requires Inv(c, w) && w.entryPrice.Some? && CloseSeen(c, w.history, Sum(c, w.history))
    ensures var w1 := FinishExit(c, w, i, reason, qty);
            Keeps(c, w, w1) && Sum(c, w1.history).dropped
  {
    BookedSafe(c, w, OwnClose, reason, qty, i.exitFill);
    var b := BookExit(c, w, OwnClose, reason, qty, i.exitFill);
    assert FinishExit(c, w, i, reason, qty)
        == Forget(b).(entryTime := None, outcome := Some(Closed), paused := b.paused || i.drawdown);
  }

  /** A close accepted on the tracked side, and the polls after it. */
  lemma CloseAcceptedSafe(c: Config, w: World, o: Option<Outcome>, i: TickIn, reason: Reason, bar: int, id: int)
    requires Inv(c, w) && w.entryPrice.Some? && TrackedSide(c, w) in Sum(c, w.history).listed
    requires w.codeFailed ==> MaySend(w, reason)
    ensures var p := PollAfter(c, w, i, bar, reason, Some(TrackedSide(c, w)), id);
            && Keeps(c, w, w.(outcome := o, pendingId := Some(id), pendingReason := Some(reason), history := p.h))
            && (p.result == Cleared ==> CloseSeen(c, p.h, Sum(c, p.h)))
  {
    var side := Some(TrackedSide(c, w));
    var e := CloseAccepted(bar, reason, side, id);
    Grows(c, w.history, e);
    PollSafe(c, Then(w.history, e), side, i.post, 0);
  }

  /** When no position is tracked any more, one was given up in this tick. */
  predicate GaveUp(c: Config, w: World) {
    w.entryPrice.None? ==> Sum(c, w.history).dropped
  }

  lemma CloseAndBookSafe(c: Config, w: World, i: TickIn, bar: int, reason: Reason, qty: real)
    requires Inv(c, w) && w.entryPrice.Some? && TrackedSide(c, w) in Sum(c, w.history).listed
    requires w.codeFailed ==> MaySend(w, reason)
    ensures var w1 := CloseAndBook(c, w, i, bar, reason, qty); Keeps(c, w, w1) && GaveUp(c, w1)
  {
    var w1 := CloseAndBook(c, w, i, bar, reason, qty);
    if i.close.Refused? {
      Grows(c, w.history, CloseRefused);
      assert w1 == Log(w.(outcome := Some(CloseFailed)), CloseRefused);
    } else {
      var id := i.close.id;
      CloseAcceptedSafe(c, w, Some(Sent), i, reason, bar, id);
      var polled := PollAfter(c, w, i, bar, reason, Some(TrackedSide(c, w)), id);
      var sent := w.(outcome := Some(Sent), pendingId := Some(id), pendingReason := Some(reason),
                     history := polled.h);
      if polled.result == Cleared {
        FinishExitSafe(c, sent, i, reason, qty);
        assert w1 == FinishExit(c, sent, i, reason, qty);
      } else {
        assert w1 == sent;
      }
    }
  }

  lemma AskedAtExitSafe(c: Config, w: World, r: Reply, why: Reason, bar: int)
    requires Inv(c, w)
    ensures Keeps(c, w, Log(w, AskedAtExit(r, TrackedSide(c, w), why, bar)))
  {
    Grows(c, w.history, AskedAtExit(r, TrackedSide(c, w), why, bar));
  }

  lemma AskedAtExitShows(c: Config, w: World, r: Reply, why: Reason, bar: int)
    requires Inv(c, w) && w.entryPrice.Some? && ReadReply(r, c.symbol, None).Listed?
    ensures var h := Then(w.history, AskedAtExit(r, TrackedSide(c, w), why, bar));
            if ReadReply(r, c.symbol, None).p.side == TrackedSide(c, w) then TrackedSide(c, w) in Sum(c, h).listed
            else OtherSideSeen(c, h, Sum(c, h))
  {
    Grows(c, w.history, AskedAtExit(r, TrackedSide(c, w), why, bar));
    FindIsListed(r.positions, c.symbol, None);
  }

  lemma ClearOtherSideSafe(c: Config, w: World)
    requires Inv(c, w) && w.entryPrice.Some? && OtherSideSeen(c, w.history, Sum(c, w.history))
    ensures var w1 := ClearOtherSide(w); Keeps(c, w, w1) && Sum(c, w1.history).dropped
  {
    Grows(c, w.history, SideCleared);
  }

  lemma ExitSeenSafe(c: Config, w: World, check: Check, i: TickIn, bar: int, reason: Reason)
    requires Inv(c, w) && w.entryPrice.Some?
    requires w.codeFailed ==> MaySend(w, reason)
    requires check.Listed? ==> if check.p.side == TrackedSide(c, w) then TrackedSide(c, w) in Sum(c, w.history).listed
                               else OtherSideSeen(c, w.history, Sum(c, w.history))
    ensures var w1 := ExitSeen(c, w, check, i, bar, reason); Keeps(c, w, w1) && GaveUp(c, w1)
  {
    hide Safe, SafeThen, Sum, SumThen, CloseAndBook, ClearOtherSide, OtherSideSeen;
    if check.Listed? && check.p.side == TrackedSide(c, w) {
      CloseAndBookSafe(c, w, i, bar, reason, Abs(check.p.qty));
    } else if check.Listed? {
      ClearOtherSideSafe(c, w);
    }
  }

  lemma ExecuteExitSafe(c: Config, w: World, i: TickIn, bar: int, reason: Reason)
    requires Inv(c, w) && w.entryPrice.Some?
    requires w.codeFailed ==> MaySend(w, reason)
    ensures var w1 := ExecuteExit(c, w, i, bar, reason); Keeps(c, w, w1) && GaveUp(c, w1)
  {
    hide Safe, SafeThen, Sum, SumThen, ExitSeen, OtherSideSeen, ReadReply;
    AskedAtExitSafe(c, w, i.verify, reason, bar);
    var check := ReadReply(i.verify, c.symbol, None);
    if check.Listed? { AskedAtExitShows(c, w, i.verify, reason, bar); }
    ExitSeenSafe(c, Log(w, AskedAtExit(i.verify, TrackedSide(c, w), reason, bar)), check, i, bar, reason);
  }

  // ---- the price exits of a bar ----

  lemma DueFacts(h: Hold, r: Rules, short: bool, q: Quote)
    ensures var h1 := Advance(h, r, short, q);
            var due := Due(h1, r, short, q.price);
            && h1.bars == h.bars + 1
            && (due.Some? ==> IsPriceExit(due.value))
            && (due == Some(TimeStop) ==> r.maxBars.Some? && h.bars + 1 >= r.maxBars.value)
  {
  }

  lemma EvaluatedSafe(c: Config, w: World, bar: int, due: Option<Reason>, limit: Option<int>, h: Hold)
    requires Inv(c, w) && w.entryPrice.Some? && h.bars == w.barCount + 1
    requires due.Some? ==> IsPriceExit(due.value)
    requires due == Some(TimeStop) ==> limit.Some? && h.bars >= limit.value
    ensures Keeps(c, w, Log(w.(barCount := h.bars, trailPeak := h.peak, trailStop := h.stop), Evaluated(bar, due, limit, h)))
  {
    Grows(c, w.history, Evaluated(bar, due, limit, h));
  }

  lemma EvaluateSafe(c: Config, w: World, i: TickIn, bar: int)
    requires Inv(c, w) && w.entryPrice.Some?
    ensures var d := Evaluate(c, w, i, bar);
            Keeps(c, w, d.w) && (d.due.Some? ==> IsPriceExit(d.due.value))
  {
    var short := IsShort(c, w);
    var rules := Resolve(i.settings, w.dir);
    var h0 := Hold(w.entryPrice.value, w.barCount, w.trailPeak, w.trailStop);
    var h := Advance(h0, rules, short, i.quote);
    var due := Due(h, rules, short, i.quote.price);
    DueFacts(h0, rules, short, i.quote);
    EvaluatedSafe(c, w, bar, due, rules.maxBars, h);
  }

  lemma PriceExitOnceSafe(c: Config, w: World, i: TickIn, bar: int)
    requires Inv(c, w) && w.entryPrice.Some?
    ensures var d := PriceExitOnce(c, w, i, bar);
            && Keeps(c, w, d.w) && d.w.entryPrice.Some?
            && (d.due.Some? ==> MaySend(w, d.due.value))
  {
    var d := PriceExitOnce(c, w, i, bar);
    if w.exitsBar == Some(bar) {
      assert d == Decision(w, w.exitsReason);
    } else {
      EvaluateSafe(c, w, i, bar);
      var ran := Evaluate(c, w, i, bar);
      assert d == Decision(ran.w.(exitsBar := Some(bar), exitsReason := ran.due), ran.due);
    }
  }

  lemma AttemptIs(w: World, reason: Reason)
    ensures AfterExitAttempt(w, reason)
         == if w.entryPrice.None? || w.outcome == Some(Sent) || w.outcome == Some(CloseFailed)
            then Answer(w.(exitsReason := None), true) else Answer(w.(exitsReason := Some(reason)), false)
  {
  }

  lemma ReasonSafe(c: Config, w: World, reason: Option<Reason>)
    requires Inv(c, w) && (reason.Some? ==> MaySend(w, reason.value))
    ensures Keeps(c, w, w.(exitsReason := reason))
  {
    hide Safe, SafeThen, Sum, SumThen;
  }

  lemma AfterExitAttemptSafe(c: Config, w: World, reason: Reason)
    requires Inv(c, w) && GaveUp(c, w) && MaySend(w, reason)
    ensures var a := AfterExitAttempt(w, reason); Keeps(c, w, a.w) && GaveUp(c, a.w)
  {
    AttemptIs(w, reason);
    hide AfterExitAttempt, Safe, SafeThen, Sum, SumThen;
    ReasonSafe(c, w, None);
    ReasonSafe(c, w, Some(reason));
  }

  lemma TryExitSafe(c: Config, w: World, i: TickIn, bar: int, reason: Reason)
    requires Inv(c, w) && w.entryPrice.Some? && MaySend(w, reason)
    ensures var a := TryExit(c, w, i, bar, reason); Keeps(c, w, a.w) && GaveUp(c, a.w)
  {
    hide Safe, SafeThen, Sum, SumThen, ExecuteExit, AfterExitAttempt;
    ExecuteExitSafe(c, w.(outcome := None), i, bar, reason);
    AfterExitAttemptSafe(c, ExecuteExit(c, w.(outcome := None), i, bar, reason), reason);
  }

  lemma ExitsWithoutCheckSafe(c: Config, w: World, i: TickIn, bar: int)
    requires Inv(c, w)
    ensures Keeps(c, w, ExitsWithoutCheck(c, w, i, bar).w)
  {
    var a := ExitsWithoutCheck(c, w, i, bar);
    if w.entryPrice.None? {
      assert a == Answer(w, false);
    } else {
      PriceExitOnceSafe(c, w, i, bar);
      var ran := PriceExitOnce(c, w, i, bar);
      if ran.due.None? {
        assert a == Answer(ran.w, false);
      } else {
        TryExitSafe(c, ran.w, i, bar, ran.due.value);
        assert a == TryExit(c, ran.w, i, bar, ran.due.value);
      }
    }
  }

  // ---- managing without signals ----

  /** A bot whose code failed may be called flat: it tracks nothing and, when it may hold a
      position it does not track, one was given up in this tick or two replies lack it. */
  predicate Flat(c: Config, w: World) {
    var d := Sum(c, w.history);
    w.entryPrice.None? && (w.codeFailed && w.mayHold ==> d.dropped || d.lacking >= 2)
  }

  lemma ManageHeldSafe(c: Config, w: World, i: TickIn, bar: int)
    requires Inv(c, w) && w.entryPrice.Some?
    ensures var a := ManageHeld(c, w, i, bar); Keeps(c, w, a.w) && (a.yes ==> Flat(c, a.w))
  {
    hide Inv, Sum, SumThen, PriceExitOnce, TryExit;
    PriceExitOnceSafe(c, w, i, bar);
    var ran := PriceExitOnce(c, w, i, bar);
    if ran.due.Some? {
      TryExitSafe(c, ran.w, i, bar, ran.due.value);
      var t := TryExit(c, ran.w, i, bar, ran.due.value);
      MarksSafe(c, t.w, t.w.(lastBar := Some(bar)));
      MarksSafe(c, t.w, Problem(t.w, bar));
    }
  }

  lemma BookExternalSafe(c: Config, w: World, found: Option<Found>, i: TickIn)
    requires Inv(c, w) && w.entryPrice.Some? && JustConfirmedGone(w.history)
    ensures var w1 := Forget(BookExternal(c, w, found, i)); Keeps(c, w, w1) && Sum(c, w1.history).dropped
  {
    var price := if found.Some? && found.value.order.avgPrice.Some? then found.value.order.avgPrice.value
                 else i.quote.price;
    var qty := if found.Some? then found.value.order.qty else 0.0;
    BookedSafe(c, w, ExternalClose, ExternalReason(w, found), qty, price);
    assert BookExternal(c, w, found, i) == BookExit(c, w, ExternalClose, ExternalReason(w, found), qty, price);
  }

  lemma AfterExternalCloseSafe(c: Config, w: World, found: Option<Found>, i: TickIn)
    requires Inv(c, w) && w.entryPrice.Some? && JustConfirmedGone(w.history)
    ensures var w1 := AfterExternalClose(c, w, found, i);
            Keeps(c, w, w1) && GaveUp(c, w1) && w1.entryPrice.None?
  {
    hide BookExternal;
    BookExternalSafe(c, w, found, i);
    var b := Forget(BookExternal(c, w, found, i));
    var w1 := AfterExternalClose(c, w, found, i);
    if i.drawdown {
      assert w1 == b.(entryTime := None, paused := true);
    } else {
      assert w1 == b;
    }
  }

  lemma ProblemSafe(c: Config, w: World, bar: int)
    requires Inv(c, w)
    ensures Keeps(c, w, Problem(w, bar))
  {
    hide Safe, SafeThen, Sum, SumThen;
  }

  lemma KeepsOn(c: Config, w: World, w1: World, w2: World)
    requires Keeps(c, w, w1) && Keeps(c, w1, w2)
    ensures Keeps(c, w, w2)
  {
    hide Inv;
  }

  lemma TrackedMissingIs(c: Config, w: World, i: TickIn, bar: int)
    ensures var found := FindFill(c, w, i);
            var gone := ConfirmGone(w, found);
            ManageTrackedMissing(c, w, i, bar)
              == if gone.yes then Answer(AfterExternalClose(c, gone.w, found, i), true)
                 else Answer(Problem(gone.w, bar), false)
  {
    hide FindFill, ConfirmGone, AfterExternalClose;
  }

  lemma ManageTrackedMissingSafe(c: Config, w: World, i: TickIn, bar: int)
    requires Inv(c, w) && Asked(c, w, Missing) && w.entryPrice.Some?
    ensures var a := ManageTrackedMissing(c, w, i, bar); Keeps(c, w, a.w) && (a.yes ==> Flat(c, a.w))
  {
    hide Safe, SafeThen, Sum, SumThen, Inv, FindFill, ConfirmGone, AfterExternalClose, ManageTrackedMissing, Keeps, Problem;
    FindFillGood(c, w, i);
    var found := FindFill(c, w, i);
    ConfirmGoneSafe(c, w, found);
    TrackedMissingIs(c, w, i, bar);
    var gone := ConfirmGone(w, found);
    KeepsIsInv(c, w, gone.w);
    if gone.yes {
      AfterExternalCloseSafe(c, gone.w, found, i);
      KeepsOn(c, w, gone.w, AfterExternalClose(c, gone.w, found, i));
    } else {
      ProblemSafe(c, gone.w, bar);
      KeepsOn(c, w, gone.w, Problem(gone.w, bar));
    }
  }

  lemma KeepsIsInv(c: Config, w: World, w1: World)
    requires Keeps(c, w, w1)
    ensures Inv(c, w1)
  {
  }

  lemma ManageUntrackedSafe(c: Config, w: World, bar: int)
    requires Inv(c, w) && Asked(c, w, Missing) && w.entryPrice.None?
    ensures var a := ManageUntracked(w, bar); Keeps(c, w, a.w) && (a.yes ==> Flat(c, a.w))
  {
    UntrackedIs(w, bar);
    hide ManageUntracked, Problem, Safe, SafeThen, Sum, SumThen;
    ProblemSafe(c, w, bar);
    MissSafe(c, w, 0);
    if !w.lastEmpty && w.missing == 0 {
      MissSafe(c, w, 1);
      ProblemSafe(c, w.(missing := 1), bar);
    }
  }

  lemma UntrackedIs(w: World, bar: int)
    ensures ManageUntracked(w, bar)
         == if !w.codeFailed || !w.mayHold then Answer(w, true)
            else if w.lastEmpty then Answer(Problem(w, bar), false)
            else if w.missing + 1 >= 2 then Answer(w.(missing := 0), true)
            else Answer(Problem(w.(missing := w.missing + 1), bar), false)
  {
  }

  lemma ManageUncheckedSafe(c: Config, w: World, i: TickIn, bar: int)
    requires Inv(c, w)
    ensures var a := ManageUnchecked(c, w, i, bar); Keeps(c, w, a.w) && !a.yes
  {
    hide Safe, SafeThen, Sum, SumThen, Linked, ExitsWithoutCheck;
    MarksSafe(c, w, Problem(w, bar));
    ExitsWithoutCheckSafe(c, Problem(w, bar), i, bar);
    var ran := ExitsWithoutCheck(c, Problem(w, bar), i, bar);
    MarksSafe(c, ran.w, ran.w.(lastBar := Some(bar)));
  }

  lemma ManageSeenSafe(c: Config, s: Sighting, i: TickIn, bar: int)
    requires Inv(c, s.w) && Asked(c, s.w, s.check)
    ensures var a := ManageSeen(c, s, i, bar); Keeps(c, s.w, a.w) && (a.yes ==> Flat(c, a.w))
  {
    hide ManageUnchecked, ManageTrackedMissing, ManageUntracked, ManageHeld;
    match s.check
    case CheckFailed => ManageUncheckedSafe(c, s.w, i, bar);
    case Missing =>
      if s.w.entryPrice.Some? { ManageTrackedMissingSafe(c, s.w, i, bar); }
      else { ManageUntrackedSafe(c, s.w, bar); }
    case Listed(_) => ManageHeldSafe(c, s.w, i, bar);
  }

  lemma ManageNowSafe(c: Config, w: World, i: TickIn, bar: int, regime: bool)
    requires Inv(c, w) && (w.codeFailed || regime == c.isRegime)
    ensures var a := ManageNow(c, w, i, bar, regime); Keeps(c, w, a.w) && (a.yes ==> Flat(c, a.w))
  {
    hide Safe, SafeThen, Sum, SumThen, BrokerPosition, ManageSeen;
    BrokerPositionSafe(c, w, regime, i);
    ManageSeenSafe(c, BrokerPosition(c, w, regime, i), i, bar);
  }

  lemma ManageSafe(c: Config, w: World, i: TickIn, bar: int, regime: bool)
    requires Inv(c, w) && (w.codeFailed || regime == c.isRegime)
    ensures var a := Manage(c, w, i, bar, regime); Keeps(c, w, a.w) && (a.yes ==> Flat(c, a.w))
  {
    hide Safe, SafeThen, Sum, SumThen, Linked, ManageNow;
    MarksSafe(c, w, w.(problem := false));
    MarksSafe(c, w, w.(problem := false, problemBar := None));
    ManageNowSafe(c, w.(problem := false, problemBar := None), i, bar, regime);
  }

  // ---- a bot whose code failed ----

  lemma PauseForCodeSafe(c: Config, w: World)
    requires Inv(c, w) && w.codeFailed && Flat(c, w)
    ensures KeepsOrPauses(c, w, PauseForCode(w))
  {
    Grows(c, w.history, PausedForCode);
  }

  lemma MarkExitsRanIs(w: World, bar: int)
    ensures MarkExitsRan(w, bar) == w || MarkExitsRan(w, bar) == w.(lastBar := Some(bar))
  {
  }

  lemma MarkExitsRanSafe(c: Config, w: World, bar: int)
    requires Inv(c, w)
    ensures Keeps(c, w, MarkExitsRan(w, bar))
  {
    hide Safe, SafeThen, Sum, SumThen, MarkExitsRan;
    assert Keeps(c, w, w.(lastBar := Some(bar)));
    MarkExitsRanIs(w, bar);
  }

  lemma SettleSafe(c: Config, m: Answer, bar: int)
    requires Inv(c, m.w) && m.w.codeFailed && (m.yes ==> Flat(c, m.w))
    ensures KeepsOrPauses(c, m.w, Settle(m, bar))
  {
    hide Safe, SafeThen, Sum, SumThen, PauseForCode, MarkExitsRan, Flat;
    if m.yes { PauseForCodeSafe(c, m.w); }
    MarkExitsRanSafe(c, m.w, bar);
    var done := if m.yes then PauseForCode(m.w) else MarkExitsRan(m.w, bar);
    assert KeepsOrPauses(c, m.w, done);
    assert Settle(m, bar) == done.(raised := done.problem, problem := false);
  }

  lemma ManageAfterFailureSafe(c: Config, w: World, i: TickIn, bar: int, regime: bool)
    requires Inv(c, w) && w.codeFailed
    ensures KeepsOrPauses(c, w, ManageAfterFailure(c, w, i, bar, regime))
  {
    hide Manage, Settle;
    ManageSafe(c, w, i, bar, regime);
    SettleSafe(c, Manage(c, w, i, bar, regime), bar);
  }

  lemma CodeFailedSafe(c: Config, w: World, mayHold: bool, owes: bool)
    requires Inv(c, w) && c.graph && (w.entryPrice.Some? ==> mayHold) && owes == (w.exitsReason == Some(Signal))
    ensures Inv(c, Log(w.(codeFailed := true, mayHold := mayHold, owesSignal := owes, exitsOnly := true),
                       CodeFailed(mayHold, owes, w.exitsBar)))
  {
    Grows(c, w.history, CodeFailed(mayHold, owes, w.exitsBar));
  }

  lemma EnterCodeFailureIs(w: World)
    ensures var f, mayHold, owes := EnterCodeFailure(w), w.entryPrice.Some? || w.dir.Some? || w.exitsOnly, w.exitsReason == Some(Signal);
            && f == Log(w.(codeFailed := true, mayHold := mayHold, owesSignal := owes, exitsOnly := true),
                        CodeFailed(mayHold, owes, w.exitsBar))
            && f.codeFailed && f.exitsOnly
  {
  }

  lemma EnterCodeFailureSafe(c: Config, w: World)
    requires Inv(c, w) && c.graph
    ensures Inv(c, EnterCodeFailure(w)) && EnterCodeFailure(w).codeFailed && EnterCodeFailure(w).exitsOnly
  {
    hide Inv, Log, EnterCodeFailure;
    EnterCodeFailureIs(w);
    CodeFailedSafe(c, w, w.entryPrice.Some? || w.dir.Some? || w.exitsOnly, w.exitsReason == Some(Signal));
  }

  lemma CodeTickSafe(c: Config, w: World, i: TickIn)
    requires Inv(c, w) && w.codeFailed
    ensures KeepsOrPauses(c, w, CodeTick(c, w, i))
  {
    if i.fetch.Some? {
      var regime := if i.planLost then c.bidirectional else c.isRegime;
      ManageAfterFailureSafe(c, w, i, i.fetch.value, regime);
      assert CodeTick(c, w, i) == ManageAfterFailure(c, w, i, i.fetch.value, regime);
    }
  }

  // ---- entries and flips ----

  lemma OpenSafe(c: Config, w: World, price: real, now: real, side: Side)
    requires Inv(c, w) && w.entryPrice.None? && !w.codeFailed && JustPassed(w.history)
    ensures Keeps(c, w, RunnerSpec.Open(w, price, now, side))
  {
    Grows(c, w.history, Entered(side, now, w.missing, price));
  }

  lemma EnterSafe(c: Config, w: World, i: TickIn, side: Side)
    requires Inv(c, w) && w.entryPrice.None? && !w.codeFailed && JustPassed(w.history)
    ensures Keeps(c, w, Enter(w, i, side))
  {
    hide Safe, SafeThen, Sum, SumThen, RunnerSpec.Open;
    if i.entry.Filled? { OpenSafe(c, w, i.entry.price, i.now, side); }
  }

  lemma SkippedSafe(c: Config, w: World)
    requires Inv(c, w) && !w.codeFailed && w.skipLeft > 0
    ensures Keeps(c, w, Log(w.(skipLeft := w.skipLeft - 1), CandidateSkipped))
  {
    Grows(c, w.history, CandidateSkipped);
  }

  lemma PassedSafe(c: Config, w: World)
    requires Inv(c, w) && !w.codeFailed && w.skipLeft <= 0
    ensures Keeps(c, w, Log(w, CandidatePassed))
  {
    Grows(c, w.history, CandidatePassed);
  }

  lemma ReverseEntryIs(c: Config, w: World, i: TickIn, newDir: Option<Side>)
    ensures var w1 := ReverseEntry(c, w, i, newDir);
            || w1 == w
            || (w1 == Log(w.(skipLeft := w.skipLeft - 1), CandidateSkipped) && w.skipLeft > 0)
            || (newDir.Some? && w1 == Enter(Log(w, CandidatePassed), i, newDir.value) && w.skipLeft <= 0)
  {
    hide Enter;
  }

  lemma ReverseEntrySafe(c: Config, w: World, i: TickIn, newDir: Option<Side>)
    requires Inv(c, w) && w.entryPrice.None? && !w.codeFailed
    ensures Keeps(c, w, ReverseEntry(c, w, i, newDir))
  {
    hide Safe, SafeThen, Sum, SumThen, Enter, ReverseEntry;
    ReverseEntryIs(c, w, i, newDir);
    if w.skipLeft > 0 {
      SkippedSafe(c, w);
    } else if newDir.Some? {
      PassedSafe(c, w);
      EnterSafe(c, Log(w, CandidatePassed), i, newDir.value);
    }
  }

  lemma FlipBookedSafe(c: Config, w: World, qty: real, price: real)
    requires Inv(c, w) && w.entryPrice.Some? && CloseSeen(c, w.history, Sum(c, w.history))
    ensures var e := Booked(FlipClose, RegimeFlip, qty, price);
            Keeps(c, w, Forget(Log(w.(consecStops := 0), e)).(pendingFlip := false))
  {
    Grows(c, w.history, Booked(FlipClose, RegimeFlip, qty, price));
  }

  lemma FinishFlipSafe(c: Config, w: World, i: TickIn, qty: real, newDir: Option<Side>)
    requires Inv(c, w) && w.entryPrice.Some? && !w.codeFailed && CloseSeen(c, w.history, Sum(c, w.history))
    ensures Keeps(c, w, FinishFlip(c, w, i, qty, newDir))
  {
    hide ReverseEntry;
    FlipBookedSafe(c, w, qty, i.exitFill);
    var booked := Log(w.(consecStops := 0), Booked(FlipClose, RegimeFlip, qty, i.exitFill));
    ReverseEntrySafe(c, Forget(booked).(pendingFlip := false), i, newDir);
  }

  lemma LeaveFlipSafe(c: Config, w: World)
    requires Inv(c, w) && w.entryPrice.Some? && !w.codeFailed && w.dir.Some?
    ensures Keeps(c, w, LeaveFlip(w))
  {
    Grows(c, w.history, FlipLeft);
  }

  lemma HandleFlipSafe(c: Config, w: World, i: TickIn, bar: int, qty: real, newDir: Option<Side>)
    requires Inv(c, w) && w.entryPrice.Some? && !w.codeFailed
    requires w.dir.Some? && w.dir.value in Sum(c, w.history).listed
    ensures Keeps(c, w, HandleFlip(c, w, i, bar, qty, newDir))
  {
    hide GoodEvidence, CloseSeen, OtherSideSeen, Safe, SafeThen, Sum, SumThen, Linked, FinishFlip, PollAfter, LeaveFlip;
    if i.close.Refused? {
      LeaveFlipSafe(c, w);
    } else {
      var id := i.close.id;
      CloseAcceptedSafe(c, w, w.outcome, i, RegimeFlip, bar, id);
      var polled := PollAfter(c, w, i, bar, RegimeFlip, w.dir, id);
      var sent := w.(pendingId := Some(id), pendingReason := Some(RegimeFlip), history := polled.h);
      assert sent == sent.(outcome := w.outcome);
      if polled.result == Cleared {
        FinishFlipSafe(c, sent, i, qty, newDir);
        assert HandleFlip(c, w, i, bar, qty, newDir) == FinishFlip(c, sent, i, qty, newDir);
      } else {
        LeaveFlipSafe(c, sent);
        assert HandleFlip(c, w, i, bar, qty, newDir) == LeaveFlip(sent);
      }
    }
  }

  lemma FlipCleanedSafe(c: Config, w: World)
    requires Inv(c, w) && (w.entryPrice.Some? ==> JustConfirmedGone(w.history))
    ensures Keeps(c, w, Log(Forget(w).(pendingFlip := false), FlipCleaned(w.entryPrice.Some?)))
  {
    Grows(c, w.history, FlipCleaned(w.entryPrice.Some?));
  }

  lemma CleanPendingFlipSafe(c: Config, w: World, i: TickIn, newDir: Option<Side>)
    requires Inv(c, w) && !w.codeFailed && (w.entryPrice.Some? ==> JustConfirmedGone(w.history))
    ensures Keeps(c, w, CleanPendingFlip(c, w, i, newDir))
  {
    hide ReverseEntry;
    FlipCleanedSafe(c, w);
    ReverseEntrySafe(c, Log(Forget(w).(pendingFlip := false), FlipCleaned(w.entryPrice.Some?)), i, newDir);
  }

  lemma EnterIfClearSafe(c: Config, w: World, i: TickIn, side: Side)
    requires Inv(c, w) && w.entryPrice.None? && !w.codeFailed && JustPassed(w.history)
    ensures Keeps(c, w, EnterIfClear(c, w, i, side))
  {
    hide Enter, EntryAllowed;
    EnterSafe(c, w, i, side);
  }

  lemma TryEntryIs(c: Config, w: World, i: TickIn)
    ensures var w1 := TryEntry(c, w, i);
            var side := EntryDir(c, i);
            || w1 == w
            || (w1 == Log(w.(skipLeft := w.skipLeft - 1), CandidateSkipped) && w.skipLeft > 0)
            || (side.Some? && w1 == EnterIfClear(c, Log(w, CandidatePassed), i, side.value) && w.skipLeft <= 0)
  {
    hide EnterIfClear, EntryDir;
  }

  lemma TryEntrySafe(c: Config, w: World, i: TickIn)
    requires Inv(c, w) && w.entryPrice.None? && !w.codeFailed
    ensures Keeps(c, w, TryEntry(c, w, i))
  {
    hide Safe, SafeThen, Sum, SumThen, EnterIfClear, TryEntry;
    TryEntryIs(c, w, i);
    if w.skipLeft > 0 {
      SkippedSafe(c, w);
    } else if EntryDir(c, i).Some? {
      PassedSafe(c, w);
      EnterIfClearSafe(c, Log(w, CandidatePassed), i, EntryDir(c, i).value);
    }
  }

  lemma NoPositionSafe(c: Config, w: World, i: TickIn, found: Option<Found>)
    requires Inv(c, w) && !w.codeFailed && (w.entryPrice.Some? ==> JustConfirmedGone(w.history))
    ensures Keeps(c, w, NoPosition(c, w, i, found))
  {
    hide TryEntry, DetectExternalClose;
    var w1 := NoPosition(c, w, i, found);
    if w.entryPrice.Some? {
      AfterExternalCloseSafe(c, w, found, i);
      var booked := DetectExternalClose(c, w, found, i);
      assert AfterExternalClose(c, w, found, i) == if booked.yes then booked.w else Forget(booked.w);
      if !booked.yes {
        TryEntrySafe(c, Forget(booked.w), i);
        assert w1 == TryEntry(c, Forget(booked.w), i);
      } else {
        assert w1 == booked.w;
      }
    } else {
      assert Inv(c, Forget(w));
      TryEntrySafe(c, Forget(w), i);
      assert w1 == TryEntry(c, Forget(w), i);
    }
  }

  // ---- the main path ----

  lemma ActFlatSafe(c: Config, w: World, i: TickIn, found: Option<Found>)
    requires Inv(c, w) && !w.codeFailed && (w.entryPrice.Some? ==> JustConfirmedGone(w.history))
    ensures Keeps(c, w, ActFlat(c, w, i, found))
  {
    hide CleanPendingFlip, NoPosition;
    CleanPendingFlipSafe(c, w, i, EntryDir(c, i));
    if !(c.isRegime && w.pendingFlip) { NoPositionSafe(c, w, i, found); }
  }

  lemma ActMissingSafe(c: Config, w: World, i: TickIn, prev: Option<int>)
    requires Inv(c, w) && !w.codeFailed && Asked(c, w, Missing)
    ensures Keeps(c, w, ActMissing(c, w, i, prev))
  {
    hide ActFlat, FindFill, ConfirmGone, Safe, SafeThen, Sum, SumThen;
    if w.entryPrice.None? {
      ActFlatSafe(c, w, i, None);
    } else {
      FindFillGood(c, w, i);
      var found := FindFill(c, w, i);
      ConfirmGoneSafe(c, w, found);
      var gone := ConfirmGone(w, found);
      if gone.yes {
        ActFlatSafe(c, gone.w, i, found);
      } else {
        assert ActMissing(c, w, i, prev) == gone.w.(lastBar := prev, raised := true);
      }
    }
  }

  lemma ExitDueSafe(c: Config, w: World, i: TickIn, bar: int)
    requires Inv(c, w) && w.entryPrice.Some? && !w.codeFailed
    ensures var d := ExitDue(c, w, i, bar);
            && Keeps(c, w, d.w) && d.w.entryPrice == w.entryPrice
            && (d.due.Some? ==> MaySend(w, d.due.value))
  {
    hide Evaluate;
    EvaluateSafe(c, w, i, bar);
    EvaluateTracks(c, w, i, bar);
  }

  lemma EvaluateTracks(c: Config, w: World, i: TickIn, bar: int)
    ensures Evaluate(c, w, i, bar).w.entryPrice == w.entryPrice
  {
  }

  lemma HeldExitsSafe(c: Config, w: World, i: TickIn, bar: int, prev: Option<int>)
    requires Inv(c, w) && w.entryPrice.Some? && !w.codeFailed
    ensures Keeps(c, w, HeldExits(c, w, i, bar, prev))
  {
    hide ExitDue, ExecuteExit, Safe, SafeThen, Sum, SumThen;
    ExitDueSafe(c, w, i, bar);
    var ran := ExitDue(c, w, i, bar);
    var w1 := HeldExits(c, w, i, bar, prev);
    if ran.due.None? {
      assert w1 == ran.w;
    } else {
      ExecuteExitSafe(c, ran.w.(outcome := None), i, bar, ran.due.value);
      var tried := ExecuteExit(c, ran.w.(outcome := None), i, bar, ran.due.value);
      if tried.entryPrice.Some? && tried.outcome == Some(NotSent) {
        assert w1 == tried.(exitsBar := Some(bar), exitsReason := ran.due, lastBar := prev, raised := true);
      } else {
        assert w1 == tried;
      }
    }
  }

  lemma ActHeldSafe(c: Config, w: World, i: TickIn, bar: int, prev: Option<int>, p: Position)
    requires Inv(c, w) && !w.codeFailed && Asked(c, w, Listed(p))
    ensures Keeps(c, w, ActHeld(c, w, i, bar, prev, p))
  {
    hide HandleFlip, HeldExits;
    if c.isRegime && (w.pendingFlip || w.dir.Some?) { HandleFlipSafe(c, w, i, bar, Abs(p.qty), EntryDir(c, i)); }
    HeldExitsSafe(c, w, i, bar, prev);
  }

  lemma ActUncheckedSafe(c: Config, w: World, i: TickIn, bar: int, prev: Option<int>)
    requires Inv(c, w)
    ensures Keeps(c, w, ActUnchecked(c, w, i, bar, prev))
  {
    hide ExitsWithoutCheck;
    ExitsWithoutCheckSafe(c, w, i, bar);
  }

  lemma ActSeenSafe(c: Config, s: Sighting, i: TickIn, bar: int, prev: Option<int>)
    requires Inv(c, s.w) && !s.w.codeFailed && Asked(c, s.w, s.check)
    ensures Keeps(c, s.w, ActSeen(c, s, i, bar, prev))
  {
    hide ActUnchecked, ActMissing, ActHeld;
    match s.check
    case CheckFailed => ActUncheckedSafe(c, s.w, i, bar, prev);
    case Missing => ActMissingSafe(c, s.w, i, prev);
    case Listed(p) => ActHeldSafe(c, s.w, i, bar, prev, p);
  }

  lemma ActSafe(c: Config, w: World, i: TickIn, bar: int, prev: Option<int>)
    requires Inv(c, w) && !w.codeFailed
    ensures Keeps(c, w, Act(c, w, i, bar, prev))
  {
    hide BrokerPosition, ActSeen;
    BrokerPositionSafe(c, w, c.isRegime, i);
    ActSeenSafe(c, BrokerPosition(c, w, c.isRegime, i), i, bar, prev);
  }

  lemma NewBarSafe(c: Config, w: World, i: TickIn, bar: int)
    requires Inv(c, w) && !w.codeFailed
    ensures ModeMoves(c, w, NewBar(c, w, i, bar))
  {
    hide Inv, Act, ManageAfterFailure, EnterCodeFailure;
    if c.graph && i.cook.CodeError? {
      EnterCodeFailureSafe(c, w);
      ManageAfterFailureSafe(c, EnterCodeFailure(w), i, bar, c.isRegime);
    } else {
      MarksSafe(c, w, w.(raised := true));
      MarksSafe(c, w, w.(lastBar := Some(bar)));
      ActSafe(c, w.(lastBar := Some(bar)), i, bar, w.lastBar);
    }
  }

  lemma BarsSafe(c: Config, w: World, i: TickIn)
    requires Inv(c, w) && !w.codeFailed
    ensures ModeMoves(c, w, Bars(c, w, i))
  {
    hide Safe, SafeThen, Sum, SumThen, Manage, NewBar;
    if i.fetch.Some? {
      ManageSafe(c, w, i, i.fetch.value, c.isRegime);
      NewBarSafe(c, w, i, i.fetch.value);
    }
  }

  lemma RefusedSafe(c: Config, w: World, i: TickIn)
    requires Inv(c, w) && !w.codeFailed && c.graph
    ensures ModeMoves(c, w, CodeTick(c, EnterCodeFailure(w), i))
  {
    hide Safe, SafeThen, Sum, SumThen, Linked, CodeTick, EnterCodeFailure;
    EnterCodeFailureSafe(c, w);
    CodeTickSafe(c, EnterCodeFailure(w), i);
  }

  lemma WorkingIs(c: Config, w: World, i: TickIn)
    ensures var w1 := Working(c, w, i);
            || (w1 == Bars(c, w, i) && (c.graph ==> w.compiled))
            || w1 == Bars(c, w.(compiled := true), i)
            || (w1 == CodeTick(c, EnterCodeFailure(w), i) && c.graph && !w.compiled)
            || w1 == w.(paused := true) || w1 == w.(raised := true)
  {
    hide Bars, CodeTick, EnterCodeFailure;
  }

  lemma WorkingSafe(c: Config, w: World, i: TickIn)
    requires Inv(c, w) && !w.codeFailed
    ensures ModeMoves(c, w, Working(c, w, i))
  {
    hide Safe, SafeThen, Sum, SumThen, Working, Bars, CodeTick, EnterCodeFailure;
    WorkingIs(c, w, i);
    BarsSafe(c, w, i);
    BarsSafe(c, w.(compiled := true), i);
    if c.graph { RefusedSafe(c, w, i); }
  }

  lemma BeginSafe(c: Config, w: World)
    requires Inv(c, w)
    ensures Keeps(c, w, Begin(w))
  {
    Grows(c, w.history, TickBegan);
  }

  lemma TickSafe(c: Config, w: World, i: TickIn)
    requires Inv(c, w)
    ensures ModeMoves(c, w, Tick(c, w, i))
  {
    hide Working, CodeTick, Begin;
    BeginSafe(c, w);
    if Begin(w).codeFailed {
      CodeTickSafe(c, Begin(w), i);
    } else {
      WorkingSafe(c, Begin(w), i);
    }
  }

  // ---- every run ----

  /** A regime bot saved with a flip pending knows the side of its position. */
  predicate Loadable(c: Config, s: Saved) {
    c.isRegime && s.pendingFlip && s.entryPrice.Some? ==> s.dir.Some? || (c.graph && s.exitsOnly)
  }

  lemma InitSafe(c: Config, s: Saved)
    requires Loadable(c, s)
    ensures Inv(c, Init(c, s))
  {
  }

  /** Every run, with every broker, data provider and strategy, makes a safe history. */
  lemma {:induction false} EveryRunIsSafe(c: Config, s: Saved, steps: seq<Step>)
    requires Loadable(c, s)
    ensures Inv(c, Run(c, Init(c, s), steps))
  {
    hide Tick, Init;
    if steps == [] {
      InitSafe(c, s);
    } else {
      var before := steps[..|steps| - 1];
      EveryRunIsSafe(c, s, before);
      var w := Run(c, Init(c, s), before);
      match steps[|steps| - 1]
      case Ticks(i) => TickSafe(c, w, i);
      case GraphUpdate =>
    }
  }
}
