/** What every run of a runner guarantees, read off its history alone. */
module RunnerTheorems {
  import opened BotTypes
  import opened PriceExits
  import opened RunnerSpec
  import opened RunnerSafety
  import RunnerBars
  import RunnerTraces

  // ---- histories ----

  /** p is h, or what h was at some moment before. */
  predicate Within(p: History, h: History) {
    p == h || (h.Then? && Within(p, h.past))
  }

  lemma {:induction false} SafeWithin(c: Config, p: History, h: History)
    requires Safe(c, h) && Within(p, h)
    ensures Safe(c, p)
    decreases h
  {
    if p != h {
      Grows(c, h.past, h.last);
      SafeWithin(c, p, h.past);
    }
  }

  /** Everything said of an event of a run comes from here. */
  lemma EventIsOk(c: Config, s: Saved, steps: seq<Step>, past: History, e: Event)
    requires Loadable(c, s) && Within(Then(past, e), Run(c, Init(c, s), steps).history)
    ensures EventOk(c, past, Sum(c, past), e) && Safe(c, past)
  {
    EveryRunIsSafe(c, s, steps);
    SafeWithin(c, Then(past, e), Run(c, Init(c, s), steps).history);
    Grows(c, past, e);
  }

  lemma SumOf(c: Config, h: History)
    ensures h.Began? ==> Sum(c, h) == Start(c, h.start)
    ensures h.Then? ==> Sum(c, h) == Add(c, Sum(c, h.past), h.last)
  {
    if h.Then? { Grows(c, h.past, h.last); }
  }

  // ---- the ledger ----

  predicate Opens(e: Event) {
    e.Entered? || e.Resumed?
  }

  /** A booked exit, a side-mismatch clear, or a flip cleanup that cleared a tracked position. */
  predicate GivesUp(e: Event) {
    e.Booked? || e.SideCleared? || (e.FlipCleaned? && e.held)
  }

  /** Entries plus resumed positions, with the position the run began with. */
  function Opened(h: History): nat {
    match h
    case Began(s) => if s.entryPrice.Some? then 1 else 0
    case Then(past, e) => Opened(past) + if Opens(e) then 1 else 0
  }

  function GivenUp(h: History): nat {
    match h
    case Began(_) => 0
    case Then(past, e) => GivenUp(past) + if GivesUp(e) then 1 else 0
  }

  lemma AddBalance(c: Config, d: Digest, e: Event)
    ensures Add(c, d, e).balance
         == d.balance + (if Opens(e) then 1 else 0) - (if GivesUp(e) then 1 else 0)
  {
    hide SidesListed, LackingAfter, Triggers;
  }

  lemma {:induction false} BalanceIsLedger(c: Config, h: History)
    ensures Sum(c, h).balance == Opened(h) - GivenUp(h)
  {
    hide Add, Sum, SumThen, Safe, SafeThen;
    SumOf(c, h);
    if h.Then? {
      AddBalance(c, Sum(c, h.past), h.last);
      BalanceIsLedger(c, h.past);
    }
  }

  lemma LedgerIsConserved(c: Config, s: Saved, steps: seq<Step>)
    requires Loadable(c, s)
    ensures var w := Run(c, Init(c, s), steps);
            Opened(w.history) - GivenUp(w.history) == if w.entryPrice.Some? then 1 else 0
  {
    EveryRunIsSafe(c, s, steps);
    BalanceIsLedger(c, Run(c, Init(c, s), steps).history);
  }

  /** No entry goes out while a position is tracked, and no close is booked without one: at every
      moment of every run. */
  lemma EveryMomentBalances(c: Config, s: Saved, steps: seq<Step>, past: History, e: Event)
    requires Loadable(c, s) && Within(Then(past, e), Run(c, Init(c, s), steps).history)
    ensures Opens(e) ==> Opened(past) == GivenUp(past)
    ensures e.Booked? || e.SideCleared? || e.CloseAccepted? || e.Evaluated? || e.Gone? ==>
              Opened(past) == GivenUp(past) + 1
    ensures e.FlipCleaned? ==> Opened(past) == GivenUp(past) + (if e.held then 1 else 0)
  {
    hide Run, Init, Sum, SumThen, Safe, SafeThen;
    EventIsOk(c, s, steps, past, e);
    BalanceIsLedger(c, past);
  }

  // ---- evidence before a position is given up ----

  /** The id of a close order the bot sent, or had pending when the run began. */
  predicate SentClose(h: History, id: int) {
    match h
    case Began(s) => s.pendingId == Some(id)
    case Then(past, e) => (e.CloseAccepted? && e.id == id) || SentClose(past, id)
  }

  lemma AddIds(c: Config, d: Digest, e: Event)
    ensures Add(c, d, e).ids == if e.CloseAccepted? then d.ids + {e.id} else d.ids
  {
    hide SidesListed, LackingAfter, Triggers;
  }

  lemma {:induction false} SentCloseIsId(c: Config, h: History, id: int)
    ensures id in Sum(c, h).ids <==> SentClose(h, id)
  {
    hide Add, Sum, SumThen, Safe, SafeThen;
    SumOf(c, h);
    if h.Then? {
      AddIds(c, Sum(c, h.past), h.last);
      SentCloseIsId(c, h.past, id);
    }
  }

  /** A reply that lists positions, none of them the bot's. */
  predicate Lacks(c: Config, r: Reply, want: Option<Side>) {
    r.Ok? && r.positions != [] && Find(r.positions, c.symbol, want).None?
  }

  predicate ListsIt(c: Config, r: Reply, want: Option<Side>) {
    r.Ok? && Find(r.positions, c.symbol, want).Some?
  }

  /** The replies of _broker_position that lack the position, since the last that listed it. */
  function Lacking(c: Config, h: History): seq<Reply> {
    match h
    case Began(_) => []
    case Then(past, e) =>
      if !e.Checked? then Lacking(c, past)
      else if ListsIt(c, e.reply, e.want) then []
      else if Lacks(c, e.reply, e.want) then Lacking(c, past) + [e.reply]
      else Lacking(c, past)
  }

  /** Those of them since the position was opened. */
  function LackingSince(c: Config, h: History): seq<Reply> {
    match h
    case Began(_) => []
    case Then(past, e) =>
      if Opens(e) then []
      else if !e.Checked? then LackingSince(c, past)
      else if ListsIt(c, e.reply, e.want) then []
      else if Lacks(c, e.reply, e.want) then LackingSince(c, past) + [e.reply]
      else LackingSince(c, past)
  }

  /** The misses of an earlier position that were still counted when this one was entered, unless a
      reply has listed it since. */
  function CarriedMisses(c: Config, h: History): nat {
    match h
    case Began(_) => 0
    case Then(past, e) =>
      if e.Entered? then e.carried
      else if e.Resumed? || (e.Checked? && ListsIt(c, e.reply, e.want)) then 0
      else CarriedMisses(c, past)
  }

  lemma AddLacking(c: Config, d: Digest, e: Event)
    ensures var d1 := Add(c, d, e);
            if e.Checked? then
              var n := if ListsIt(c, e.reply, e.want) then 0 else if Lacks(c, e.reply, e.want) then 1 else 0;
              && d1.lacking == (if ListsIt(c, e.reply, e.want) then 0 else d.lacking + n)
              && d1.unseen == (if ListsIt(c, e.reply, e.want) then 0 else d.unseen + n)
            else d1.lacking == d.lacking
                 && d1.unseen == if e.Entered? then e.carried else if e.Resumed? then 0 else d.unseen
  {
    hide SidesListed, Triggers;
    if e.Checked? && e.reply.Ok? && e.reply.positions == [] {
      assert Find(e.reply.positions, c.symbol, e.want).None?;
    }
  }

  lemma {:induction false} LackingCounts(c: Config, h: History)
    ensures Sum(c, h).lacking == |Lacking(c, h)|
    ensures Sum(c, h).unseen == |LackingSince(c, h)| + CarriedMisses(c, h)
  {
    hide Add, Sum, SumThen, Safe, SafeThen, ListsIt, Lacks;
    SumOf(c, h);
    if h.Then? {
      AddLacking(c, Sum(c, h.past), h.last);
      LackingCounts(c, h.past);
    }
  }

  /** The side and the entry time recorded when the position was opened. */
  function OpenedOn(c: Config, h: History): Side {
    OpenedSide(c, Sum(c, h))
  }

  function OpenedAt(h: History): Option<real> {
    match h
    case Began(s) => s.entryTime
    case Then(past, e) =>
      if e.Entered? then Some(e.at) else if e.Resumed? then Some(e.since) else OpenedAt(past)
  }

  lemma AddSince(c: Config, d: Digest, e: Event)
    ensures Add(c, d, e).since
         == if e.Entered? then Some(e.at) else if e.Resumed? then Some(e.since) else d.since
  {
    hide SidesListed, LackingAfter, Triggers;
  }

  lemma {:induction false} SinceIsOpenedAt(c: Config, h: History)
    ensures Sum(c, h).since == OpenedAt(h)
  {
    hide Add, Sum, SumThen, Safe, SafeThen;
    SumOf(c, h);
    if h.Then? {
      AddSince(c, Sum(c, h.past), h.last);
      SinceIsOpenedAt(c, h.past);
    }
  }

  predicate Proof(c: Config, h: History, ev: Evidence) {
    match ev
    case ByOwnOrder(id) => SentClose(h, id)
    case ByFill(side, at, since) =>
      && side == CloseSide(OpenedOn(c, h) == Short)
      && OpenedAt(h) == Some(since) && at >= since - FILL_TIME_SLACK
    case ByTwoReplies => |LackingSince(c, h)| + CarriedMisses(c, h) >= 2
  }

  lemma SafeGone(c: Config, h: History, past: History, ev: Evidence)
    requires Safe(c, h) && Within(Then(past, Gone(ev)), h)
    ensures Proof(c, past, ev)
  {
    hide Sum, SumThen, Safe, SafeThen;
    SafeWithin(c, Then(past, Gone(ev)), h);
    Grows(c, past, Gone(ev));
    match ev
    case ByOwnOrder(id) => SentCloseIsId(c, past, id);
    case ByFill(_, _, _) => SinceIsOpenedAt(c, past);
    case ByTwoReplies => LackingCounts(c, past);
  }

  /** The position was given up with evidence: its own order's fill, a closing-side fill not
      before its entry, or two replies since its entry that list other positions, with none that
      lists it in between; a miss left over from an earlier position counts as one of them. */
  lemma GoneOnlyWithProof(c: Config, s: Saved, steps: seq<Step>, past: History, ev: Evidence)
    requires Loadable(c, s) && Within(Then(past, Gone(ev)), Run(c, Init(c, s), steps).history)
    ensures Proof(c, past, ev)
  {
    hide Run, Init, Safe;
    EveryRunIsSafe(c, s, steps);
    SafeGone(c, Run(c, Init(c, s), steps).history, past, ev);
  }

  /** Every way a tracked position is given up, and what stands before it in the history. */
  lemma GivenUpOnlyWithEvidence(c: Config, s: Saved, steps: seq<Step>, past: History, e: Event)
    requires Loadable(c, s) && Within(Then(past, e), Run(c, Init(c, s), steps).history)
    requires GivesUp(e)
    ensures (e.Booked? && e.kind == ExternalClose) || e.FlipCleaned? ==>
              past.Then? && past.last.Gone? && Proof(c, past.past, past.last.evidence)
    ensures e.Booked? && e.kind != ExternalClose ==> CloseSeen(c, past, Sum(c, past))
    ensures e.SideCleared? ==> OtherSideSeen(c, past, Sum(c, past))
  {
    hide Run, Init, Sum, SumThen, Safe, SafeThen;
    EventIsOk(c, s, steps, past, e);
    if past.Then? && past.last.Gone? {
      WithinPast(Then(past, e), Run(c, Init(c, s), steps).history);
      GoneOnlyWithProof(c, s, steps, past.past, past.last.evidence);
    }
  }

  lemma {:induction false} WithinPast(p: History, h: History)
    requires p.Then? && Within(p, h)
    ensures Within(p.past, h)
    decreases h
  {
    if p == h {
      assert Within(p.past, h.past);
    } else {
      WithinPast(p, h.past);
    }
  }

  // ---- a close needs a look at the broker in the same tick ----

  /** Some reply since the tick began lists the symbol on the side. */
  predicate ListedThisTick(c: Config, h: History, side: Side) {
    match h
    case Began(_) => false
    case Then(past, e) =>
      !e.TickBegan? && (((e.Checked? || e.AskedAtExit?) && e.reply.Ok? && Lists(e.reply.positions, c.symbol, Some(side)))
                        || ListedThisTick(c, past, side))
  }

  lemma AddListed(c: Config, d: Digest, e: Event, side: Side)
    ensures side in Add(c, d, e).listed
       <==> !e.TickBegan? && (side in d.listed || ((e.Checked? || e.AskedAtExit?) && side in SidesListed(c, e.reply)))
  {
    hide SidesListed, LackingAfter, Triggers;
  }

  lemma {:induction false} ListedIsThisTick(c: Config, h: History, side: Side)
    ensures side in Sum(c, h).listed <==> ListedThisTick(c, h, side)
  {
    hide Add, Sum, SumThen, Safe, SafeThen;
    SumOf(c, h);
    if h.Then? {
      AddListed(c, Sum(c, h.past), h.last, side);
      ListedIsThisTick(c, h.past, side);
    }
  }

  /** e, if it is an accepted close, is on the side of the position and listed in its tick. */
  predicate ClosesListed(c: Config, past: History, e: Event) {
    e.CloseAccepted? ==> e.onSide == Some(OpenedOn(c, past)) && ListedThisTick(c, past, OpenedOn(c, past))
  }

  lemma SafeCloses(c: Config, h: History, past: History, e: Event)
    requires Safe(c, h) && Within(Then(past, e), h)
    ensures ClosesListed(c, past, e)
  {
    hide Sum, SumThen, Safe, SafeThen;
    SafeWithin(c, Then(past, e), h);
    Grows(c, past, e);
    ListedIsThisTick(c, past, OpenedOn(c, past));
  }

  lemma CloseOnlyWhenListed(c: Config, s: Saved, steps: seq<Step>, past: History, e: Event)
    requires Loadable(c, s) && Within(Then(past, e), Run(c, Init(c, s), steps).history)
    requires e.CloseAccepted?
    ensures e.onSide == Some(OpenedOn(c, past)) && ListedThisTick(c, past, OpenedOn(c, past))
  {
    hide Run, Init, Safe;
    EveryRunIsSafe(c, s, steps);
    SafeCloses(c, Run(c, Init(c, s), steps).history, past, e);
  }

  // ---- one close and one count per bar ----

  predicate Ascending(bars: seq<int>) {
    forall i, j | 0 <= i < j < |bars| :: bars[i] < bars[j]
  }

  /** The bars of the accepted closes, oldest first. */
  function ClosedBars(h: History): seq<int> {
    match h
    case Began(_) => []
    case Then(past, e) => ClosedBars(past) + if e.CloseAccepted? then [e.closeBar] else []
  }

  /** The bars counted toward the time stop. */
  function CountedBars(h: History): seq<int> {
    match h
    case Began(_) => []
    case Then(past, e) => CountedBars(past) + if e.Evaluated? then [e.bar] else []
  }

  function Newest(bars: seq<int>): Option<int> {
    if bars == [] then None else Some(bars[|bars| - 1])
  }

  lemma {:induction false} RisingIsAscending(h: History)
    ensures var n := RunnerBars.Tally(h);
            && n.closed == Newest(ClosedBars(h)) && n.counted == Newest(CountedBars(h))
            && (n.rising <==> Ascending(ClosedBars(h)) && Ascending(CountedBars(h)))
  {
    if h.Then? {
      RisingIsAscending(h.past);
      RunnerBars.Adds(h.past, h.last);
      var closed, counted := ClosedBars(h.past), CountedBars(h.past);
      assert closed + [] == closed && counted + [] == counted;
      if h.last.CloseAccepted? {
        AscendingAppend(closed, h.last.closeBar);
      } else if h.last.Evaluated? {
        AscendingAppend(counted, h.last.bar);
      }
    }
  }

  lemma AscendingAppend(bars: seq<int>, b: int)
    ensures Ascending(bars + [b]) <==> Ascending(bars) && (Newest(bars).Some? ==> Newest(bars).value < b)
  {
    var more := bars + [b];
    if Ascending(more) {
      forall i, j | 0 <= i < j < |bars| ensures bars[i] < bars[j] {
        assert more[i] < more[j];
      }
      if bars != [] { assert more[|bars| - 1] < more[|bars|]; }
    }
  }

  /** In one runner's life, over all paths of a tick and all retries, every bar gets at most one
      accepted close and is counted at most once, in the order of the bars. */
  lemma OneClosePerBar(c: Config, s: Saved, steps: seq<Step>)
    requires RunnerBars.BarsRise(c, Init(c, s), steps)
    ensures var h := Run(c, Init(c, s), steps).history;
            Ascending(ClosedBars(h)) && Ascending(CountedBars(h))
  {
    RunnerBars.EveryRunIsMarked(c, s, steps);
    RisingIsAscending(Run(c, Init(c, s), steps).history);
  }

  // ---- the time stop ----

  /** The events after which the count of bars starts again. */
  predicate Restarts(e: Event) {
    GivesUp(e) || e.Entered?
  }

  /** The bars counted since then. */
  function BarsHeld(h: History): seq<int> {
    match h
    case Began(_) => []
    case Then(past, e) =>
      if Restarts(e) then [] else BarsHeld(past) + if e.Evaluated? then [e.bar] else []
  }

  /** The bars the position had when the run began, while it is that position. */
  function BarsBefore(h: History): nat {
    match h
    case Began(s) => if s.barCount > 0 then s.barCount else 0
    case Then(past, e) => if Restarts(e) then 0 else BarsBefore(past)
  }

  lemma AddCounted(c: Config, d: Digest, e: Event)
    ensures Add(c, d, e).counted == if Restarts(e) then 0 else d.counted + if e.Evaluated? then 1 else 0
  {
    hide SidesListed, LackingAfter, Triggers;
  }

  lemma {:induction false} CountedIsBarsHeld(c: Config, h: History)
    ensures Sum(c, h).counted == BarsBefore(h) + |BarsHeld(h)|
  {
    hide Add, Sum, SumThen, Safe, SafeThen;
    SumOf(c, h);
    if h.Then? {
      AddCounted(c, Sum(c, h.past), h.last);
      CountedIsBarsHeld(c, h.past);
    }
  }

  lemma {:induction false} HeldIsSuffix(h: History)
    ensures |BarsHeld(h)| <= |CountedBars(h)|
    ensures BarsHeld(h) == CountedBars(h)[|CountedBars(h)| - |BarsHeld(h)|..]
  {
    if h.Then? { HeldIsSuffix(h.past); }
  }

  /** The time stop never fires before max_bars_held distinct bars were counted for the position,
      with the bars it was saved with. */
  lemma TimeStopTakesItsBars(c: Config, s: Saved, steps: seq<Step>, past: History, bar: int, limit: Option<int>,
                             hold: Hold)
    requires Loadable(c, s) && RunnerBars.BarsRise(c, Init(c, s), steps)
    requires Within(Then(past, Evaluated(bar, Some(TimeStop), limit, hold)), Run(c, Init(c, s), steps).history)
    ensures var held := BarsHeld(Then(past, Evaluated(bar, Some(TimeStop), limit, hold)));
            limit.Some? && Ascending(held) && BarsBefore(past) + |held| >= limit.value
  {
    hide Run, Init, Safe, Sum;
    var e := Evaluated(bar, Some(TimeStop), limit, hold);
    EventIsOk(c, s, steps, past, e);
    CountedIsBarsHeld(c, past);
    OneClosePerBar(c, s, steps);
    HeldAscending(Then(past, e), Run(c, Init(c, s), steps).history);
  }

  lemma HeldAscending(p: History, h: History)
    requires Within(p, h) && Ascending(CountedBars(h))
    ensures Ascending(BarsHeld(p))
  {
    hide CountedBars, BarsHeld, Within;
    HeldIsSuffix(p);
    CountedWithin(p, h);
    var all, mine, held := CountedBars(h), CountedBars(p), BarsHeld(p);
    var k := |mine| - |held|;
    forall i, j | 0 <= i < j < |held| ensures held[i] < held[j] {
      assert all[k + i] < all[k + j];
      assert held[i] == mine[k + i] == all[k + i] && held[j] == mine[k + j] == all[k + j];
    }
  }

  lemma {:induction false} CountedWithin(p: History, h: History)
    requires Within(p, h)
    ensures CountedBars(p) <= CountedBars(h)
    decreases h
  {
    if p != h { CountedWithin(p, h.past); }
  }

  // ---- the post-loss counters ----

  /** The reasons of the booked exits, oldest first. */
  function Reasons(h: History): seq<Reason> {
    match h
    case Began(_) => []
    case Then(past, e) => Reasons(past) + if e.Booked? then [e.reason] else []
  }

  /** Which exits count for a trigger. */
  predicate Counts(reason: Reason, t: Trigger) {
    (reason == StopLoss && t != OnTrail) || (reason == TrailingStop && t != OnStop)
  }

  /** n is the length of the longest suffix of reasons that count for the trigger. */
  predicate LongestSuffix(reasons: seq<Reason>, t: Trigger, n: nat) {
    && n <= |reasons|
    && (forall k | |reasons| - n <= k < |reasons| :: Counts(reasons[k], t))
    && (n < |reasons| ==> !Counts(reasons[|reasons| - n - 1], t))
  }

  function Started(h: History): Saved {
    match h
    case Began(s) => s
    case Then(past, _) => Started(past)
  }

  /** The count goes on from the saved one while every exit of the run counts. */
  ghost predicate CountsSuffix(h: History, t: Trigger, losses: nat) {
    exists n: nat :: LongestSuffix(Reasons(h), t, n)
                     && losses == n + (if n == |Reasons(h)| then Started(h).consecStops else 0)
  }

  lemma AddLosses(c: Config, d: Digest, e: Event)
    ensures Add(c, d, e).losses
         == if !e.Booked? then d.losses else if Counts(e.reason, c.sizingTrigger) then d.losses + 1 else 0
  {
    hide SidesListed, LackingAfter;
  }

  lemma {:induction false} LossesAreSuffix(c: Config, h: History)
    ensures CountsSuffix(h, c.sizingTrigger, Sum(c, h).losses)
  {
    hide Add, Sum, SumThen, Safe, SafeThen;
    SumOf(c, h);
    var t := c.sizingTrigger;
    if h.Began? {
      assert LongestSuffix(Reasons(h), t, 0);
    } else {
      AddLosses(c, Sum(c, h.past), h.last);
      LossesAreSuffix(c, h.past);
      var before := Reasons(h.past);
      var n: nat :| LongestSuffix(before, t, n)
                    && Sum(c, h.past).losses == n + (if n == |before| then Started(h.past).consecStops else 0);
      if h.last.Booked? {
        SuffixGrows(before, h.last.reason, t, n);
        var m: nat := if Counts(h.last.reason, t) then n + 1 else 0;
        assert LongestSuffix(Reasons(h), t, m);
      } else {
        assert Reasons(h) == before;
        assert LongestSuffix(Reasons(h), t, n);
      }
    }
  }

  lemma SuffixGrows(before: seq<Reason>, r: Reason, t: Trigger, n: nat)
    requires LongestSuffix(before, t, n)
    ensures LongestSuffix(before + [r], t, if Counts(r, t) then n + 1 else 0)
  {
  }

  lemma ConsecCountsTheSuffix(c: Config, s: Saved, steps: seq<Step>)
    requires Loadable(c, s)
    ensures var w := Run(c, Init(c, s), steps); CountsSuffix(w.history, c.sizingTrigger, w.consecStops)
  {
    EveryRunIsSafe(c, s, steps);
    LossesAreSuffix(c, Run(c, Init(c, s), steps).history);
  }

  /** The candidates to drop: set by the last qualifying stop, or saved with the bot. */
  function Quota(c: Config, h: History): int {
    match h
    case Began(s) => s.skipLeft
    case Then(past, e) => if Sets(c, e) then c.skipCount else Quota(c, past)
  }

  predicate Sets(c: Config, e: Event) {
    e.Booked? && c.skipOn && Counts(e.reason, c.skipTrigger)
  }

  /** The candidates dropped since then. */
  function SkippedSince(c: Config, h: History): nat {
    match h
    case Began(_) => 0
    case Then(past, e) =>
      if Sets(c, e) then 0 else SkippedSince(c, past) + if e.CandidateSkipped? then 1 else 0
  }

  lemma AddSkips(c: Config, d: Digest, e: Event)
    ensures var d1 := Add(c, d, e);
            && d1.quota == (if Sets(c, e) then c.skipCount else d.quota)
            && d1.skips == if Sets(c, e) then 0 else d.skips + if e.CandidateSkipped? then 1 else 0
  {
    hide SidesListed, LackingAfter;
  }

  lemma {:induction false} SkipsAreCounted(c: Config, h: History)
    requires Safe(c, h)
    ensures Sum(c, h).quota == Quota(c, h) && Sum(c, h).skips == SkippedSince(c, h)
    ensures SkippedSince(c, h) == 0 || SkippedSince(c, h) <= Quota(c, h)
  {
    hide Add, Sum, SumThen, Safe, SafeThen;
    SumOf(c, h);
    if h.Then? {
      Grows(c, h.past, h.last);
      AddSkips(c, Sum(c, h.past), h.last);
      SkipsAreCounted(c, h.past);
    }
  }

  lemma SkipsAreOk(c: Config, h: History, d: Digest, e: Event)
    requires EventOk(c, h, d, e)
    ensures e.CandidatePassed? ==> d.skips >= d.quota
    ensures e.CandidateSkipped? ==> d.skips < d.quota
    ensures e.Entered? ==> JustPassed(h)
  {
    hide GoodEvidence, CloseSeen, OtherSideSeen;
  }

  /** Between a qualifying stop and the next entry exactly the configured number of candidates
      that reach the skip check is dropped; none is dropped after that. */
  lemma EntryAfterExactSkips(c: Config, s: Saved, steps: seq<Step>, past: History, e: Event)
    requires Loadable(c, s) && Within(Then(past, e), Run(c, Init(c, s), steps).history)
    ensures e.CandidatePassed? ==>
              SkippedSince(c, past) == if Quota(c, past) > 0 then Quota(c, past) else 0
    ensures e.CandidateSkipped? ==> SkippedSince(c, past) < Quota(c, past)
    ensures e.Entered? ==> past.Then? && past.last.CandidatePassed?
  {
    hide Quota, SkippedSince, EventOk, Run, Init, Sum, SumThen, Safe, SafeThen;
    EventIsOk(c, s, steps, past, e);
    SkipsAreOk(c, past, Sum(c, past), e);
    SkipsAreCounted(c, past);
  }

  // ---- once the code failed ----

  /** The bot's code failed in this run, or the run began in the exits-only state. */
  predicate CodeHasFailed(c: Config, h: History) {
    match h
    case Began(s) => c.graph && s.exitsOnly
    case Then(past, e) => e.CodeFailed? || CodeHasFailed(c, past)
  }

  /** A signal exit was decided but not sent when the code failed. */
  predicate OwesSignal(h: History) {
    match h
    case Began(_) => false
    case Then(past, e) => if e.CodeFailed? then e.owes else OwesSignal(past)
  }

  /** The bar that exit was kept for. */
  function OwedBar(h: History): Option<int> {
    match h
    case Began(_) => None
    case Then(past, e) => if e.CodeFailed? then e.onBar else OwedBar(past)
  }

  /** Signal closes accepted since the code failed. */
  function SignalsSinceFailure(h: History): nat {
    match h
    case Began(_) => 0
    case Then(past, e) =>
      if e.CodeFailed? then 0
      else SignalsSinceFailure(past) + if e.CloseAccepted? && e.why == Signal then 1 else 0
  }

  lemma TraceStep(c: Config, h: History)
    ensures h.Began? ==> RunnerTraces.TraceOf(c, h) == RunnerTraces.Start(c, h.start)
    ensures h.Then? ==> RunnerTraces.TraceOf(c, h) == RunnerTraces.AddTo(RunnerTraces.TraceOf(c, h.past), h.last)
  {
    if h.Then? { RunnerTraces.Adds(c, h.past, h.last); }
  }

  lemma AddOwed(t: RunnerTraces.Trace, e: Event)
    ensures var t1 := RunnerTraces.AddTo(t, e);
            && t1.failed == (e.CodeFailed? || t.failed)
            && t1.owed == if e.CodeFailed? then (if e.owes then e.onBar else None)
                          else if e.CloseAccepted? && e.why == Signal then None else t.owed
  {
  }

  lemma {:induction false} OwedIsUnsent(c: Config, h: History)
    ensures var t := RunnerTraces.TraceOf(c, h);
            && t.failed == CodeHasFailed(c, h)
            && (t.owed.Some? ==> OwesSignal(h) && OwedBar(h) == t.owed && SignalsSinceFailure(h) == 0)
  {
    TraceStep(c, h);
    hide RunnerTraces.TraceOf, RunnerTraces.TraceThen, RunnerTraces.AddTo;
    if h.Then? {
      AddOwed(RunnerTraces.TraceOf(c, h.past), h.last);
      OwedIsUnsent(c, h.past);
    }
  }

  /** What a run keeps, it kept at every moment before. */
  lemma {:induction false} KeptWithin(c: Config, p: History, h: History)
    requires Within(p, h)
    ensures RunnerTraces.TraceOf(c, h).onlyOwed ==> RunnerTraces.TraceOf(c, p).onlyOwed
    ensures RunnerTraces.TraceOf(c, h).timely ==> RunnerTraces.TraceOf(c, p).timely
    decreases h
  {
    if p != h {
      RunnerTraces.Adds(c, h.past, h.last);
      KeptWithin(c, p, h.past);
    }
  }

  predicate MayHoldUntracked(c: Config, h: History) {
    match h
    case Began(s) => c.graph && s.exitsOnly
    case Then(past, e) => if e.CodeFailed? then e.mayHold else MayHoldUntracked(c, past)
  }

  /** A tracked position was given up since the tick began. */
  predicate GaveUpThisTick(h: History) {
    match h
    case Began(_) => false
    case Then(past, e) =>
      !e.TickBegan? && (GivesUp(e) || GaveUpThisTick(past))
  }

  lemma AddFailure(c: Config, d: Digest, e: Event)
    ensures var d1 := Add(c, d, e);
            && d1.failed == (e.CodeFailed? || d.failed)
            && d1.owes == (if e.CodeFailed? then e.owes else d.owes)
            && d1.mayHold == (if e.CodeFailed? then e.mayHold else d.mayHold)
            && d1.dropped == (!e.TickBegan? && (GivesUp(e) || d.dropped))
  {
    hide SidesListed, LackingAfter, Triggers;
  }

  lemma {:induction false} FailureIsKnown(c: Config, h: History)
    ensures var d := Sum(c, h);
            && d.failed == CodeHasFailed(c, h) && d.owes == OwesSignal(h)
            && d.mayHold == MayHoldUntracked(c, h) && d.dropped == GaveUpThisTick(h)
  {
    hide Add, Sum, SumThen, Safe, SafeThen;
    SumOf(c, h);
    if h.Then? {
      AddFailure(c, Sum(c, h.past), h.last);
      FailureIsKnown(c, h.past);
    }
  }

  lemma SignalIsOwed(c: Config, past: History, e: Event)
    requires RunnerTraces.TraceOf(c, Then(past, e)).onlyOwed && CodeHasFailed(c, past) && e.CloseAccepted? && e.why == Signal
    ensures OwesSignal(past) && OwedBar(past) == Some(e.closeBar) && SignalsSinceFailure(past) == 0
  {
    hide RunnerTraces.TraceOf, RunnerTraces.TraceThen;
    RunnerTraces.Adds(c, past, e);
    OwedIsUnsent(c, past);
  }

  /** Once code fails the bot enters nothing, and every close it sends is a price exit, or the signal
      exit that was kept when it failed: on the bar it was kept for, and once. */
  lemma NoEntryNoSignalAfterFailure(c: Config, s: Saved, steps: seq<Step>, past: History, e: Event)
    requires Loadable(c, s) && Within(Then(past, e), Run(c, Init(c, s), steps).history)
    requires CodeHasFailed(c, past)
    ensures !e.Entered? && !e.CandidatePassed? && !e.CandidateSkipped?
    ensures e.CloseAccepted? ==>
              IsPriceExit(e.why)
              || (e.why == Signal && OwesSignal(past) && OwedBar(past) == Some(e.closeBar) && SignalsSinceFailure(past) == 0)
  {
    hide Run, Init, Sum, SumThen, Safe, SafeThen, RunnerTraces.TraceOf, RunnerTraces.TraceThen;
    EventIsOk(c, s, steps, past, e);
    FailureIsKnown(c, past);
    RunnerTraces.EveryRunTies(c, s, steps);
    KeptWithin(c, Then(past, e), Run(c, Init(c, s), steps).history);
    if e.CloseAccepted? && e.why == Signal { SignalIsOwed(c, past, e); }
  }

  /** When bars rise nothing was sent on that bar before: the signal exit had been left unsent. */
  lemma OwedSignalWasUnsent(c: Config, s: Saved, steps: seq<Step>, past: History, e: Event)
    requires RunnerBars.BarsRise(c, Init(c, s), steps) && Within(Then(past, e), Run(c, Init(c, s), steps).history)
    requires e.CloseAccepted?
    ensures forall b <- ClosedBars(past) :: b < e.closeBar
  {
    hide Run, Init;
    var h := Run(c, Init(c, s), steps).history;
    OneClosePerBar(c, s, steps);
    ClosedWithin(Then(past, e), h);
    var all, before := ClosedBars(h), ClosedBars(past);
    assert ClosedBars(Then(past, e)) == before + [e.closeBar];
    forall b <- before ensures b < e.closeBar {
      var k :| 0 <= k < |before| && before[k] == b;
      assert all[k] == b && all[|before|] == e.closeBar;
    }
  }

  lemma {:induction false} ClosedWithin(p: History, h: History)
    requires Within(p, h)
    ensures ClosedBars(p) <= ClosedBars(h)
    decreases h
  {
    if p != h { ClosedWithin(p, h.past); }
  }

  /** The pause that ends it comes only when nothing is tracked; a bot that may hold a position it
      does not track gave one up in the same tick, or saw two replies that list other positions. */
  lemma PausesOnlyWhenFlat(c: Config, s: Saved, steps: seq<Step>, past: History)
    requires Loadable(c, s) && Within(Then(past, PausedForCode), Run(c, Init(c, s), steps).history)
    ensures CodeHasFailed(c, past) && Opened(past) == GivenUp(past)
    ensures MayHoldUntracked(c, past) ==> GaveUpThisTick(past) || |Lacking(c, past)| >= 2
  {
    hide Run, Init, Sum, SumThen, Safe, SafeThen;
    EventIsOk(c, s, steps, past, PausedForCode);
    FailureIsKnown(c, past);
    BalanceIsLedger(c, past);
    LackingCounts(c, past);
  }
}
