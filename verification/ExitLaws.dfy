/** What the price exits promise, in prices and percentages, without the functions that compute them. */
module ExitLaws {
  import opened BotTypes
  import opened PriceExits

  // ---- which exit is due ----

  /** At least pct percent of the entry price is lost at the price. */
  predicate Lost(short: bool, entry: real, pct: real, price: real) {
    (if short then price - entry else entry - price) * 100.0 >= pct * entry
  }

  /** The price is at the level or on its losing side. */
  predicate Past(short: bool, price: real, level: real) {
    if short then level <= price else price <= level
  }

  /** due is the exit of a bar that closes at the price, for a hold that has counted it: the stop loss
      first, then the trailing stop, then the time stop; a setting of 0 is none. */
  predicate ExitLaw(h: Hold, r: Rules, short: bool, price: real, due: Option<Reason>) {
    var stop := r.stopPct.Some? && r.stopPct.value != 0.0 && h.entry != 0.0 && Lost(short, h.entry, r.stopPct.value, price);
    var trail := r.trail.Some? && h.stop.Some? && h.stop.value != 0.0 && Past(short, price, h.stop.value);
    var time := r.maxBars.Some? && r.maxBars.value != 0 && r.maxBars.value <= h.bars;
    && (due == Some(StopLoss) <==> stop)
    && (due == Some(TrailingStop) <==> !stop && trail)
    && (due == Some(TimeStop) <==> !stop && !trail && time)
    && (due.None? <==> !stop && !trail && !time)
  }

  lemma PercentOf(entry: real, pct: real)
    ensures 100.0 * (entry * (1.0 - pct / 100.0)) == 100.0 * entry - pct * entry
    ensures 100.0 * (entry * (1.0 + pct / 100.0)) == 100.0 * entry + pct * entry
  {
    assert entry * (1.0 - pct / 100.0) == entry - entry * (pct / 100.0);
    assert entry * (1.0 + pct / 100.0) == entry + entry * (pct / 100.0);
    assert 100.0 * (entry * (pct / 100.0)) == entry * pct;
  }

  /** The exit found on a bar is the one of the law. */
  lemma DueByLaw(h: Hold, r: Rules, short: bool, price: real)
    ensures ExitLaw(h, r, short, price, Due(h, r, short, price))
  {
    if r.stopPct.Some? { PercentOf(h.entry, r.stopPct.value); }
  }

  /** due is the exit of bar k of a position held over the bars. */
  predicate ExitsAt(h: Hold, r: Rules, short: bool, qs: seq<Quote>, k: nat, due: Option<Reason>)
    requires k < |qs|
  {
    ExitLaw(AfterBars(h, r, short, qs[..k + 1]), r, short, qs[k].price, due)
  }

  lemma FirstBarExits(h: Hold, r: Rules, short: bool, qs: seq<Quote>)
    requires qs != []
    ensures ExitsAt(h, r, short, qs, 0, Due(Advance(h, r, short, qs[0]), r, short, qs[0].price))
  {
    hide Advance, Due;
    DueByLaw(Advance(h, r, short, qs[0]), r, short, qs[0].price);
    assert qs[..1][0] == qs[0] && qs[..1][1..] == [];
    assert AfterBars(h, r, short, qs[..1]) == AfterBars(Advance(h, r, short, qs[0]), r, short, []);
  }

  lemma LaterBarExits(h: Hold, r: Rules, short: bool, qs: seq<Quote>, k: nat, due: Option<Reason>)
    requires k + 1 < |qs|
    ensures ExitsAt(h, r, short, qs, k + 1, due) == ExitsAt(Advance(h, r, short, qs[0]), r, short, qs[1..], k, due)
  {
    hide Advance, ExitLaw;
    assert qs[..k + 2][0] == qs[0] && qs[..k + 2][1..] == qs[1..][..k + 1];
  }

  /** A bar has one exit at most. */
  lemma OneExit(h: Hold, r: Rules, short: bool, qs: seq<Quote>, k: nat, a: Option<Reason>, b: Option<Reason>)
    requires k < |qs| && ExitsAt(h, r, short, qs, k, a) && ExitsAt(h, r, short, qs, k, b)
    ensures a == b
  {
    hide AfterBars;
  }

  /** The first exit over any bars is on bar k for the reason exactly when the law gives that exit there
      and none on the bars before. */
  lemma {:induction false} FirstExitIff(h: Hold, r: Rules, short: bool, qs: seq<Quote>, k: nat, reason: Reason)
    ensures FirstExit(h, r, short, qs) == Some((k, reason))
       <==> && k < |qs| && ExitsAt(h, r, short, qs, k, Some(reason))
            && forall j: nat | j < k :: ExitsAt(h, r, short, qs, j, None)
    decreases |qs|
  {
    hide Advance, Due, ExitsAt;
    if qs != [] {
      var h1 := Advance(h, r, short, qs[0]);
      var due := Due(h1, r, short, qs[0].price);
      FirstBarExits(h, r, short, qs);
      if k == 0 {
        if ExitsAt(h, r, short, qs, 0, Some(reason)) { OneExit(h, r, short, qs, 0, Some(reason), due); }
      } else {
        FirstExitIff(h1, r, short, qs[1..], k - 1, reason);
        if k < |qs| { LaterBarExits(h, r, short, qs, k - 1, Some(reason)); }
        if ExitsAt(h, r, short, qs, 0, None) { OneExit(h, r, short, qs, 0, None, due); }
        forall j: nat | j < k - 1 && k < |qs|
          ensures ExitsAt(h, r, short, qs, j + 1, None) == ExitsAt(h1, r, short, qs[1..], j, None)
        {
          LaterBarExits(h, r, short, qs, j, None);
        }
        if k < |qs| && due.None? && forall j: nat | j < k - 1 :: ExitsAt(h1, r, short, qs[1..], j, None) {
          forall j: nat | j < k ensures ExitsAt(h, r, short, qs, j, None) {
            if j > 0 {
              LaterBarExits(h, r, short, qs, j - 1, None);
              assert ExitsAt(h1, r, short, qs[1..], j - 1, None);
            }
          }
        }
      }
    }
  }

  // ---- the trailing stop ----

  /** The price a trail follows on a bar: its close, or the extreme on the winning side. */
  function Followed(t: Trail, short: bool, q: Quote): real {
    match (t.fromExtreme, short)
    case (false, _) => q.price
    case (true, false) => q.high
    case (true, true) => q.low
  }

  /** The price moves the peak: at once, or only once activatePct percent of the entry price is won. */
  predicate Moves(t: Trail, short: bool, entry: real, p: real) {
    t.onProfit ==> (if short then entry - p else p - entry) * 100.0 >= t.activatePct * entry
  }

  /** a is as good as b for the side, or better. */
  predicate NoWorse(short: bool, a: real, b: real) {
    if short then a <= b else b <= a
  }

  /** The trail's level for a peak: value percent of the peak behind it, or value times the ATR; an ATR
      of 0, or an unknown kind of trail, leaves the level that was there. */
  predicate LevelLaw(t: Trail, short: bool, peak: real, atr: real, before: Option<real>, level: Option<real>) {
    match t.kind
    case Percent => level.Some? && (if short then level.value - peak else peak - level.value) * 100.0 == t.value * peak
    case Atr => if atr == 0.0 then level == before
                else level.Some? && (if short then level.value - peak else peak - level.value) == t.value * atr
    case UnknownKind => level == before
  }

  /** The peak after a bar: no worse than before and than a price that moves it, and one of them. */
  predicate PeakLaw(t: Trail, short: bool, entry: real, start: real, q: Quote, peak: real) {
    var p := Followed(t, short, q);
    && NoWorse(short, peak, start) && (Moves(t, short, entry, p) ==> NoWorse(short, peak, p))
    && (peak == start || (peak == p && Moves(t, short, entry, p)))
  }

  /** What one bar makes of a hold. */
  predicate BarLaw(h: Hold, h1: Hold, r: Rules, short: bool, q: Quote) {
    && h1.entry == h.entry && h1.bars == h.bars + 1
    && (match r.trail
        case None => h1.peak == h.peak && h1.stop == h.stop
        case Some(t) =>
          && h1.peak.Some?
          && PeakLaw(t, short, h.entry, if h.peak.Some? then h.peak.value else h.entry, q, h1.peak.value)
          && LevelLaw(t, short, h1.peak.value, q.atr, h.stop, h1.stop))
  }

  lemma MovesIs(t: Trail, short: bool, entry: real, p: real)
    ensures Moves(t, short, entry, p) <==> Activated(t, short, entry, p)
  {
    PercentOf(entry, t.activatePct);
  }

  lemma LevelByLaw(t: Trail, short: bool, peak: real, atr: real, before: Option<real>)
    ensures LevelLaw(t, short, peak, atr, before, NextStop(t, short, peak, before, atr))
  {
    PercentOf(peak, t.value);
  }

  /** A bar moves a hold as the law says. */
  lemma AdvanceByLaw(h: Hold, r: Rules, short: bool, q: Quote)
    ensures BarLaw(h, Advance(h, r, short, q), r, short, q)
  {
    hide LevelLaw, Moves, Activated, NextStop;
    if r.trail.Some? {
      var t := r.trail.value;
      var peak := NextPeak(h, t, short, q);
      MovesIs(t, short, h.entry, Source(t, short, q));
      LevelByLaw(t, short, peak, q.atr, h.stop);
    }
  }

  /** A hold and a bar settle what the hold is after the bar. */
  lemma BarLawDecides(h: Hold, a: Hold, b: Hold, r: Rules, short: bool, q: Quote)
    requires BarLaw(h, a, r, short, q) && BarLaw(h, b, r, short, q)
    ensures a == b
  {
    hide Moves, PeakLaw, LevelLaw;
    if r.trail.Some? {
      PeakDecides(r.trail.value, short, h.entry, if h.peak.Some? then h.peak.value else h.entry, q, a.peak.value, b.peak.value);
      LevelDecides(r.trail.value, short, a.peak.value, q.atr, h.stop, a.stop, b.stop);
    }
  }

  lemma PeakDecides(t: Trail, short: bool, entry: real, start: real, q: Quote, a: real, b: real)
    requires PeakLaw(t, short, entry, start, q, a) && PeakLaw(t, short, entry, start, q, b)
    ensures a == b
  {
    hide Moves;
  }

  lemma LevelDecides(t: Trail, short: bool, peak: real, atr: real, before: Option<real>, a: Option<real>, b: Option<real>)
    requires LevelLaw(t, short, peak, atr, before, a) && LevelLaw(t, short, peak, atr, before, b)
    ensures a == b
  {
    if a.Some? && b.Some? { assert a.value == b.value; }
  }

  /** The settings in force: those of the tracked direction where they are set and not 0, else the
      common ones. */
  predicate InForce(s: Settings, dir: Option<Side>, r: Rules) {
    if dir.None? then r == s.common
    else
      var own := if dir == Some(Short) then s.short else s.long;
      && r.stopPct == (if own.stopPct.Some? && own.stopPct.value != 0.0 then own.stopPct else s.common.stopPct)
      && r.trail == (if own.trail.Some? then own.trail else s.common.trail)
      && r.maxBars == (if own.maxBars.Some? && own.maxBars.value != 0 then own.maxBars else s.common.maxBars)
  }

  /** The settings a tick uses are those in force. */
  lemma ResolveInForce(s: Settings, dir: Option<Side>)
    ensures InForce(s, dir, Resolve(s, dir))
  {
  }
}
