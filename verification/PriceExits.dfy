/** The price exits of an open position: backend/exits.py, `_price_exit_reason`. */
module PriceExits {
  import opened BotTypes

  datatype TrailKind = Percent | Atr | UnknownKind

  /** fromExtreme: the peak follows the bar's high (long) or low (short), not its close. */
  datatype Trail = Trail(kind: TrailKind, value: real, fromExtreme: bool,
                         onProfit: bool, activatePct: real)

  /** The exit settings in force for one direction. */
  datatype Rules = Rules(stopPct: Option<real>, trail: Option<Trail>, maxBars: Option<int>)

  /** A bot's settings: a common set and one per direction (B25). */
  datatype Settings = Settings(common: Rules, long: Rules, short: Rules)

  datatype Quote = Quote(price: real, high: real, low: real, atr: real)

  /** What the bot remembers about an open position. */
  datatype Hold = Hold(entry: real, bars: int, peak: Option<real>, stop: Option<real>)

  predicate TruthyInt(x: Option<int>) {
    x.Some? && x.value != 0
  }

  /** The per-direction value when it is set, else the common one; only a position whose
      direction is tracked has per-direction values. */
  function Resolve(s: Settings, dir: Option<Side>): Rules {
    match dir
    case None => s.common
    case Some(d) =>
      var own := if d == Long then s.long else s.short;
      Rules(if Truthy(own.stopPct) then own.stopPct else s.common.stopPct,
            if own.trail.Some? then own.trail else s.common.trail,
            if TruthyInt(own.maxBars) then own.maxBars else s.common.maxBars)
  }

  /** The price the peak follows. */
  function Source(t: Trail, short: bool, q: Quote): real {
    if !t.fromExtreme then q.price else if short then q.low else q.high
  }

  predicate Activated(t: Trail, short: bool, entry: real, source: real) {
    !t.onProfit
    || (if short then source <= entry * (1.0 - t.activatePct / 100.0)
        else source >= entry * (1.0 + t.activatePct / 100.0))
  }

  /** True when a is the better price for the side: higher for a long, lower for a short. */
  predicate Better(short: bool, a: real, b: real) {
    if short then a < b else a > b
  }

  function StartPeak(h: Hold): real {
    if h.peak.Some? then h.peak.value else h.entry
  }

  function NextPeak(h: Hold, t: Trail, short: bool, q: Quote): real {
    var src := Source(t, short, q);
    if Activated(t, short, h.entry, src) && Better(short, src, StartPeak(h)) then src else StartPeak(h)
  }

  function PercentFactor(t: Trail, short: bool): real {
    if short then 1.0 + t.value / 100.0 else 1.0 - t.value / 100.0
  }

  /** A peak scaled by the trail's factor. */
  function Scale(p: real, f: real): real {
    p * f
  }

  function AtrStop(t: Trail, short: bool, peak: real, atr: real): real {
    if short then peak + t.value * atr else peak - t.value * atr
  }

  function NextStop(t: Trail, short: bool, peak: real, before: Option<real>, atr: real): Option<real> {
    match t.kind
    case Percent => Some(Scale(peak, PercentFactor(t, short)))
    case Atr => if atr == 0.0 then before
                else Some(AtrStop(t, short, peak, atr))
    case UnknownKind => before
  }

  /** The bar is counted and the trailing stop moves. */
  function Advance(h: Hold, r: Rules, short: bool, q: Quote): Hold {
    var counted := h.(bars := h.bars + 1);
    match r.trail
    case None => counted
    case Some(t) =>
      var peak := NextPeak(h, t, short, q);
      counted.(peak := Some(peak), stop := NextStop(t, short, peak, h.stop, q.atr))
  }

  predicate Hit(short: bool, price: real, level: real) {
    if short then price >= level else price <= level
  }

  predicate StopDue(h: Hold, r: Rules, short: bool, price: real) {
    Truthy(r.stopPct) && h.entry != 0.0
    && Hit(short, price, if short then h.entry * (1.0 + r.stopPct.value / 100.0)
                         else h.entry * (1.0 - r.stopPct.value / 100.0))
  }

  predicate TrailDue(h: Hold, r: Rules, short: bool, price: real) {
    r.trail.Some? && Truthy(h.stop) && Hit(short, price, h.stop.value)
  }

  /** The exit due on the bar, in order of priority, for a hold already advanced. */
  function Due(h: Hold, r: Rules, short: bool, price: real): Option<Reason> {
    if StopDue(h, r, short, price) then Some(StopLoss)
    else if TrailDue(h, r, short, price) then Some(TrailingStop)
    else if TruthyInt(r.maxBars) && h.bars >= r.maxBars.value then Some(TimeStop)
    else None
  }

  /** The hold after a run of bars. */
  function AfterBars(h: Hold, r: Rules, short: bool, qs: seq<Quote>): Hold
    decreases |qs|
  {
    if qs == [] then h else AfterBars(Advance(h, r, short, qs[0]), r, short, qs[1..])
  }

  /** The first bar with an exit, and which one. */
  function FirstExit(h: Hold, r: Rules, short: bool, qs: seq<Quote>): Option<(nat, Reason)>
    decreases |qs|
  {
    if qs == [] then None
    else
      var h1 := Advance(h, r, short, qs[0]);
      match Due(h1, r, short, qs[0].price)
      case Some(reason) => Some((0, reason))
      case None =>
        match FirstExit(h1, r, short, qs[1..])
        case None => None
        case Some((k, reason)) => Some((k + 1, reason))
  }

  // ---- the peak is the best activated price, whatever the bars ----

  /** a is at least as good as b for the side. */
  predicate AtLeast(short: bool, a: real, b: real) {
    !Better(short, b, a)
  }

  lemma {:induction false} AfterBarsKeeps(h: Hold, r: Rules, short: bool, qs: seq<Quote>)
    ensures AfterBars(h, r, short, qs).entry == h.entry
    ensures AfterBars(h, r, short, qs).bars == h.bars + |qs|
    decreases |qs|
  {
    if qs != [] {
      AfterBarsKeeps(Advance(h, r, short, qs[0]), r, short, qs[1..]);
    }
  }

  /** The peak and the stop do not depend on the count of bars. */
  lemma {:induction false} CountDoesNotMatter(h: Hold, n: int, r: Rules, short: bool, qs: seq<Quote>)
    ensures AfterBars(h.(bars := n), r, short, qs) == AfterBars(h, r, short, qs).(bars := n + |qs|)
    decreases |qs|
  {
    if qs != [] {
      var h1 := Advance(h, r, short, qs[0]);
      assert Advance(h.(bars := n), r, short, qs[0]) == h1.(bars := n + 1);
      CountDoesNotMatter(h1, n + 1, r, short, qs[1..]);
    }
  }

  /** After any bars the peak is the best of its start and the activated source prices: no
      such price beats it, and it is one of them. */
  lemma {:induction false} PeakIsBestActivated(h: Hold, r: Rules, short: bool, qs: seq<Quote>)
    requires r.trail.Some? && |qs| > 0
    ensures var t := r.trail.value;
            var peak := AfterBars(h, r, short, qs).peak;
            && peak.Some?
            && AtLeast(short, peak.value, StartPeak(h))
            && (forall k | 0 <= k < |qs| ::
                 Activated(t, short, h.entry, Source(t, short, qs[k])) ==>
                   AtLeast(short, peak.value, Source(t, short, qs[k])))
            && (peak.value == StartPeak(h)
                || exists k | 0 <= k < |qs| :: Activated(t, short, h.entry, Source(t, short, qs[k]))
                                               && peak.value == Source(t, short, qs[k]))
    decreases |qs|
  {
    var t := r.trail.value;
    var h1 := Advance(h, r, short, qs[0]);
    if |qs| == 1 {
      assert AfterBars(h1, r, short, qs[1..]) == h1;
    } else {
      PeakIsBestActivated(h1, r, short, qs[1..]);
      var peak := AfterBars(h, r, short, qs).peak;
      assert peak == AfterBars(h1, r, short, qs[1..]).peak;
      forall k | 0 <= k < |qs| && Activated(t, short, h.entry, Source(t, short, qs[k]))
        ensures AtLeast(short, peak.value, Source(t, short, qs[k]))
      {
        if k > 0 { assert qs[k] == qs[1..][k - 1]; }
      }
      if peak.value != StartPeak(h1) {
        var k :| 0 <= k < |qs| - 1 && Activated(t, short, h1.entry, Source(t, short, qs[1..][k]))
                 && peak.value == Source(t, short, qs[1..][k]);
        assert qs[1..][k] == qs[k + 1];
      }
    }
  }

  // ---- a percent trail only tightens, for every bar sequence, exactly when its value allows ----

  lemma ScaleKeepsOrder(a: real, b: real, f: real)
    requires f >= 0.0 && a <= b
    ensures Scale(a, f) <= Scale(b, f)
  {
  }

  lemma {:induction false} PercentTrailTightens(h: Hold, r: Rules, short: bool, qs: seq<Quote>)
    requires r.trail.Some? && r.trail.value.kind == Percent && PercentFactor(r.trail.value, short) >= 0.0
    requires h.peak.Some? && h.stop == Some(Scale(h.peak.value, PercentFactor(r.trail.value, short)))
    ensures var after := AfterBars(h, r, short, qs);
            after.stop.Some? && AtLeast(short, after.stop.value, h.stop.value)
    decreases |qs|
  {
    if qs != [] {
      var h1 := Advance(h, r, short, qs[0]);
      var f := PercentFactor(r.trail.value, short);
      if short { ScaleKeepsOrder(h1.peak.value, h.peak.value, f); }
      else { ScaleKeepsOrder(h.peak.value, h1.peak.value, f); }
      PercentTrailTightens(h1, r, short, qs[1..]);
    }
  }

  /** The percent trail never gives way exactly when its factor is not negative: a long's value
      is at most 100, a short's at least -100. */
  lemma PercentTrailNeverFallsIff(h: Hold, r: Rules, short: bool)
    requires r.trail.Some? && r.trail.value.kind == Percent
    requires h.peak.Some? && h.stop == Some(Scale(h.peak.value, PercentFactor(r.trail.value, short)))
    ensures (forall qs :: var after := AfterBars(h, r, short, qs).stop;
                          after.Some? && AtLeast(short, after.value, h.stop.value))
            <==> PercentFactor(r.trail.value, short) >= 0.0
  {
    var f := PercentFactor(r.trail.value, short);
    if f >= 0.0 {
      forall qs ensures var after := AfterBars(h, r, short, qs).stop;
                        after.Some? && AtLeast(short, after.value, h.stop.value)
      {
        PercentTrailTightens(h, r, short, qs);
      }
    } else {
      var q, p := BetterBar(h, r.trail.value, short);
      assert [q][1..] == [];
      assert AfterBars(h, r, short, [q]) == Advance(h, r, short, q);
      if short { ScaleTurnsOrder(p, h.peak.value, f); } else { ScaleTurnsOrder(h.peak.value, p, f); }
      assert !AtLeast(short, AfterBars(h, r, short, [q]).stop.value, h.stop.value);
    }
  }

  lemma ScaleTurnsOrder(a: real, b: real, f: real)
    requires f < 0.0 && a < b
    ensures Scale(a, f) > Scale(b, f)
  {
    assert (a - b) * f > 0.0;
    assert Scale(a, f) - Scale(b, f) == (a - b) * f;
  }

  /** A bar past the peak and past the level from which the trail is active. */
  lemma BetterBar(h: Hold, t: Trail, short: bool) returns (q: Quote, p: real)
    requires h.peak.Some?
    ensures Better(short, p, h.peak.value) && NextPeak(h, t, short, q) == p
  {
    var level := if short then h.entry * (1.0 - t.activatePct / 100.0) else h.entry * (1.0 + t.activatePct / 100.0);
    var past := h.peak.value + if short then -1.0 else 1.0;
    p := if Better(short, past, level) then past else level;
    q := Quote(p, p, p, 0.0);
    assert Source(t, short, q) == p;
    assert Activated(t, short, h.entry, p);
  }

  // ---- a long and the short reflected about its entry exit alike ----

  function MirrorPrice(e: real, p: real): real {
    2.0 * e - p
  }

  function MirrorOption(e: real, p: Option<real>): Option<real> {
    if p.Some? then Some(MirrorPrice(e, p.value)) else None
  }

  function MirrorQuote(e: real, q: Quote): Quote {
    Quote(MirrorPrice(e, q.price), MirrorPrice(e, q.low), MirrorPrice(e, q.high), q.atr)
  }

  function MirrorQuotes(e: real, qs: seq<Quote>): (ms: seq<Quote>)
    ensures |ms| == |qs|
    ensures forall k | 0 <= k < |qs| :: ms[k] == MirrorQuote(e, qs[k])
  {
    if qs == [] then [] else [MirrorQuote(e, qs[0])] + MirrorQuotes(e, qs[1..])
  }

  function MirrorHold(h: Hold): Hold {
    h.(peak := MirrorOption(h.entry, h.peak), stop := MirrorOption(h.entry, h.stop))
  }

  /** The trail is not a percentage, or one of 0. */
  predicate Symmetric(r: Rules) {
    r.trail.Some? && r.trail.value.kind == Percent ==> r.trail.value.value == 0.0
  }

  lemma MirrorPercent(e: real, pct: real)
    ensures MirrorPrice(e, e * (1.0 + pct / 100.0)) == e * (1.0 - pct / 100.0)
    ensures MirrorPrice(e, e * (1.0 - pct / 100.0)) == e * (1.0 + pct / 100.0)
  {
    assert e * (1.0 + pct / 100.0) == e + e * (pct / 100.0);
    assert e * (1.0 - pct / 100.0) == e - e * (pct / 100.0);
  }

  lemma PeakMirrors(h: Hold, t: Trail, short: bool, q: Quote)
    ensures NextPeak(MirrorHold(h), t, !short, MirrorQuote(h.entry, q)) == MirrorPrice(h.entry, NextPeak(h, t, short, q))
  {
    MirrorPercent(h.entry, t.activatePct);
  }

  lemma AdvanceMirrors(h: Hold, r: Rules, short: bool, q: Quote)
    requires Symmetric(r)
    ensures Advance(MirrorHold(h), r, !short, MirrorQuote(h.entry, q)) == MirrorHold(Advance(h, r, short, q))
  {
    if r.trail.Some? {
      var t := r.trail.value;
      PeakMirrors(h, t, short, q);
      if t.kind == Percent { assert PercentFactor(t, short) == PercentFactor(t, !short) == 1.0; }
    }
  }

  /** No trailing stop reached over the bars is at 0 or at the reflection of 0: the code reads a
      stop at 0 as no stop. */
  predicate NoZeroStop(h: Hold, r: Rules, short: bool, qs: seq<Quote>)
    decreases |qs|
  {
    qs != [] ==>
      var h1 := Advance(h, r, short, qs[0]);
      h1.stop != Some(0.0) && h1.stop != Some(2.0 * h1.entry) && NoZeroStop(h1, r, short, qs[1..])
  }

  lemma DueMirrors(h: Hold, r: Rules, short: bool, price: real)
    requires h.stop != Some(0.0) && h.stop != Some(2.0 * h.entry)
    ensures Due(MirrorHold(h), r, !short, MirrorPrice(h.entry, price)) == Due(h, r, short, price)
  {
    if r.stopPct.Some? { MirrorPercent(h.entry, r.stopPct.value); }
  }

  /** With an ATR trail, a percent trail of 0 or none, reflecting every price about the entry turns a long into a short
      with the same exit, on the same bar, for the same reason. */
  lemma {:induction false} MirrorSameExit(h: Hold, r: Rules, short: bool, qs: seq<Quote>)
    requires Symmetric(r) && NoZeroStop(h, r, short, qs)
    ensures FirstExit(MirrorHold(h), r, !short, MirrorQuotes(h.entry, qs)) == FirstExit(h, r, short, qs)
    decreases |qs|
  {
    if qs != [] {
      var h1 := Advance(h, r, short, qs[0]);
      AdvanceMirrors(h, r, short, qs[0]);
      DueMirrors(h1, r, short, qs[0].price);
      assert MirrorQuotes(h.entry, qs)[1..] == MirrorQuotes(h.entry, qs[1..]);
      MirrorSameExit(h1, r, short, qs[1..]);
    }
  }

  lemma {:induction false} PeaksMirror(h: Hold, r: Rules, short: bool, qs: seq<Quote>)
    requires r.trail.Some?
    ensures var a, m := AfterBars(h, r, short, qs), AfterBars(MirrorHold(h), r, !short, MirrorQuotes(h.entry, qs));
            a.entry == m.entry == h.entry && m.peak == MirrorOption(h.entry, a.peak)
    decreases |qs|
  {
    if qs != [] {
      var h1 := Advance(h, r, short, qs[0]);
      PeakMirrors(h, r.trail.value, short, qs[0]);
      assert MirrorQuotes(h.entry, qs)[1..] == MirrorQuotes(h.entry, qs[1..]);
      var m1 := Advance(MirrorHold(h), r, !short, MirrorQuote(h.entry, qs[0]));
      PeaksMirror(h1, r, short, qs[1..]);
      SamePeaks(m1, MirrorHold(h1), r, !short, MirrorQuotes(h.entry, qs[1..]));
    }
  }

  /** The peaks do not depend on the stop that is kept. */
  lemma {:induction false} SamePeaks(a: Hold, b: Hold, r: Rules, short: bool, qs: seq<Quote>)
    requires r.trail.Some? && a.peak == b.peak && a.entry == b.entry
    ensures AfterBars(a, r, short, qs).peak == AfterBars(b, r, short, qs).peak
    ensures AfterBars(a, r, short, qs).entry == AfterBars(b, r, short, qs).entry
    decreases |qs|
  {
    if qs != [] { SamePeaks(Advance(a, r, short, qs[0]), Advance(b, r, short, qs[0]), r, short, qs[1..]); }
  }

  lemma {:induction false} StopFollowsPeak(h: Hold, r: Rules, short: bool, qs: seq<Quote>)
    requires r.trail.Some? && r.trail.value.kind == Percent && qs != []
    ensures var a := AfterBars(h, r, short, qs);
            a.peak.Some? && a.stop == Some(Scale(a.peak.value, PercentFactor(r.trail.value, short)))
    decreases |qs|
  {
    var h1 := Advance(h, r, short, qs[0]);
    if |qs| > 1 { StopFollowsPeak(h1, r, short, qs[1..]); } else { assert AfterBars(h1, r, short, qs[1..]) == h1; }
  }

  /** After any bars the percent stops of a position and of its reflection are reflections of each
      other if and only if the trail is 0 or the peak is still the entry price. */
  lemma PercentTrailIsSymmetricIff(h: Hold, r: Rules, short: bool, qs: seq<Quote>)
    requires r.trail.Some? && r.trail.value.kind == Percent && qs != []
    ensures var a, m := AfterBars(h, r, short, qs), AfterBars(MirrorHold(h), r, !short, MirrorQuotes(h.entry, qs));
            m.stop == MirrorOption(h.entry, a.stop) <==> r.trail.value.value == 0.0 || a.peak == Some(h.entry)
  {
    PeaksMirror(h, r, short, qs);
    StopFollowsPeak(h, r, short, qs);
    StopFollowsPeak(MirrorHold(h), r, !short, MirrorQuotes(h.entry, qs));
    MirrorScale(h.entry, AfterBars(h, r, short, qs).peak.value, r.trail.value.value / 100.0, short);
  }

  lemma MirrorScale(e: real, peak: real, v: real, short: bool)
    ensures Scale(MirrorPrice(e, peak), if !short then 1.0 + v else 1.0 - v)
            == MirrorPrice(e, Scale(peak, if short then 1.0 + v else 1.0 - v))
            <==> v == 0.0 || peak == e
  {
    var gap := Scale(MirrorPrice(e, peak), if !short then 1.0 + v else 1.0 - v)
               - MirrorPrice(e, Scale(peak, if short then 1.0 + v else 1.0 - v));
    assert gap == (if short then -2.0 else 2.0) * ((e - peak) * v);
    ProductIsZero(e - peak, v);
  }

  lemma ProductIsZero(a: real, b: real)
    ensures a * b == 0.0 <==> a == 0.0 || b == 0.0
  {
  }
}
