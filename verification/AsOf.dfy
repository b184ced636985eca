/** The as-of loop of backend/turnaround_validation.py, `run_validation`. */
module AsOf {
  import opened BotTypes

  datatype Date = Date(y: int, m: int, d: int)

  predicate IsDate(t: Date) {
    1 <= t.m <= 12 && 1 <= t.d <= 31
  }

  /** Dates in calendar order. */
  function Ord(t: Date): int {
    (t.y * 12 + t.m - 1) * 31 + t.d - 1
  }

  predicate Before(a: Date, b: Date) {
    Ord(a) < Ord(b)
  }

  datatype Bar = Bar(on: Date, close: real)
  datatype Candidate = Candidate(ticker: string, bars: seq<Bar>)

  /** What the candidate source gives for one as-of date. */
  datatype Day = Day(asOf: Date, failed: bool, signal: seq<Candidate>, nulls: seq<Candidate>)

  datatype Request = Request(months: nat, short: bool, threshold: real)

  datatype Event = Event(ticker: string, asOf: Date, entry: Date, entryClose: real, horizon: Date, exit: Date, exitClose: real)

  /** One cohort: the cooldown book, the events and the two counters. */
  datatype Book = Book(open: map<string, Date>, events: seq<Event>, suppressed: nat, truncated: nat)

  datatype Cohorts = Cohorts(signal: Book, nulls: Book)

  const EMPTY := Book(map[], [], 0, 0)

  /** _horizon_end_date: the day is cut to 28. */
  function HorizonEnd(entry: Date, months: nat): Date {
    var month := entry.m - 1 + months;
    Date(entry.y + month / 12, month % 12 + 1, if entry.d < 28 then entry.d else 28)
  }

  /** The first bar on or after the date. */
  function FirstFrom(bars: seq<Bar>, on: Date): Option<Bar> {
    if bars == [] then None else if !Before(bars[0].on, on) then Some(bars[0]) else FirstFrom(bars[1..], on)
  }

  /** The newest date of the frame. */
  function Newest(bars: seq<Bar>): Date
    requires bars != []
  {
    if |bars| == 1 then bars[0].on
    else
      var rest := Newest(bars[..|bars| - 1]);
      if Before(rest, bars[|bars| - 1].on) then bars[|bars| - 1].on else rest
  }

  predicate Touches(r: Request, entryClose: real, close: real) {
    if r.short then close <= entryClose * (1.0 - r.threshold) else close >= entryClose * (1.0 + r.threshold)
  }

  /** The scan for the take-profit touch, up to the first bar past the horizon. */
  function FirstTouch(bars: seq<Bar>, entry: Bar, horizon: Date, r: Request): Option<Bar> {
    if bars == [] then None
    else if !Before(entry.on, bars[0].on) then FirstTouch(bars[1..], entry, horizon, r)
    else if Before(horizon, bars[0].on) then None
    else if Touches(r, entry.close, bars[0].close) then Some(bars[0])
    else FirstTouch(bars[1..], entry, horizon, r)
  }

  /** The last row on or before the date. */
  function LastUpTo(bars: seq<Bar>, on: Date): Option<Bar> {
    if bars == [] then None
    else if !Before(on, bars[|bars| - 1].on) then Some(bars[|bars| - 1])
    else LastUpTo(bars[..|bars| - 1], on)
  }

  /** The exit of an event: the touch, else the last close up to the horizon. */
  function Exit(bars: seq<Bar>, entry: Bar, horizon: Date, r: Request): Option<Bar> {
    var touch := FirstTouch(bars, entry, horizon, r);
    if touch.Some? then touch
    else
      var last := LastUpTo(bars, horizon);
      if last.Some? then Some(Bar(horizon, last.value.close)) else None
  }

  /** One candidate: suppressed while an earlier event of the ticker is open, skipped without an
      entry bar, counted as truncated when the data ends before its horizon. */
  function Consider(b: Book, asOf: Date, c: Candidate, r: Request): Book {
    if c.ticker in b.open && !Before(b.open[c.ticker], asOf) then b.(suppressed := b.suppressed + 1)
    else
      match FirstFrom(c.bars, asOf)
      case None => b
      case Some(entry) => if entry.close <= 0.0 then b else Enter(b, asOf, c, r, entry)
  }

  function Enter(b: Book, asOf: Date, c: Candidate, r: Request, entry: Bar): Book {
    var horizon := HorizonEnd(entry.on, r.months);
    if c.bars == [] || Before(Newest(c.bars), horizon) then b.(truncated := b.truncated + 1)
    else
      var registered := b.(open := b.open[c.ticker := horizon]);
      match Exit(c.bars, entry, horizon, r)
      case None => registered
      case Some(exit) =>
        registered.(events := registered.events + [Event(c.ticker, asOf, entry.on, entry.close, horizon, exit.on, exit.close)])
  }

  function ConsiderAll(b: Book, asOf: Date, cs: seq<Candidate>, r: Request): Book {
    if cs == [] then b else Consider(ConsiderAll(b, asOf, cs[..|cs| - 1], r), asOf, cs[|cs| - 1], r)
  }

  /** A date whose source failed changes nothing. */
  function OneDay(k: Cohorts, day: Day, r: Request): Cohorts {
    if day.failed then k
    else Cohorts(ConsiderAll(k.signal, day.asOf, day.signal, r), ConsiderAll(k.nulls, day.asOf, day.nulls, r))
  }

  /** A run that never times out. */
  function AllDays(days: seq<Day>, r: Request): Cohorts {
    if days == [] then Cohorts(EMPTY, EMPTY) else OneDay(AllDays(days[..|days| - 1], r), days[|days| - 1], r)
  }

  // ---- windows of one ticker never overlap ----

  lemma HorizonIsLater(entry: Date, months: nat)
    requires IsDate(entry) && months >= 1
    ensures IsDate(HorizonEnd(entry, months)) && Before(entry, HorizonEnd(entry, months))
  {
    var month := entry.m - 1 + months;
    assert month == 12 * (month / 12) + month % 12;
  }

  /** [entry, horizon] of the first ends before that of the second begins. */
  predicate Apart(a: Event, b: Event) {
    a.ticker == b.ticker ==> Before(a.horizon, b.entry)
  }

  predicate AllApart(es: seq<Event>) {
    forall i, j | 0 <= i < j < |es| :: Apart(es[i], es[j])
  }

  // ---- what an event is made of, read off its candidate's bars ----

  /** Bar k is the first on or after the date. */
  predicate StartsAt(bars: seq<Bar>, on: Date, k: nat)
    requires k < |bars|
  {
    !Before(bars[k].on, on) && forall j | 0 <= j < k :: Before(bars[j].on, on)
  }

  /** h is the months after the entry, on its day or on the 28th. */
  predicate EndsOn(entry: Date, months: nat, h: Date) {
    h.y * 12 + h.m == entry.y * 12 + entry.m + months && 1 <= h.m <= 12 && h.d <= entry.d && h.d <= 28 && (h.d == entry.d || h.d == 28)
  }

  /** At least the threshold is won on the entry close. */
  predicate Won(r: Request, entryClose: real, close: real) {
    (if r.short then entryClose - close else close - entryClose) >= r.threshold * entryClose
  }

  /** Bar n is after the entry, up to the horizon, and wins the threshold. */
  predicate WinsAt(bars: seq<Bar>, entry: Bar, h: Date, r: Request, n: nat)
    requires n < |bars|
  {
    Before(entry.on, bars[n].on) && !Before(h, bars[n].on) && Won(r, entry.close, bars[n].close)
  }

  /** Bar n is the first that wins, with none past the horizon before it. */
  predicate TakesAt(bars: seq<Bar>, entry: Bar, h: Date, r: Request, n: nat)
    requires n < |bars|
  {
    && WinsAt(bars, entry, h, r, n)
    && forall j | 0 <= j < n :: !WinsAt(bars, entry, h, r, j) && !(Before(entry.on, bars[j].on) && Before(h, bars[j].on))
  }

  /** Bar n is the last on or before the date. */
  predicate LastAt(bars: seq<Bar>, on: Date, n: nat)
    requires n < |bars|
  {
    !Before(on, bars[n].on) && forall j | n < j < |bars| :: Before(on, bars[j].on)
  }

  /** The exit: the first bar that wins, else the horizon at the close of the last bar up to it. */
  predicate ExitLaw(bars: seq<Bar>, entry: Bar, h: Date, r: Request, exit: Bar) {
    && (forall n: nat | n < |bars| && TakesAt(bars, entry, h, r, n) :: exit == bars[n])
    && ((forall n: nat | n < |bars| :: !TakesAt(bars, entry, h, r, n)) ==>
          exit.on == h && exists n: nat | n < |bars| :: LastAt(bars, h, n) && exit.close == bars[n].close)
  }

  /** e is the event of the candidate on the as-of date. */
  predicate MadeFrom(e: Event, asOf: Date, c: Candidate, r: Request) {
    && e.ticker == c.ticker && e.asOf == asOf && e.entryClose > 0.0
    && (exists k: nat | k < |c.bars| :: StartsAt(c.bars, asOf, k) && c.bars[k] == Bar(e.entry, e.entryClose))
    && EndsOn(e.entry, r.months, e.horizon)
    && (exists b <- c.bars :: !Before(b.on, e.horizon))
    && ExitLaw(c.bars, Bar(e.entry, e.entryClose), e.horizon, r, Bar(e.exit, e.exitClose))
  }

  lemma {:induction false} FirstFromIs(bars: seq<Bar>, on: Date)
    ensures match FirstFrom(bars, on)
            case None => forall b <- bars :: Before(b.on, on)
            case Some(f) => exists k: nat | k < |bars| :: StartsAt(bars, on, k) && bars[k] == f
  {
    if bars != [] {
      FirstFromIs(bars[1..], on);
      if !Before(bars[0].on, on) {
        assert StartsAt(bars, on, 0);
      } else if FirstFrom(bars, on).Some? {
        var k: nat :| k < |bars| - 1 && StartsAt(bars[1..], on, k) && bars[1..][k] == FirstFrom(bars, on).value;
        forall j | 0 <= j < k + 1 ensures Before(bars[j].on, on) { if j > 0 { assert bars[j] == bars[1..][j - 1]; } }
        assert StartsAt(bars, on, k + 1) && bars[k + 1] == bars[1..][k];
      }
    }
  }

  lemma HorizonEndsOn(entry: Date, months: nat)
    requires 1 <= entry.m <= 12
    ensures EndsOn(entry, months, HorizonEnd(entry, months))
  {
    var month := entry.m - 1 + months;
    assert month == 12 * (month / 12) + month % 12;
  }

  lemma WonIsTouch(r: Request, entryClose: real, close: real)
    ensures Touches(r, entryClose, close) <==> Won(r, entryClose, close)
  {
    assert entryClose * (1.0 - r.threshold) == entryClose - r.threshold * entryClose;
    assert entryClose * (1.0 + r.threshold) == entryClose + r.threshold * entryClose;
  }

  lemma TakesLater(bars: seq<Bar>, entry: Bar, h: Date, r: Request, n: nat)
    requires n + 1 < |bars| && !WinsAt(bars, entry, h, r, 0) && !(Before(entry.on, bars[0].on) && Before(h, bars[0].on))
    ensures TakesAt(bars, entry, h, r, n + 1) <==> TakesAt(bars[1..], entry, h, r, n)
  {
    hide Won;
    assert bars[1..][n] == bars[n + 1];
    forall j | 0 <= j < n ensures WinsAt(bars[1..], entry, h, r, j) == WinsAt(bars, entry, h, r, j + 1) && bars[1..][j] == bars[j + 1] {}
    if TakesAt(bars[1..], entry, h, r, n) {
      forall j | 0 <= j < n + 1
        ensures !WinsAt(bars, entry, h, r, j) && !(Before(entry.on, bars[j].on) && Before(h, bars[j].on))
      {
        if j > 0 { assert !WinsAt(bars[1..], entry, h, r, j - 1); }
      }
    }
  }

  lemma {:induction false} FirstTouchIs(bars: seq<Bar>, entry: Bar, h: Date, r: Request)
    ensures match FirstTouch(bars, entry, h, r)
            case None => forall n: nat | n < |bars| :: !TakesAt(bars, entry, h, r, n)
            case Some(f) => exists n: nat | n < |bars| :: TakesAt(bars, entry, h, r, n) && bars[n] == f
  {
    hide Touches, Won;
    if bars != [] {
      WonIsTouch(r, entry.close, bars[0].close);
      FirstTouchIs(bars[1..], entry, h, r);
      if WinsAt(bars, entry, h, r, 0) {
        assert TakesAt(bars, entry, h, r, 0);
      } else if !(Before(entry.on, bars[0].on) && Before(h, bars[0].on)) {
        TouchLater(bars, entry, h, r);
      }
    }
  }

  /** The first bar neither wins nor ends the scan. */
  lemma TouchLater(bars: seq<Bar>, entry: Bar, h: Date, r: Request)
    requires bars != [] && !WinsAt(bars, entry, h, r, 0) && !(Before(entry.on, bars[0].on) && Before(h, bars[0].on))
    ensures (exists n: nat | n < |bars| :: TakesAt(bars, entry, h, r, n)) <==> (exists n: nat | n < |bars| - 1 :: TakesAt(bars[1..], entry, h, r, n))
    ensures forall n: nat | n < |bars| - 1 && TakesAt(bars[1..], entry, h, r, n) :: TakesAt(bars, entry, h, r, n + 1) && bars[n + 1] == bars[1..][n]
  {
    hide WinsAt, TakesAt;
    forall n: nat | n < |bars| - 1 ensures TakesAt(bars, entry, h, r, n + 1) <==> TakesAt(bars[1..], entry, h, r, n) {
      TakesLater(bars, entry, h, r, n);
    }
    if n: nat :| n < |bars| && TakesAt(bars, entry, h, r, n) {
      TakesWins(bars, entry, h, r, n);
      assert n > 0 && TakesAt(bars[1..], entry, h, r, n - 1);
    }
  }

  lemma TakesWins(bars: seq<Bar>, entry: Bar, h: Date, r: Request, n: nat)
    requires n < |bars| && TakesAt(bars, entry, h, r, n)
    ensures WinsAt(bars, entry, h, r, n) && Before(entry.on, bars[n].on) && !Before(h, bars[n].on)
  {
    hide Won;
  }

  lemma OneTake(bars: seq<Bar>, entry: Bar, h: Date, r: Request, n: nat, m: nat)
    requires n < |bars| && m < |bars| && TakesAt(bars, entry, h, r, n) && TakesAt(bars, entry, h, r, m)
    ensures n == m
  {
    hide Won;
  }

  lemma {:induction false} LastUpToIs(bars: seq<Bar>, on: Date)
    ensures match LastUpTo(bars, on)
            case None => forall b <- bars :: Before(on, b.on)
            case Some(l) => exists n: nat | n < |bars| :: LastAt(bars, on, n) && bars[n] == l
  {
    if bars != [] {
      var m := |bars| - 1;
      LastUpToIs(bars[..m], on);
      if !Before(on, bars[m].on) {
        assert LastAt(bars, on, m);
      } else if LastUpTo(bars, on).Some? {
        var n: nat :| n < m && LastAt(bars[..m], on, n) && bars[..m][n] == LastUpTo(bars, on).value;
        forall j | n < j < |bars| ensures Before(on, bars[j].on) { if j < m { assert bars[j] == bars[..m][j]; } }
        assert LastAt(bars, on, n);
      }
    }
  }

  /** An exit there is, unless every bar is past the horizon; and it is the one of the law. */
  lemma ExitIs(bars: seq<Bar>, entry: Bar, h: Date, r: Request)
    ensures match Exit(bars, entry, h, r)
            case None => forall b <- bars :: Before(h, b.on)
            case Some(exit) => ExitLaw(bars, entry, h, r, exit)
  {
    hide FirstTouch, LastUpTo, TakesAt, LastAt;
    FirstTouchIs(bars, entry, h, r);
    LastUpToIs(bars, h);
    var f := FirstTouch(bars, entry, h, r);
    if f.Some? {
      forall n: nat | n < |bars| && TakesAt(bars, entry, h, r, n) ensures f.value == bars[n] {
        var m: nat :| m < |bars| && TakesAt(bars, entry, h, r, m) && bars[m] == f.value;
        OneTake(bars, entry, h, r, n, m);
      }
    }
  }

  predicate InOrder(bars: seq<Bar>) {
    forall i, j | 0 <= i < j < |bars| :: !Before(bars[j].on, bars[i].on)
  }

  /** Over bars in date order the first bar that wins decides, and without one the horizon does. */
  lemma OrderedExit(bars: seq<Bar>, entry: Bar, h: Date, r: Request, exit: Bar)
    requires InOrder(bars) && ExitLaw(bars, entry, h, r, exit)
    ensures forall n: nat | n < |bars| && WinsAt(bars, entry, h, r, n) && (forall j: nat | j < n :: !WinsAt(bars, entry, h, r, j)) :: exit == bars[n]
    ensures (forall n: nat | n < |bars| :: !WinsAt(bars, entry, h, r, n)) ==>
              exit.on == h && exists n: nat | n < |bars| :: LastAt(bars, h, n) && exit.close == bars[n].close
  {
    hide Won, LastAt;
    forall n: nat | n < |bars| && WinsAt(bars, entry, h, r, n) && (forall j: nat | j < n :: !WinsAt(bars, entry, h, r, j))
      ensures TakesAt(bars, entry, h, r, n)
    {
      forall j: nat | j < n ensures !Before(h, bars[j].on) { assert !Before(bars[n].on, bars[j].on); }
    }
  }

  lemma {:induction false} NewestIs(bars: seq<Bar>)
    requires bars != []
    ensures exists b <- bars :: b.on == Newest(bars)
    ensures forall b <- bars :: !Before(Newest(bars), b.on)
  {
    if |bars| > 1 {
      var m := |bars| - 1;
      NewestIs(bars[..m]);
      forall b <- bars ensures !Before(Newest(bars), b.on) {
        var k :| 0 <= k < |bars| && bars[k] == b;
        if k < m { assert bars[..m][k] in bars[..m]; }
      }
      var b :| b in bars[..m] && b.on == Newest(bars[..m]);
      assert b in bars && bars[m] in bars;
    } else {
      assert bars[0] in bars;
    }
  }

  /** What one candidate does to the book: suppressed while a window of its ticker is open; nothing without
      a bar from the date on, or with a close of 0 or less there; truncated when every bar is before the
      horizon; else its window opens, and its event is made from its bars. */
  predicate Considered(b: Book, asOf: Date, c: Candidate, r: Request, b1: Book) {
    if c.ticker in b.open && !Before(b.open[c.ticker], asOf) then b1 == b.(suppressed := b.suppressed + 1)
    else if forall x <- c.bars :: Before(x.on, asOf) then b1 == b
    else exists k: nat | k < |c.bars| :: StartsAt(c.bars, asOf, k) && EnteredAt(b, asOf, c, r, c.bars[k], b1)
  }

  predicate EnteredAt(b: Book, asOf: Date, c: Candidate, r: Request, entry: Bar, b1: Book) {
    var h := HorizonEnd(entry.on, r.months);
    if entry.close <= 0.0 then b1 == b
    else if forall x <- c.bars :: Before(x.on, h) then b1 == b.(truncated := b.truncated + 1)
    else
      && b1.open == b.open[c.ticker := h] && b1.suppressed == b.suppressed && b1.truncated == b.truncated
      && if forall x <- c.bars :: Before(h, x.on) then b1.events == b.events
         else |b1.events| == |b.events| + 1 && b1.events[..|b.events|] == b.events
              && b1.events[|b.events|].horizon == h && MadeFrom(b1.events[|b.events|], asOf, c, r)
  }

  lemma EnterIs(b: Book, asOf: Date, c: Candidate, r: Request, k: nat)
    requires k < |c.bars| && StartsAt(c.bars, asOf, k) && c.bars[k].close > 0.0 && 1 <= c.bars[k].on.m <= 12
    ensures EnteredAt(b, asOf, c, r, c.bars[k], Enter(b, asOf, c, r, c.bars[k]))
  {
    hide Exit, ExitLaw, HorizonEnd, Newest, StartsAt, EndsOn;
    var entry := c.bars[k];
    var h := HorizonEnd(entry.on, r.months);
    HorizonEndsOn(entry.on, r.months);
    NewestIs(c.bars);
    var newest :| newest in c.bars && newest.on == Newest(c.bars);
    ExitIs(c.bars, entry, h, r);
    if Exit(c.bars, entry, h, r).Some? {
      ExitFound(c.bars, entry, h, r, Exit(c.bars, entry, h, r).value);
      assert entry == Bar(entry.on, entry.close);
    }
  }

  /** A bar up to the horizon there is, when there is an exit. */
  lemma ExitFound(bars: seq<Bar>, entry: Bar, h: Date, r: Request, exit: Bar)
    requires ExitLaw(bars, entry, h, r, exit)
    ensures !(forall x <- bars :: Before(h, x.on))
  {
    hide Won;
    if n: nat :| n < |bars| && TakesAt(bars, entry, h, r, n) { assert bars[n] in bars; }
    else { var n: nat :| n < |bars| && LastAt(bars, h, n); assert bars[n] in bars; }
  }

  /** One candidate becomes an event, or does not, as the date, its bars and its open window say. */
  lemma ConsiderIs(b: Book, asOf: Date, c: Candidate, r: Request)
    requires AllDates(c.bars)
    ensures Considered(b, asOf, c, r, Consider(b, asOf, c, r))
  {
    hide FirstFrom, Enter, EnteredAt, StartsAt;
    FirstFromIs(c.bars, asOf);
    var f := FirstFrom(c.bars, asOf);
    if f.Some? {
      var k: nat :| k < |c.bars| && StartsAt(c.bars, asOf, k) && c.bars[k] == f.value;
      assert c.bars[k] in c.bars;
      StartsFrom(c.bars, asOf, k);
      if f.value.close > 0.0 { EnterIs(b, asOf, c, r, k); } else { NoEntry(b, asOf, c, r, f.value); }
    }
  }

  lemma StartsFrom(bars: seq<Bar>, on: Date, k: nat)
    requires k < |bars| && StartsAt(bars, on, k)
    ensures !(forall x <- bars :: Before(x.on, on))
  {
    assert bars[k] in bars;
  }

  lemma NoEntry(b: Book, asOf: Date, c: Candidate, r: Request, entry: Bar)
    requires entry.close <= 0.0
    ensures EnteredAt(b, asOf, c, r, entry, b)
  {
  }

  // ---- every run ----

  /** The candidates of one cohort. */
  function Cohort(day: Day, nulls: bool): seq<Candidate> {
    if nulls then day.nulls else day.signal
  }

  /** e is the event of a candidate of a date whose source did not fail. */
  predicate Traced(e: Event, days: seq<Day>, nulls: bool, r: Request) {
    exists day <- days :: !day.failed && exists c <- Cohort(day, nulls) :: MadeFrom(e, day.asOf, c, r)
  }

  /** Every event is made from a candidate's bars, is a window with its exit inside it, and is no later
      than what the book has open for its ticker; windows of one ticker are apart. */
  predicate BookOk(b: Book, days: seq<Day>, nulls: bool, r: Request) {
    && AllApart(b.events)
    && forall e <- b.events ::
         && Traced(e, days, nulls, r)
         && Before(e.entry, e.horizon) && !Before(e.entry, e.asOf)
         && Before(e.entry, e.exit) && !Before(e.horizon, e.exit)
         && e.ticker in b.open && !Before(b.open[e.ticker], e.horizon)
  }

  predicate AllDates(bars: seq<Bar>) {
    forall b <- bars :: IsDate(b.on)
  }

  lemma MadeInside(e: Event, asOf: Date, c: Candidate, r: Request)
    requires MadeFrom(e, asOf, c, r) && Before(e.entry, e.horizon)
    ensures !Before(e.entry, asOf) && Before(e.entry, e.exit) && !Before(e.horizon, e.exit)
  {
    hide Won, EndsOn;
    var entry, exit := Bar(e.entry, e.entryClose), Bar(e.exit, e.exitClose);
    if n: nat :| n < |c.bars| && TakesAt(c.bars, entry, e.horizon, r, n) { assert exit == c.bars[n]; }
  }

  /** One candidate keeps the book. */
  lemma ConsiderKeeps(b: Book, days: seq<Day>, nulls: bool, day: Day, c: Candidate, r: Request)
    requires BookOk(b, days, nulls, r) && day in days && !day.failed && c in Cohort(day, nulls)
    requires AllDates(c.bars) && r.months >= 1
    ensures BookOk(Consider(b, day.asOf, c, r), days, nulls, r)
  {
    hide Consider, MadeFrom, StartsAt, HorizonEnd, Traced;
    var b1 := Consider(b, day.asOf, c, r);
    ConsiderIs(b, day.asOf, c, r);
    if b1.events != b.events {
      var k: nat :| k < |c.bars| && StartsAt(c.bars, day.asOf, k) && EnteredAt(b, day.asOf, c, r, c.bars[k], b1);
      var e := b1.events[|b.events|];
      assert b1.events == b.events + [e];
      assert c.bars[k] in c.bars;
      HorizonIsLater(c.bars[k].on, r.months);
      TracedNow(e, days, nulls, day, c, r);
      MadeAt(e, day.asOf, c, r, k);
      MadeInside(e, day.asOf, c, r);
      forall i | 0 <= i < |b.events| ensures Apart(b.events[i], e) { assert b.events[i] in b.events; }
    }
    if b1.open != b.open && b1.events == b.events {
      var k: nat :| k < |c.bars| && StartsAt(c.bars, day.asOf, k) && EnteredAt(b, day.asOf, c, r, c.bars[k], b1);
      StartsLater(c.bars, day.asOf, k);
      assert c.bars[k] in c.bars;
      HorizonIsLater(c.bars[k].on, r.months);
    }
  }

  lemma StartsLater(bars: seq<Bar>, on: Date, k: nat)
    requires k < |bars| && StartsAt(bars, on, k)
    ensures !Before(bars[k].on, on)
  {
  }

  lemma MadeAt(e: Event, asOf: Date, c: Candidate, r: Request, k: nat)
    requires MadeFrom(e, asOf, c, r) && k < |c.bars| && StartsAt(c.bars, asOf, k)
    ensures e.entry == c.bars[k].on && e.ticker == c.ticker && e.asOf == asOf
  {
    hide ExitLaw, EndsOn;
    var m: nat :| m < |c.bars| && StartsAt(c.bars, asOf, m) && c.bars[m] == Bar(e.entry, e.entryClose);
    assert m == k;
  }

  lemma TracedNow(e: Event, days: seq<Day>, nulls: bool, day: Day, c: Candidate, r: Request)
    requires day in days && !day.failed && c in Cohort(day, nulls) && MadeFrom(e, day.asOf, c, r)
    ensures Traced(e, days, nulls, r)
  {
    hide MadeFrom;
  }

  lemma MoreDays(b: Book, days: seq<Day>, nulls: bool, r: Request)
    requires days != [] && BookOk(b, days[..|days| - 1], nulls, r)
    ensures BookOk(b, days, nulls, r)
  {
    hide MadeFrom;
    forall e <- b.events ensures Traced(e, days, nulls, r) {
      var day :| day in days[..|days| - 1] && !day.failed && exists c <- Cohort(day, nulls) :: MadeFrom(e, day.asOf, c, r);
      assert day in days;
    }
  }

  predicate DaysOk(days: seq<Day>) {
    forall d <- days :: (forall c <- d.signal :: AllDates(c.bars)) && forall c <- d.nulls :: AllDates(c.bars)
  }

  lemma {:induction false} ConsiderAllKeeps(b: Book, days: seq<Day>, nulls: bool, day: Day, cs: seq<Candidate>, r: Request)
    requires BookOk(b, days, nulls, r) && day in days && !day.failed && cs <= Cohort(day, nulls)
    requires (forall c <- cs :: AllDates(c.bars)) && r.months >= 1
    ensures BookOk(ConsiderAll(b, day.asOf, cs, r), days, nulls, r)
  {
    hide BookOk;
    if cs != [] {
      var n := |cs| - 1;
      ConsiderAllKeeps(b, days, nulls, day, cs[..n], r);
      assert cs[n] in cs && cs[n] == Cohort(day, nulls)[n];
      ConsiderKeeps(ConsiderAll(b, day.asOf, cs[..n], r), days, nulls, day, cs[n], r);
    }
  }

  /** In every run over any as-of dates and candidates every event of a cohort is made from a candidate's
      bars, its exit falls inside its window, and the windows of one ticker are disjoint. */
  lemma {:induction false} WindowsAreDisjoint(days: seq<Day>, r: Request)
    requires DaysOk(days) && r.months >= 1
    ensures BookOk(AllDays(days, r).signal, days, false, r) && BookOk(AllDays(days, r).nulls, days, true, r)
  {
    hide BookOk;
    if days != [] {
      var n := |days| - 1;
      WindowsAreDisjoint(days[..n], r);
      var k, day := AllDays(days[..n], r), days[n];
      assert day in days;
      MoreDays(k.signal, days, false, r);
      MoreDays(k.nulls, days, true, r);
      if !day.failed {
        ConsiderAllKeeps(k.signal, days, false, day, day.signal, r);
        ConsiderAllKeeps(k.nulls, days, true, day, day.nulls, r);
      }
    } else {
      EmptyBook(r);
    }
  }

  lemma EmptyBook(r: Request)
    ensures BookOk(EMPTY, [], false, r) && BookOk(EMPTY, [], true, r)
  {
  }

  // ---- the loop with its wall-clock budget ----

  /** The looks at the clock over a day: one at its start, one per candidate. */
  function Looks(day: Day): nat {
    1 + if day.failed then 0 else |day.signal| + |day.nulls|
  }

  function AllLooks(days: seq<Day>): nat {
    if days == [] then 0 else AllLooks(days[..|days| - 1]) + Looks(days[|days| - 1])
  }

  function DaysDone(days: seq<Day>): nat {
    if days == [] then 0 else DaysDone(days[..|days| - 1]) + if days[|days| - 1].failed then 0 else 1
  }

  /** _first_trading_close_on_or_after. */
  method FirstEntry(bars: seq<Bar>, on: Date) returns (entry: Option<Bar>)
    ensures entry == FirstFrom(bars, on)
  {
    var k := 0;
    while k < |bars|
      invariant 0 <= k <= |bars| && FirstFrom(bars, on) == FirstFrom(bars[k..], on)
    {
      assert bars[k..][1..] == bars[k + 1..];
      if !Before(bars[k].on, on) { return Some(bars[k]); }
      k := k + 1;
    }
    return None;
  }

  method NewestDate(bars: seq<Bar>) returns (newest: Date)
    requires bars != []
    ensures newest == Newest(bars)
  {
    newest := bars[0].on;
    var k := 1;
    while k < |bars|
      invariant 1 <= k <= |bars| && newest == Newest(bars[..k])
    {
      assert bars[..k + 1][..k] == bars[..k];
      if Before(newest, bars[k].on) { newest := bars[k].on; }
      k := k + 1;
    }
    assert bars[..|bars|] == bars;
  }

  /** _close_at_or_before. */
  method CloseUpTo(bars: seq<Bar>, on: Date) returns (last: Option<Bar>)
    ensures last == LastUpTo(bars, on)
  {
    last := None;
    var k := 0;
    while k < |bars|
      invariant 0 <= k <= |bars| && last == LastUpTo(bars[..k], on)
    {
      assert bars[..k + 1][..k] == bars[..k];
      if !Before(on, bars[k].on) { last := Some(bars[k]); }
      k := k + 1;
    }
    assert bars[..|bars|] == bars;
  }

  /** The take-profit scan and the horizon-end close. */
  method FindExit(bars: seq<Bar>, entry: Bar, horizon: Date, r: Request) returns (exit: Option<Bar>)
    ensures exit == Exit(bars, entry, horizon, r)
  {
    var k := 0;
    while k < |bars| && (!Before(entry.on, bars[k].on) || !Before(horizon, bars[k].on))
      invariant 0 <= k <= |bars|
      invariant FirstTouch(bars, entry, horizon, r) == FirstTouch(bars[k..], entry, horizon, r)
    {
      assert bars[k..][1..] == bars[k + 1..];
      if Before(entry.on, bars[k].on) && Touches(r, entry.close, bars[k].close) { return Some(bars[k]); }
      k := k + 1;
    }
    assert FirstTouch(bars[k..], entry, horizon, r).None?;
    var last := CloseUpTo(bars, horizon);
    exit := if last.Some? then Some(Bar(horizon, last.value.close)) else None;
  }

  /** A cohort of one date: its open horizons change at once, its events and counters are buffered. */
  datatype Buffer = Buffer(open: map<string, Date>, events: seq<Event>, suppressed: nat, truncated: nat)

  function Merged(b: Book, f: Buffer): Book {
    Book(f.open, b.events + f.events, b.suppressed + f.suppressed, b.truncated + f.truncated)
  }

  method ConsiderOne(ghost b: Book, f: Buffer, asOf: Date, c: Candidate, r: Request) returns (f1: Buffer)
    ensures Merged(b, f1) == Consider(Merged(b, f), asOf, c, r)
  {
    f1 := f;
    if c.ticker in f.open && !Before(f.open[c.ticker], asOf) {
      f1 := f1.(suppressed := f1.suppressed + 1);
      return;
    }
    var entry := FirstEntry(c.bars, asOf);
    if entry.None? || entry.value.close <= 0.0 { return; }
    f1 := EnterOne(b, f, asOf, c, r, entry.value);
  }

  method EnterOne(ghost b: Book, f: Buffer, asOf: Date, c: Candidate, r: Request, entry: Bar) returns (f1: Buffer)
    ensures Merged(b, f1) == Enter(Merged(b, f), asOf, c, r, entry)
  {
    hide Exit, Newest;
    f1 := f;
    var horizon := HorizonEnd(entry.on, r.months);
    var truncated := c.bars == [];
    if !truncated {
      var newest := NewestDate(c.bars);
      truncated := Before(newest, horizon);
    }
    if truncated {
      f1 := f1.(truncated := f1.truncated + 1);
      return;
    }
    f1 := f1.(open := f1.open[c.ticker := horizon]);
    var exit := FindExit(c.bars, entry, horizon, r);
    if exit.Some? {
      var e := Event(c.ticker, asOf, entry.on, entry.close, horizon, exit.value.on, exit.value.close);
      assert b.events + (f1.events + [e]) == b.events + f1.events + [e];
      f1 := f1.(events := f1.events + [e]);
    }
  }

  /** One cohort of one date, looking at the clock before each candidate. */
  method ConsiderCohort(ghost b: Book, open: map<string, Date>, asOf: Date, cs: seq<Candidate>, r: Request, looks: nat, budget: nat)
    returns (f: Buffer, used: nat, late: bool)
    requires open == b.open
    ensures !late ==> Merged(b, f) == ConsiderAll(b, asOf, cs, r) && used == looks + |cs|
    ensures late <==> |cs| > 0 && looks + |cs| > budget
  {
    f, used, late := Buffer(open, [], 0, 0), looks, false;
    assert b.events + [] == b.events;
    var k := 0;
    while k < |cs|
      invariant 0 <= k <= |cs| && used == looks + k && (k > 0 ==> used <= budget)
      invariant Merged(b, f) == ConsiderAll(b, asOf, cs[..k], r)
    {
      if used >= budget { return f, used, true; }
      used := used + 1;
      assert cs[..k + 1][..k] == cs[..k];
      f := ConsiderOne(b, f, asOf, cs[k], r);
      k := k + 1;
    }
    assert cs[..|cs|] == cs;
  }

  lemma NoDays(r: Request)
    ensures AllDays([], r) == Cohorts(EMPTY, EMPTY) && AllLooks([]) == 0 && DaysDone([]) == 0
  {
  }

  lemma NextDay(days: seq<Day>, n: nat, r: Request)
    requires n < |days|
    ensures AllDays(days[..n + 1], r) == OneDay(AllDays(days[..n], r), days[n], r)
    ensures AllLooks(days[..n + 1]) == AllLooks(days[..n]) + Looks(days[n])
    ensures DaysDone(days[..n + 1]) == DaysDone(days[..n]) + if days[n].failed then 0 else 1
  {
    assert days[..n + 1][..n] == days[..n];
  }

  /** run_validation's loop over the as-of dates.  budget: how many looks at the clock find time left.
      A date during which the time runs out leaves no event and no count: what is committed is the run
      over the dates before it. */
  method RunDays(days: seq<Day>, r: Request, budget: nat)
    returns (signals: seq<Event>, nulls: seq<Event>, suppressed: nat, truncated: nat, done: nat, timedOut: bool, ghost upTo: nat)
    ensures upTo <= |days| && (timedOut <==> upTo < |days|)
    ensures var k := AllDays(days[..upTo], r);
            && signals == k.signal.events && nulls == k.nulls.events
            && suppressed == k.signal.suppressed + k.nulls.suppressed
            && truncated == k.signal.truncated + k.nulls.truncated
            && done == DaysDone(days[..upTo])
    ensures timedOut ==> AllLooks(days[..upTo]) <= budget < AllLooks(days[..upTo + 1])
    ensures !timedOut ==> AllLooks(days) <= budget
  {
    hide ConsiderAll, AllDays, AllLooks, DaysDone;
    NoDays(r);
    assert days[..0] == [];
    signals, nulls, suppressed, truncated, done, timedOut := [], [], 0, 0, 0, false;
    var signalOpen: map<string, Date>, nullOpen: map<string, Date> := map[], map[];
    var used := 0;
    var n := 0;
    while n < |days| && !timedOut
      invariant 0 <= n <= |days| && (timedOut ==> n < |days|)
      invariant var k := AllDays(days[..n], r);
                && signals == k.signal.events && nulls == k.nulls.events
                && suppressed == k.signal.suppressed + k.nulls.suppressed
                && truncated == k.signal.truncated + k.nulls.truncated
                && done == DaysDone(days[..n])
                && (!timedOut ==> signalOpen == k.signal.open && nullOpen == k.nulls.open)
      invariant AllLooks(days[..n]) <= budget
      invariant if timedOut then budget < AllLooks(days[..n + 1]) else used == AllLooks(days[..n])
      decreases |days| - n, !timedOut
    {
      ghost var k := AllDays(days[..n], r);
      NextDay(days, n, r);
      var day := days[n];
      timedOut := used >= budget;
      if !timedOut {
        used := used + 1;
        if day.failed {
          n := n + 1;
        } else {
          var f, afterSignal, late := ConsiderCohort(k.signal, signalOpen, day.asOf, day.signal, r, used, budget);
          timedOut := late;
          if !late {
            var g, afterNulls, lateNulls := ConsiderCohort(k.nulls, nullOpen, day.asOf, day.nulls, r, afterSignal, budget);
            timedOut := lateNulls;
            if !lateNulls {
              signals, nulls := signals + f.events, nulls + g.events;
              suppressed := suppressed + f.suppressed + g.suppressed;
              truncated := truncated + f.truncated + g.truncated;
              signalOpen, nullOpen, used, done := f.open, g.open, afterNulls, done + 1;
              n := n + 1;
            }
          }
        }
      }
    }
    upTo := n;
    assert !timedOut ==> days[..n] == days;
  }
}
