/** The IB Gateway self-heal scheduler: backend/gateway.py, `check_and_alert`, and its restarts over
    any sequence of polls. */
module Gateway {
  import opened BotTypes

  /** What a poll can find.  Passing: restarting, logging in, or not known. */
  datatype GState = LoggedIn | ReloginRequired | BadCredentials | Down | Awaiting2fa | LockedOut | Passing

  /** api: the API connection, where the poll reports it. */
  datatype Poll = Poll(state: GState, at: real, api: Option<bool>)

  /** The number-th restart of an episode. */
  datatype Restart = Restart(at: real, episode: nat, number: nat)

  /** An alert, sent after this many restarts in all: of the self-heal, or for a state that needs a human. */
  datatype Alert = Alert(at: real, episode: nat, healing: bool, after: nat)

  datatype Notice = AllClear(at: real) | Registered(at: real)

  /** AlertState, with the number of the episode (one ends at every logged_in) and what was done. */
  datatype Watch = Watch(
    lastState: Option<GState>, lastAlert: real, everIn: bool, stuckSince: Option<real>, attempts: nat,
    lastHeal: real, alerted: bool, lastRegister: real,
    episode: nat, restarts: seq<Restart>, alerts: seq<Alert>, notices: seq<Notice>)

  const HEAL_AFTER := 180.0
  const HEAL_MIN_INTERVAL := 1800.0
  const HEAL_FAST_ATTEMPTS := 4
  const HEAL_MAX_INTERVAL := 7200.0
  const HEAL_REALERT := 21600.0
  const REALERT := 1800.0
  const REGISTER_MIN_INTERVAL := 300.0

  const START := Watch(None, 0.0, false, None, 0, 0.0, false, 0.0, 0, [], [], [])

  function Pow2(n: nat): nat {
    if n == 0 then 1 else 2 * Pow2(n - 1)
  }

  function Min(a: real, b: real): real {
    if a <= b then a else b
  }

  /** _heal_interval. */
  function Interval(attempts: nat): real {
    if attempts < HEAL_FAST_ATTEMPTS then HEAL_MIN_INTERVAL
    else
      var doublings := if attempts - HEAL_FAST_ATTEMPTS + 1 < 8 then attempts - HEAL_FAST_ATTEMPTS + 1 else 8;
      Min(HEAL_MIN_INTERVAL * (Pow2(doublings) as real), HEAL_MAX_INTERVAL)
  }

  predicate Heals(s: GState) {
    s == ReloginRequired || s == BadCredentials || s == Down
  }

  predicate NeedsHuman(s: GState) {
    Heals(s) || s == Awaiting2fa || s == LockedOut
  }

  /** The last restart was long enough ago; a time of 0 means there was none. */
  predicate RestFor(w: Watch, ts: real, gap: real) {
    w.lastHeal == 0.0 || ts - w.lastHeal >= gap
  }

  datatype Healed = Healed(w: Watch, suppressed: bool)

  function OpenEpisode(w: Watch, ts: real): Watch {
    if w.stuckSince.None? then w.(stuckSince := Some(ts), attempts := 0) else w
  }

  /** _try_self_heal. */
  function TryHeal(w0: Watch, ts: real): Healed {
    var w := OpenEpisode(w0, ts);
    if ts - w.stuckSince.value >= HEAL_AFTER && RestFor(w, ts, Interval(w.attempts)) then
      Healed(w.(attempts := w.attempts + 1, lastHeal := ts,
                restarts := w.restarts + [Restart(ts, w.episode, w.attempts + 1)]), true)
    else Healed(w, w.attempts < HEAL_FAST_ATTEMPTS || !RestFor(w, ts, HEAL_MIN_INTERVAL))
  }

  function HealRound(w: Watch, p: Poll): Watch {
    var h := TryHeal(w, p.at);
    if !h.suppressed && (!h.w.alerted || p.at - h.w.lastAlert >= HEAL_REALERT) then
      h.w.(lastAlert := p.at, alerted := true, alerts := h.w.alerts + [Alert(p.at, h.w.episode, true, |h.w.restarts|)])
    else h.w
  }

  function HumanRound(w: Watch, p: Poll): Watch {
    if w.lastState != Some(p.state) || p.at - w.lastAlert >= REALERT then
      w.(lastAlert := p.at, alerted := true, alerts := w.alerts + [Alert(p.at, w.episode, false, |w.restarts|)])
    else w
  }

  /** The episode ends, with an all-clear if it was alerted. */
  function EndEpisode(w: Watch, p: Poll): Watch {
    var told := w.lastState.Some? && w.lastState != Some(LoggedIn) && w.alerted;
    w.(everIn := true, stuckSince := None, attempts := 0, alerted := false, episode := w.episode + 1,
       notices := w.notices + if told then [AllClear(p.at)] else [])
  }

  /** A logged_in gateway whose API is not connected is registered again, when that is due. */
  function Register(w: Watch, p: Poll): Watch {
    if p.api == Some(false) && p.at - w.lastRegister >= REGISTER_MIN_INTERVAL then
      w.(lastRegister := p.at, notices := w.notices + [Registered(p.at)])
    else w
  }

  function LoggedInRound(w: Watch, p: Poll): Watch {
    Register(EndEpisode(w, p), p)
  }

  /** check_and_alert, with self-heal on or off. */
  function Check(w: Watch, p: Poll, heal: bool): Watch {
    var seen := if p.state == LoggedIn then LoggedInRound(w, p)
                else if !NeedsHuman(p.state) || (p.state == Down && !w.everIn) then w
                else if Heals(p.state) && heal then HealRound(w, p)
                else HumanRound(w, p);
    seen.(lastState := Some(p.state))
  }

  function Watching(w: Watch, polls: seq<Poll>, heal: bool): Watch {
    if polls == [] then w else Check(Watching(w, polls[..|polls| - 1], heal), polls[|polls| - 1], heal)
  }

  /** Poll times are wall-clock times: positive, and they do not go back. */
  predicate InOrder(polls: seq<Poll>) {
    && (forall k | 0 <= k < |polls| :: polls[k].at > 0.0)
    && forall j, k | 0 <= j < k < |polls| :: polls[j].at <= polls[k].at
  }

  // ---- the class ----

  class AlertState {
    var lastState: Option<GState>
    var lastAlert: real
    var everIn: bool
    var stuckSince: Option<real>
    var attempts: nat
    var lastHeal: real
    var alerted: bool
    var lastRegister: real
    ghost var episode: nat
    ghost var restarts: seq<Restart>
    ghost var alerts: seq<Alert>
    ghost var notices: seq<Notice>

    ghost function View(): Watch
      reads this
    {
      Watch(lastState, lastAlert, everIn, stuckSince, attempts, lastHeal, alerted, lastRegister,
            episode, restarts, alerts, notices)
    }

    constructor ()
      ensures View() == START
    {
      lastState, lastAlert, everIn, stuckSince, attempts := None, 0.0, false, None, 0;
      lastHeal, alerted, lastRegister := 0.0, false, 0.0;
      episode, restarts, alerts, notices := 0, [], [], [];
    }

    method TrySelfHeal(ts: real) returns (suppressed: bool)
      modifies this
      ensures Healed(View(), suppressed) == TryHeal(old(View()), ts)
    {
      hide Interval;
      if stuckSince.None? {
        stuckSince := Some(ts);
        attempts := 0;
      }
      var stuckFor := ts - stuckSince.value;
      if stuckFor >= HEAL_AFTER && (lastHeal == 0.0 || ts - lastHeal >= Interval(attempts)) {
        attempts := attempts + 1;
        lastHeal := ts;
        restarts := restarts + [Restart(ts, episode, attempts)];
        return true;
      }
      return attempts < HEAL_FAST_ATTEMPTS || (lastHeal != 0.0 && ts - lastHeal < HEAL_MIN_INTERVAL);
    }

    method OnLoggedIn(p: Poll)
      modifies this
      ensures View() == LoggedInRound(old(View()), p)
    {
      CloseEpisode(p);
      if p.api == Some(false) && p.at - lastRegister >= REGISTER_MIN_INTERVAL {
        lastRegister := p.at;
        notices := notices + [Registered(p.at)];
      }
    }

    method CloseEpisode(p: Poll)
      modifies this
      ensures View() == EndEpisode(old(View()), p)
    {
      if lastState.Some? && lastState != Some(LoggedIn) && alerted { notices := notices + [AllClear(p.at)]; }
      everIn, stuckSince, attempts, alerted := true, None, 0, false;
      episode := episode + 1;
    }

    method TryAndAlert(p: Poll)
      modifies this
      ensures View() == HealRound(old(View()), p)
    {
      hide TryHeal;
      var suppressed := TrySelfHeal(p.at);
      if !suppressed && (!alerted || p.at - lastAlert >= HEAL_REALERT) {
        lastAlert, alerted := p.at, true;
        alerts := alerts + [Alert(p.at, episode, true, |restarts|)];
      }
    }

    method CheckAndAlert(p: Poll, heal: bool)
      modifies this
      ensures View() == Check(old(View()), p, heal)
    {
      hide HealRound, HumanRound, LoggedInRound;
      if p.state == LoggedIn {
        OnLoggedIn(p);
      } else if NeedsHuman(p.state) && (p.state != Down || everIn) {
        if Heals(p.state) && heal {
          TryAndAlert(p);
        } else {
          TellHuman(p);
        }
      }
      lastState := Some(p.state);
    }

    method TellHuman(p: Poll)
      modifies this
      ensures View() == HumanRound(old(View()), p)
    {
      if lastState != Some(p.state) || p.at - lastAlert >= REALERT {
        lastAlert, alerted := p.at, true;
        alerts := alerts + [Alert(p.at, episode, false, |restarts|)];
      }
    }
  }

  // ---- restarts are spaced ----

  /** The least time from the first to the n-th restart of an episode. */
  function LeastSince(n: nat): real {
    if n <= 4 then if n == 0 then 0.0 else 1800.0 * ((n - 1) as real)
    else 9000.0 + 7200.0 * ((n - 5) as real)
  }

  lemma IntervalIs(attempts: nat)
    ensures Interval(attempts) == if attempts < 4 then 1800.0 else if attempts == 4 then 3600.0 else 7200.0
  {
    assert Pow2(1) == 2 && Pow2(2) == 4 && Pow2(3) == 8 && Pow2(4) == 16;
    assert Pow2(5) == 32 && Pow2(6) == 64 && Pow2(7) == 128 && Pow2(8) == 256;
  }

  lemma IntervalSpaces(n: nat)
    ensures 1800.0 <= Interval(n) <= 7200.0
    ensures n > 0 ==> Interval(n) == LeastSince(n + 1) - LeastSince(n)
  {
    IntervalIs(n);
  }

  /** Two restarts, the first before the second. */
  predicate Spaced(a: Restart, b: Restart) {
    && b.at - a.at >= HEAL_MIN_INTERVAL
    && a.episode <= b.episode
    && (a.episode == b.episode ==> a.number < b.number && b.at - a.at >= LeastSince(b.number) - LeastSince(a.number))
  }

  predicate AllSpaced(rs: seq<Restart>) {
    forall i, j | 0 <= i < j < |rs| :: Spaced(rs[i], rs[j])
  }

  /** The restarts of an episode are numbered from 1 without gaps. */
  predicate Numbered(rs: seq<Restart>) {
    forall j | 0 <= j < |rs| :: Follows(rs, j)
  }

  predicate Follows(rs: seq<Restart>, j: nat)
    requires j < |rs|
  {
    rs[j].number == if j > 0 && rs[j - 1].episode == rs[j].episode then rs[j - 1].number + 1 else 1
  }

  /** Before a heal alert at least four restarts of its episode went out. */
  predicate AlertedLate(w: Watch) {
    forall a <- w.alerts | a.healing ::
      0 < a.after <= |w.restarts| && w.restarts[a.after - 1].episode == a.episode && w.restarts[a.after - 1].number >= 4
  }

  /** A heal alert comes six hours after any alert of its episode before it. */
  predicate AlertsSpaced(alerts: seq<Alert>) {
    forall i, j | 0 <= i < j < |alerts| && alerts[i].episode == alerts[j].episode && alerts[j].healing ::
      alerts[j].at - alerts[i].at >= HEAL_REALERT
  }

  predicate RestartKnown(w: Watch) {
    if w.restarts == [] then w.lastHeal == 0.0 && w.attempts == 0
    else
      var last := w.restarts[|w.restarts| - 1];
      && last.at == w.lastHeal > 0.0 && last.episode <= w.episode
      && w.attempts == if last.episode == w.episode then last.number else 0
  }

  predicate AlertsKnown(w: Watch) {
    && (forall a <- w.alerts :: a.episode <= w.episode && a.at <= w.lastAlert && (a.episode == w.episode ==> w.alerted))
    && (w.alerted ==> w.alerts != [] && w.alerts[|w.alerts| - 1].episode == w.episode && w.alerts[|w.alerts| - 1].at == w.lastAlert)
  }

  predicate Inv(w: Watch) {
    && AllSpaced(w.restarts) && Numbered(w.restarts) && AlertedLate(w) && AlertsSpaced(w.alerts)
    && RestartKnown(w) && AlertsKnown(w)
    && (w.stuckSince.None? ==> w.attempts == 0)
  }

  lemma NumberedStep(rs: seq<Restart>, next: Restart)
    requires Numbered(rs)
    requires next.number == if rs != [] && rs[|rs| - 1].episode == next.episode then rs[|rs| - 1].number + 1 else 1
    ensures Numbered(rs + [next])
  {
    var all := rs + [next];
    forall j: nat | j < |all| ensures Follows(all, j) {
      if j < |rs| { assert Follows(rs, j); }
    }
  }

  lemma SpacedStep(rs: seq<Restart>, next: Restart)
    requires AllSpaced(rs) && (rs != [] ==> Spaced(rs[|rs| - 1], next))
    ensures AllSpaced(rs + [next])
  {
    hide LeastSince;
    var all, n := rs + [next], |rs|;
    forall i, j | 0 <= i < j < |all| ensures Spaced(all[i], all[j]) {
      if j < n {
        assert Spaced(rs[i], rs[j]);
      } else if i < n - 1 {
        assert Spaced(rs[i], rs[n - 1]);
      }
    }
  }

  lemma RestartKeeps(w: Watch, ts: real)
    requires Inv(w) && ts > 0.0 && w.stuckSince.Some? && RestFor(w, ts, Interval(w.attempts))
    ensures Inv(w.(attempts := w.attempts + 1, lastHeal := ts,
                   restarts := w.restarts + [Restart(ts, w.episode, w.attempts + 1)]))
  {
    hide Interval, LeastSince, AllSpaced;
    IntervalSpaces(w.attempts);
    var n, next := |w.restarts|, Restart(ts, w.episode, w.attempts + 1);
    if n > 0 {
      assert Follows(w.restarts, n - 1);
      assert Spaced(w.restarts[n - 1], next);
    }
    SpacedStep(w.restarts, next);
    NumberedStep(w.restarts, next);
    hide Numbered;
    var rs := w.restarts + [next];
    assert rs[n] == next;
    forall a <- w.alerts | a.healing
      ensures 0 < a.after <= |rs| && rs[a.after - 1].episode == a.episode && rs[a.after - 1].number >= 4
    {
      assert rs[a.after - 1] == w.restarts[a.after - 1];
    }
  }

  lemma HealKeeps(w: Watch, ts: real)
    requires Inv(w) && ts > 0.0
    ensures var h := TryHeal(w, ts); Inv(h.w) && (!h.suppressed ==> h.w.attempts >= 4)
  {
    hide Interval, LeastSince, AllSpaced, Numbered;
    var o := OpenEpisode(w, ts);
    assert Inv(o);
    if ts - o.stuckSince.value >= HEAL_AFTER && RestFor(o, ts, Interval(o.attempts)) { RestartKeeps(o, ts); }
  }

  lemma LoggedInKeeps(w: Watch, p: Poll)
    requires Inv(w)
    ensures Inv(LoggedInRound(w, p))
  {
    hide AllSpaced, Numbered, AlertsSpaced;
  }

  lemma AlertKeeps(w: Watch, a: Alert)
    requires Inv(w) && a.at >= w.lastAlert && a.episode == w.episode && a.after == |w.restarts|
    requires a.healing ==> w.attempts >= 4 && (!w.alerted || a.at - w.lastAlert >= HEAL_REALERT)
    ensures Inv(w.(lastAlert := a.at, alerted := true, alerts := w.alerts + [a]))
  {
    hide AllSpaced, Numbered;
    var all := w.alerts + [a];
    forall i, j | 0 <= i < j < |all| && all[i].episode == all[j].episode && all[j].healing
      ensures all[j].at - all[i].at >= HEAL_REALERT
    {
      if j == |w.alerts| { assert all[i] in w.alerts; } else { assert all[i] == w.alerts[i] && all[j] == w.alerts[j]; }
    }
  }

  lemma HumanKeeps(w: Watch, p: Poll)
    requires Inv(w) && p.at >= w.lastAlert
    ensures Inv(HumanRound(w, p)) && HumanRound(w, p).lastAlert in {w.lastAlert, p.at}
  {
    hide Inv;
    if w.lastState != Some(p.state) || p.at - w.lastAlert >= REALERT { AlertKeeps(w, Alert(p.at, w.episode, false, |w.restarts|)); }
  }

  lemma HealRoundKeeps(w: Watch, p: Poll)
    requires Inv(w) && p.at > 0.0 && p.at >= w.lastAlert
    ensures Inv(HealRound(w, p)) && HealRound(w, p).lastAlert in {w.lastAlert, p.at}
  {
    hide TryHeal, Inv;
    HealKeeps(w, p.at);
    HealSame(w, p.at);
    var h := TryHeal(w, p.at);
    if !h.suppressed && (!h.w.alerted || p.at - h.w.lastAlert >= HEAL_REALERT) {
      AlertKeeps(h.w, Alert(p.at, h.w.episode, true, |h.w.restarts|));
    }
  }

  lemma SeenKeeps(w: Watch, s: GState)
    requires Inv(w)
    ensures Inv(w.(lastState := Some(s)))
  {
    hide AllSpaced, Numbered, AlertsSpaced;
  }

  lemma CheckKeeps(w: Watch, p: Poll, heal: bool)
    requires Inv(w) && p.at > 0.0 && p.at >= w.lastAlert
    ensures Inv(Check(w, p, heal)) && Check(w, p, heal).lastAlert in {w.lastAlert, p.at}
  {
    hide Inv, HealRound, HumanRound;
    LoggedInKeeps(w, p);
    HumanKeeps(w, p);
    HealRoundKeeps(w, p);
    SeenKeeps(w, p.state);
    SeenKeeps(LoggedInRound(w, p), p.state);
    SeenKeeps(HumanRound(w, p), p.state);
    SeenKeeps(HealRound(w, p), p.state);
  }

  lemma HealSame(w: Watch, ts: real)
    ensures var h := TryHeal(w, ts);
            h.w.lastAlert == w.lastAlert && h.w.alerted == w.alerted && h.w.alerts == w.alerts && h.w.episode == w.episode
  {
  }

  /** Over every sequence of polls, self-heal on or off. */
  lemma {:induction false} EveryWatchKeeps(polls: seq<Poll>, heal: bool)
    requires InOrder(polls)
    ensures var w := Watching(START, polls, heal);
            Inv(w) && w.lastAlert <= if polls == [] then 0.0 else polls[|polls| - 1].at
  {
    if polls != [] {
      var n := |polls| - 1;
      EveryWatchKeeps(polls[..n], heal);
      CheckKeeps(Watching(START, polls[..n], heal), polls[n], heal);
    }
  }

  /** Any two restarts are at least half an hour apart, also over episodes; the k-th restart of an
      episode, from the fifth, comes at least 9000 + 7200 (k - 5) seconds after its first; no heal
      alert before the fourth restart of its episode; six hours between its heal alerts. */
  lemma RestartsAndAlertsAreSpaced(polls: seq<Poll>, heal: bool)
    requires InOrder(polls)
    ensures var w := Watching(START, polls, heal);
            && (forall i, j | 0 <= i < j < |w.restarts| ::
                  && w.restarts[j].at - w.restarts[i].at >= 1800.0
                  && (w.restarts[i].episode == w.restarts[j].episode && w.restarts[i].number == 1 && w.restarts[j].number >= 5 ==>
                        w.restarts[j].at - w.restarts[i].at >= 9000.0 + 7200.0 * ((w.restarts[j].number - 5) as real)))
            && Numbered(w.restarts) && AlertedLate(w) && AlertsSpaced(w.alerts)
  {
    EveryWatchKeeps(polls, heal);
    var w := Watching(START, polls, heal);
    forall i, j | 0 <= i < j < |w.restarts|
      ensures && w.restarts[j].at - w.restarts[i].at >= 1800.0
              && (w.restarts[i].episode == w.restarts[j].episode && w.restarts[i].number == 1 && w.restarts[j].number >= 5 ==>
                    w.restarts[j].at - w.restarts[i].at >= 9000.0 + 7200.0 * ((w.restarts[j].number - 5) as real))
    {
      assert Spaced(w.restarts[i], w.restarts[j]);
    }
  }

  // ---- restarts never stop ----

  /** A poll the self-heal works on, once the gateway has ever been logged in, or not yet. */
  predicate StuckWhen(everIn: bool, p: Poll) {
    Heals(p.state) && (p.state == Down ==> everIn)
  }

  predicate Stuck(w: Watch, p: Poll) {
    StuckWhen(w.everIn, p)
  }

  function Span(n: nat, g: real): real {
    if n == 0 then 0.0 else Span(n - 1, g) + g
  }

  /** The restarts of the episode are as many as gaps of g need, and the last is recent. */
  predicate KeepsUp(w: Watch, at: real, g: real) {
    && w.stuckSince.Some? && w.stuckSince.value <= at
    && (if w.attempts == 0 then w.lastHeal <= w.stuckSince.value
        else w.stuckSince.value < w.lastHeal <= at && w.lastHeal - w.stuckSince.value <= Span(w.attempts, g))
    && (at - w.stuckSince.value < HEAL_AFTER || (w.lastHeal > 0.0 && at - w.lastHeal < HEAL_MAX_INTERVAL))
  }

  /** No restart of this episode came later than g after the one before it, nor the first later than g
      after the episode began. */
  predicate GapsWithin(w: Watch, g: real) {
    forall i | 0 <= i < |w.restarts| && w.restarts[i].episode == w.episode :: GapWithin(w, i, g)
  }

  predicate GapWithin(w: Watch, i: nat, g: real)
    requires i < |w.restarts|
  {
    if i > 0 && w.restarts[i - 1].episode == w.episode then w.restarts[i].at - w.restarts[i - 1].at <= g
    else w.stuckSince.Some? && w.restarts[i].at - w.stuckSince.value <= g
  }

  /** Only logged_in ends an episode.  d bounds the time between one stuck poll and the next, from the
      time at of the last one; whatever else is polled in between, or after them, does not matter. */
  predicate PolledWithin(everIn: bool, polls: seq<Poll>, at: real, d: real)
    decreases |polls|
  {
    polls != [] ==>
      && polls[0].state != LoggedIn && (StuckWhen(everIn, polls[0]) ==> polls[0].at <= at + d)
      && PolledWithin(everIn, polls[1..], StuckAt(everIn, polls[0], at), d)
  }

  /** The time of the last stuck poll, once p is polled. */
  function StuckAt(everIn: bool, p: Poll, at: real): real {
    if StuckWhen(everIn, p) then p.at else at
  }

  predicate InStep(w: Watch, p: Poll, at: real, d: real) {
    Inv(w) && KeepsUp(w, at, HEAL_MAX_INTERVAL + d) && Stuck(w, p) && at <= p.at <= at + d && d >= 0.0 && p.at > 0.0
  }

  /** One more restart, now. */
  function Restarted(w: Watch, at: real): Watch {
    w.(attempts := w.attempts + 1, lastHeal := at, restarts := w.restarts + [Restart(at, w.episode, w.attempts + 1)])
  }

  /** The same episode with the same restarts. */
  predicate SameHeals(w: Watch, w1: Watch) {
    w1 == w.(lastState := w1.lastState, lastAlert := w1.lastAlert, alerted := w1.alerted, alerts := w1.alerts, notices := w1.notices)
  }

  /** A stuck poll restarts the gateway exactly when one is due. */
  lemma StuckPoll(w: Watch, p: Poll)
    requires Stuck(w, p) && w.stuckSince.Some?
    ensures var due := p.at - w.stuckSince.value >= HEAL_AFTER && RestFor(w, p.at, Interval(w.attempts));
            SameHeals(if due then Restarted(w, p.at) else w, Check(w, p, true))
  {
    hide Interval;
  }

  lemma RestartKeepsUp(w: Watch, p: Poll, at: real, d: real)
    requires InStep(w, p, at, d) && p.at - w.stuckSince.value >= HEAL_AFTER
    ensures var w1 := Restarted(w, p.at);
            KeepsUp(w1, p.at, HEAL_MAX_INTERVAL + d) && (w.attempts > 0 ==> w1.lastHeal - w.lastHeal <= HEAL_MAX_INTERVAL + d)
  {
    hide AllSpaced, Numbered, AlertedLate, AlertsSpaced, AlertsKnown;
    assert Span(w.attempts + 1, HEAL_MAX_INTERVAL + d) == Span(w.attempts, HEAL_MAX_INTERVAL + d) + HEAL_MAX_INTERVAL + d;
  }

  lemma WaitKeepsUp(w: Watch, p: Poll, at: real, d: real)
    requires InStep(w, p, at, d) && !(p.at - w.stuckSince.value >= HEAL_AFTER && RestFor(w, p.at, Interval(w.attempts)))
    ensures KeepsUp(w, p.at, HEAL_MAX_INTERVAL + d)
  {
    hide Interval, Span, AllSpaced, Numbered, AlertedLate, AlertsSpaced, AlertsKnown;
    IntervalIs(w.attempts);
  }

  lemma StuckKeepsUp(w: Watch, p: Poll, at: real, d: real)
    requires InStep(w, p, at, d)
    ensures var w1 := Check(w, p, true);
            && KeepsUp(w1, p.at, HEAL_MAX_INTERVAL + d) && w1.stuckSince == w.stuckSince && w1.everIn == w.everIn
            && w1.attempts >= w.attempts
            && (w1.attempts > w.attempts && w.attempts > 0 ==> w1.lastHeal - w.lastHeal <= HEAL_MAX_INTERVAL + d)
  {
    hide Interval, Check, Inv, Span;
    StuckPoll(w, p);
    if p.at - w.stuckSince.value >= HEAL_AFTER && RestFor(w, p.at, Interval(w.attempts)) {
      RestartKeepsUp(w, p, at, d);
    } else {
      WaitKeepsUp(w, p, at, d);
    }
  }

  lemma SameGaps(w: Watch, w1: Watch, g: real)
    requires GapsWithin(w, g) && SameHeals(w, w1)
    ensures GapsWithin(w1, g)
  {
    forall i | 0 <= i < |w1.restarts| && w1.restarts[i].episode == w1.episode ensures GapWithin(w1, i, g) {
      assert GapWithin(w, i, g);
    }
  }

  lemma RestartGap(w: Watch, at: real, g: real)
    requires GapsWithin(w, g) && w.stuckSince.Some? && RestartKnown(w) && Numbered(w.restarts)
    requires at - (if w.attempts == 0 then w.stuckSince.value else w.lastHeal) <= g
    ensures GapsWithin(Restarted(w, at), g)
  {
    var w1, n := Restarted(w, at), |w.restarts|;
    if n > 0 { assert Follows(w.restarts, n - 1); }
    hide Numbered;
    forall i | 0 <= i < |w1.restarts| && w1.restarts[i].episode == w1.episode ensures GapWithin(w1, i, g) {
      if i < n { assert GapWithin(w, i, g); }
    }
  }

  lemma StuckGap(w: Watch, p: Poll, at: real, d: real)
    requires InStep(w, p, at, d) && GapsWithin(w, HEAL_MAX_INTERVAL + d)
    ensures GapsWithin(Check(w, p, true), HEAL_MAX_INTERVAL + d)
  {
    hide Interval, Check, GapsWithin, AllSpaced, Numbered, AlertedLate, AlertsSpaced, AlertsKnown, Span;
    StuckPoll(w, p);
    var due := p.at - w.stuckSince.value >= HEAL_AFTER && RestFor(w, p.at, Interval(w.attempts));
    if due {
      RestartGap(w, p.at, HEAL_MAX_INTERVAL + d);
      SameGaps(Restarted(w, p.at), Check(w, p, true), HEAL_MAX_INTERVAL + d);
    } else {
      SameGaps(w, Check(w, p, true), HEAL_MAX_INTERVAL + d);
    }
  }

  /** The time of the last stuck poll. */
  function LastStuck(everIn: bool, polls: seq<Poll>, at: real): real
    decreases |polls|
  {
    if polls == [] then at else LastStuck(everIn, polls[1..], StuckAt(everIn, polls[0], at))
  }

  /** In the middle of an episode: at is the time of its last stuck poll, now that of the last poll. */
  predicate Midway(w: Watch, at: real, now: real, d: real) {
    && Inv(w) && KeepsUp(w, at, HEAL_MAX_INTERVAL + d) && GapsWithin(w, HEAL_MAX_INTERVAL + d)
    && d >= 0.0 && 0.0 < at <= now && w.lastAlert <= now
  }

  lemma PollKeepsUp(w: Watch, p: Poll, at: real, now: real, d: real)
    requires Midway(w, at, now, d) && p.state != LoggedIn && now <= p.at && (Stuck(w, p) ==> p.at <= at + d)
    ensures var w1 := Check(w, p, true);
            Midway(w1, StuckAt(w.everIn, p, at), p.at, d) && w1.stuckSince == w.stuckSince && w1.everIn == w.everIn
  {
    hide Check, Inv, KeepsUp, GapsWithin;
    CheckKeeps(w, p, true);
    if Stuck(w, p) {
      StuckKeepsUp(w, p, at, d);
      StuckGap(w, p, at, d);
    } else {
      OtherKeeps(w, p, at, d);
    }
  }

  lemma {:induction false} EpisodeKeepsUp(w: Watch, polls: seq<Poll>, at: real, now: real, d: real)
    requires Midway(w, at, now, d) && PolledWithin(w.everIn, polls, at, d)
    requires InOrder(polls) && (polls != [] ==> now <= polls[0].at)
    ensures var w1, last := Through(w, polls), LastStuck(w.everIn, polls, at);
            Midway(w1, last, if polls == [] then now else polls[|polls| - 1].at, d) && w1.stuckSince == w.stuckSince
    decreases |polls|
  {
    hide Check, Midway, StuckAt;
    if polls != [] {
      PollKeepsUp(w, polls[0], at, now, d);
      EpisodeKeepsUp(Check(w, polls[0], true), polls[1..], StuckAt(w.everIn, polls[0], at), polls[0].at, d);
    }
  }

  /** The first stuck poll opens the episode, keeping up. */
  lemma EpisodeOpens(w: Watch, p: Poll, d: real)
    requires Inv(w) && w.stuckSince.None? && Stuck(w, p) && p.at >= w.lastHeal && d >= 0.0
    requires Unopened(w)
    ensures var w1 := Check(w, p, true);
            && KeepsUp(w1, p.at, HEAL_MAX_INTERVAL + d) && GapsWithin(w1, HEAL_MAX_INTERVAL + d)
            && w1.stuckSince == Some(p.at)
  {
    hide AllSpaced, Numbered, AlertedLate, AlertsSpaced, AlertsKnown;
  }

  /** Without a stuck state the episode has no restarts. */
  predicate Unopened(w: Watch) {
    forall r <- w.restarts :: r.episode < w.episode
  }

  /** When stuck states are polled at most d apart from the first poll of an episode on, whatever other
      states but logged_in are polled among them, restarts never stop: the first comes at most 7200 + d
      seconds after that poll, each at most 7200 + d seconds after the one before, and the last stuck
      poll is less than 7200 seconds after the latest. */
  lemma RestartsNeverStop(earlier: seq<Poll>, polls: seq<Poll>, d: real)
    requires InOrder(earlier + polls) && polls != [] && d >= 0.0
    requires var w := Watching(START, earlier, true);
             w.stuckSince.None? && Stuck(w, polls[0]) && PolledWithin(w.everIn, polls[1..], polls[0].at, d)
    ensures var everIn, w1 := Watching(START, earlier, true).everIn, Watching(START, earlier + polls, true);
            && w1.stuckSince == Some(polls[0].at) && GapsWithin(w1, 7200.0 + d)
            && LastStuck(everIn, polls[1..], polls[0].at) - (if w1.attempts > 0 then w1.lastHeal else polls[0].at) < 7200.0
  {
    var w, p := Watching(START, earlier, true), polls[0];
    InOrderParts(earlier, polls);
    EveryWatchKeeps(earlier, true);
    NoneOpened(earlier);
    HealTimes(earlier);
    hide Check, Inv, GapsWithin, Unopened;
    EpisodeOpens(w, p, d);
    CheckKeeps(w, p, true);
    EpisodeKeepsUp(Check(w, p, true), polls[1..], p.at, p.at, d);
    WatchThrough(START, earlier, polls);
  }

  lemma InOrderParts(earlier: seq<Poll>, polls: seq<Poll>)
    requires InOrder(earlier + polls) && polls != []
    ensures InOrder(earlier) && InOrder(polls[1..]) && polls[0].at > 0.0
    ensures |polls| > 1 ==> polls[0].at <= polls[1].at
    ensures earlier != [] ==> earlier[|earlier| - 1].at <= polls[0].at
  {
    var all := earlier + polls;
    assert forall k | 0 <= k < |polls| :: all[|earlier| + k] == polls[k];
    assert forall k | 0 <= k < |earlier| :: all[k] == earlier[k];
  }

  /** A poll restarts the gateway at most once, for the episode it stands in. */
  lemma CheckRestarts(w: Watch, p: Poll)
    ensures var w1 := Check(w, p, true);
            || (w1.restarts == w.restarts && w1.lastHeal == w.lastHeal
                && w1.episode == w.episode + if p.state == LoggedIn then 1 else 0)
            || (w1.restarts == w.restarts + [Restart(p.at, w.episode, w1.attempts)] && w1.lastHeal == p.at
                && w1.episode == w.episode && w1.stuckSince.Some?)
    ensures var w1 := Check(w, p, true);
            w1.stuckSince.None? ==> p.state == LoggedIn || (w.stuckSince.None? && w1.episode == w.episode)
  {
    hide Interval;
  }

  lemma {:induction false} NoneOpened(polls: seq<Poll>)
    requires InOrder(polls)
    ensures var w := Watching(START, polls, true);
            && (forall r <- w.restarts :: r.episode <= w.episode) && (w.stuckSince.None? ==> Unopened(w))
  {
    hide Check;
    if polls != [] {
      var n := |polls| - 1;
      NoneOpened(polls[..n]);
      CheckRestarts(Watching(START, polls[..n], true), polls[n]);
    }
  }

  lemma {:induction false} HealTimes(polls: seq<Poll>)
    requires InOrder(polls)
    ensures Watching(START, polls, true).lastHeal <= if polls == [] then 0.0 else polls[|polls| - 1].at
  {
    hide Check;
    if polls != [] {
      HealTimes(polls[..|polls| - 1]);
      CheckRestarts(Watching(START, polls[..|polls| - 1], true), polls[|polls| - 1]);
    }
  }

  lemma {:induction false} WatchThrough(w: Watch, earlier: seq<Poll>, polls: seq<Poll>)
    ensures Watching(w, earlier + polls, true) == Through(Watching(w, earlier, true), polls)
    decreases |polls|
  {
    hide Check;
    if polls == [] {
      assert earlier + polls == earlier;
    } else {
      var more := earlier + [polls[0]];
      assert more + polls[1..] == earlier + polls && more[..|more| - 1] == earlier;
      WatchThrough(w, more, polls[1..]);
    }
  }

  lemma OtherPoll(w: Watch, p: Poll)
    requires !Stuck(w, p) && p.state != LoggedIn
    ensures SameHeals(w, Check(w, p, true))
  {
    hide HealRound;
  }

  /** A poll that is not stuck, and not logged in, changes nothing the self-heal looks at. */
  lemma OtherKeeps(w: Watch, p: Poll, at: real, d: real)
    requires !Stuck(w, p) && p.state != LoggedIn
    requires KeepsUp(w, at, HEAL_MAX_INTERVAL + d) && GapsWithin(w, HEAL_MAX_INTERVAL + d)
    ensures var w1 := Check(w, p, true);
            && KeepsUp(w1, at, HEAL_MAX_INTERVAL + d) && GapsWithin(w1, HEAL_MAX_INTERVAL + d)
            && w1.everIn == w.everIn && w1.stuckSince == w.stuckSince
  {
    hide Check, GapsWithin;
    OtherPoll(w, p);
    SameGaps(w, Check(w, p, true), HEAL_MAX_INTERVAL + d);
  }

  function Through(w: Watch, polls: seq<Poll>): Watch
    decreases |polls|
  {
    if polls == [] then w else Through(Check(w, polls[0], true), polls[1..])
  }
}
