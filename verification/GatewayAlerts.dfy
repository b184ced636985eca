/** What one poll of backend/gateway.py does, whom it tells, and within what time. */
module GatewayAlerts {
  import opened BotTypes
  import opened Gateway

  // ---- what one poll does ----

  /** The gap wanted before the next restart, after this many in the episode. */
  function Gap(made: nat): real {
    if made < 4 then 1800.0 else if made == 4 then 3600.0 else 7200.0
  }

  /** A stuck poll with self-heal on: it restarts the gateway exactly when the episode is three minutes old
      and the last restart is old enough, and tells somebody exactly when it restarts nothing, four restarts
      of the episode went out, the last of them half an hour ago, and nobody was told in the episode or the
      last alert is six hours old. */
  predicate StuckLaw(w: Watch, p: Poll, w1: Watch) {
    var since := if w.stuckSince.Some? then w.stuckSince.value else p.at;
    var made := if w.stuckSince.Some? then w.attempts else 0;
    var restarts := p.at - since >= 180.0 && (w.lastHeal == 0.0 || p.at - w.lastHeal >= Gap(made));
    var tells := !restarts && made >= 4 && (w.lastHeal == 0.0 || p.at - w.lastHeal >= 1800.0)
                 && (!w.alerted || p.at - w.lastAlert >= 21600.0);
    && w1.stuckSince == Some(since) && w1.lastState == Some(p.state) && w1.everIn == w.everIn
    && w1.episode == w.episode && w1.notices == w.notices && w1.lastRegister == w.lastRegister
    && (restarts ==> w1.attempts == made + 1 && w1.lastHeal == p.at && w1.restarts == w.restarts + [Restart(p.at, w.episode, made + 1)])
    && (!restarts ==> w1.attempts == made && w1.lastHeal == w.lastHeal && w1.restarts == w.restarts)
    && (tells ==> w1.alerted && w1.lastAlert == p.at && w1.alerts == w.alerts + [Alert(p.at, w.episode, true, |w.restarts|)])
    && (!tells ==> w1.alerted == w.alerted && w1.lastAlert == w.lastAlert && w1.alerts == w.alerts)
  }

  lemma StuckPollLaw(w: Watch, p: Poll)
    requires Stuck(w, p)
    ensures StuckLaw(w, p, Check(w, p, true))
  {
    hide Interval;
    IntervalIs(if w.stuckSince.Some? then w.attempts else 0);
  }

  /** A poll of a state that needs a human and is not healed: it tells when the state is new, or the last
      alert half an hour old. */
  predicate HumanLaw(w: Watch, p: Poll, w1: Watch) {
    var tells := w.lastState != Some(p.state) || p.at - w.lastAlert >= 1800.0;
    w1 == w.(lastState := Some(p.state), alerted := w.alerted || tells, lastAlert := if tells then p.at else w.lastAlert,
             alerts := if tells then w.alerts + [Alert(p.at, w.episode, false, |w.restarts|)] else w.alerts)
  }

  /** A poll of logged_in ends the episode; the all-clear goes out exactly when somebody was told of it and
      this is news, and the providers are registered exactly when the API is down and none was for 300 s. */
  predicate LoggedInLaw(w: Watch, p: Poll, w1: Watch) {
    var clears := w.alerted && w.lastState.Some? && w.lastState != Some(LoggedIn);
    var registers := p.api == Some(false) && p.at - w.lastRegister >= 300.0;
    && w1 == w.(lastState := Some(LoggedIn), everIn := true, stuckSince := None, attempts := 0, alerted := false,
                episode := w.episode + 1, lastRegister := w1.lastRegister, notices := w1.notices)
    && w1.lastRegister == (if registers then p.at else w.lastRegister)
    && w1.notices == w.notices + (if clears then [AllClear(p.at)] else []) + (if registers then [Registered(p.at)] else [])
  }

  /** Every poll obeys the law of its state; a passing state, or a gateway down that was never logged in,
      changes nothing but the state seen. */
  lemma PollLaw(w: Watch, p: Poll, heal: bool)
    ensures var w1 := Check(w, p, heal);
            match p.state
            case LoggedIn => LoggedInLaw(w, p, w1)
            case Passing => w1 == w.(lastState := Some(Passing))
            case Awaiting2fa => HumanLaw(w, p, w1)
            case LockedOut => HumanLaw(w, p, w1)
            case Down => if !w.everIn then w1 == w.(lastState := Some(Down)) else if heal then StuckLaw(w, p, w1) else HumanLaw(w, p, w1)
            case _ => if heal then StuckLaw(w, p, w1) else HumanLaw(w, p, w1)
  {
    hide HealRound, StuckLaw;
    if heal && Stuck(w, p) { StuckPollLaw(w, p); }
    if p.state == LoggedIn { LoggedInIs(w, p); }
  }

  lemma LoggedInIs(w: Watch, p: Poll)
    requires p.state == LoggedIn
    ensures LoggedInLaw(w, p, Check(w, p, true)) && Check(w, p, true) == Check(w, p, false)
  {
  }

  /** The restart is the fourth or a later one of the episode, and half an hour old. */
  predicate FourthIsOld(last: Restart, episode: nat, at: real) {
    last.episode == episode && last.number >= 4 && at - last.at >= 1800.0
  }

  /** Said of any run of polls and read off what was done before: a stuck poll tells somebody exactly when
      it restarts nothing, the last restart is the fourth or a later one of this episode and half an hour
      old, and the last alert, if it is of this episode, six hours old. */
  lemma HealAlertIff(polls: seq<Poll>, p: Poll)
    requires InOrder(polls + [p]) && Stuck(Watching(START, polls, true), p)
    ensures var w, w1 := Watching(START, polls, true), Watching(START, polls + [p], true);
            && (w1.alerts == w.alerts || w1.alerts == w.alerts + [Alert(p.at, w.episode, true, |w.restarts|)])
            && (w1.alerts != w.alerts <==>
                  && w1.restarts == w.restarts && w.restarts != []
                  && FourthIsOld(w.restarts[|w.restarts| - 1], w.episode, p.at)
                  && (w.alerts == [] || w.alerts[|w.alerts| - 1].episode != w.episode
                      || p.at - w.alerts[|w.alerts| - 1].at >= 21600.0))
  {
    hide Check, AllSpaced, Numbered, AlertedLate, AlertsSpaced;
    var all := polls + [p];
    assert all[..|polls|] == polls;
    assert InOrder(polls) by { assert forall k | 0 <= k < |polls| :: all[k] == polls[k]; }
    EveryWatchKeeps(polls, true);
    StuckPollLaw(Watching(START, polls, true), p);
  }

  // ---- the alerts keep coming ----

  /** How long after the episode began the k-th restart comes at most, for k up to 5. */
  function Reach(k: nat, d: real): real {
    if k == 0 then 0.0 else Reach(k - 1, d) + (if k == 5 then 3600.0 else 1800.0) + d
  }

  function Later(a: real, b: real): real {
    if a < b then b else a
  }

  /** The restarts of the episode are on time, at the time of a stuck poll. */
  predicate Pace(w: Watch, at: real, d: real) {
    && w.stuckSince.Some? && w.stuckSince.value <= at
    && (w.attempts == 0 ==> w.lastHeal <= w.stuckSince.value && at - w.stuckSince.value < 1800.0)
    && (w.attempts > 0 ==> w.stuckSince.value < w.lastHeal <= at && 0.0 < w.lastHeal && at - w.lastHeal < Gap(w.attempts))
    && (w.attempts <= 5 ==> w.lastHeal <= w.stuckSince.value + Reach(w.attempts, d))
  }

  /** From when on somebody may be told. */
  function Allowed(w: Watch): real
    requires w.stuckSince.Some?
  {
    if w.alerted then w.lastAlert + 21600.0 else w.stuckSince.value
  }

  /** Why nobody was told at a stuck poll: it is too early, too few restarts went out, or the last has not
      had half an hour. */
  predicate Waiting(w: Watch, at: real, d: real)
    requires w.stuckSince.Some?
  {
    || at < Allowed(w) || w.attempts < 4
    || (at - w.lastHeal < 1800.0 && (w.attempts == 4 || w.lastHeal <= Later(Allowed(w) + d, w.stuckSince.value + Reach(5, d))))
  }

  /** When somebody is told at the latest, if a stuck poll comes then. */
  function Latest(w: Watch, d: real): real
    requires w.stuckSince.Some?
  {
    Later(Allowed(w) + d + 1800.0, w.stuckSince.value + Reach(5, d) + 1800.0)
  }

  lemma ReachIs(d: real)
    ensures Reach(0, d) == 0.0 && Reach(1, d) == 1800.0 + d && Reach(2, d) == 3600.0 + 2.0 * d && Reach(3, d) == 5400.0 + 3.0 * d
    ensures Reach(4, d) == 7200.0 + 4.0 * d && Reach(5, d) == 10800.0 + 5.0 * d
  {
  }

  lemma WaitingBounds(w: Watch, at: real, d: real)
    requires Pace(w, at, d) && Waiting(w, at, d) && d >= 0.0
    ensures at < Latest(w, d)
  {
    hide Reach;
    ReachIs(d);
    assert w.attempts == 0 || w.attempts == 1 || w.attempts == 2 || w.attempts == 3 || w.attempts >= 4;
  }

  predicate Dense(d: real) {
    0.0 <= d <= 5400.0
  }

  predicate Steps(w: Watch, p: Poll, at: real, d: real) {
    Pace(w, at, d) && Waiting(w, at, d) && Stuck(w, p) && at <= p.at <= at + d && Dense(d) && p.at > 0.0
  }

  lemma StuckPace(w: Watch, p: Poll, at: real, d: real)
    requires Steps(w, p, at, d)
    ensures Pace(Check(w, p, true), p.at, d)
  {
    hide Check, Waiting, Reach;
    StuckPollLaw(w, p);
    ReachIs(d);
    assert w.attempts == 0 || w.attempts == 1 || w.attempts == 2 || w.attempts == 3 || w.attempts == 4 || w.attempts >= 5;
  }

  /** A stuck poll leaves the reason for silence, or tells somebody in time. */
  lemma StuckWaits(w: Watch, p: Poll, at: real, d: real)
    requires Steps(w, p, at, d)
    ensures var w1 := Check(w, p, true);
            && Pace(w1, p.at, d) && Waiting(w1, p.at, d) && w1.stuckSince == w.stuckSince
            && (w1.alerts != w.alerts ==> p.at < Latest(w, d) + d)
  {
    StuckPace(w, p, at, d);
    WaitingBounds(w, at, d);
    hide Check, Reach;
    StuckPollLaw(w, p);
    ReachIs(d);
  }

  /** A heal alert of this episode comes in time: after the alert before it, or after the episode began. */
  predicate AlertInTime(w: Watch, i: nat, d: real)
    requires i < |w.alerts| && w.stuckSince.Some?
  {
    w.alerts[i].healing ==>
      w.alerts[i].at < if i > 0 && w.alerts[i - 1].episode == w.episode
                       then Later(w.alerts[i - 1].at + 23400.0 + 2.0 * d, w.stuckSince.value + 12600.0 + 6.0 * d)
                       else w.stuckSince.value + 12600.0 + 6.0 * d
  }

  predicate AlertsInTime(w: Watch, d: real) {
    w.stuckSince.Some? && forall i: nat | i < |w.alerts| && w.alerts[i].episode == w.episode :: AlertInTime(w, i, d)
  }

  lemma NewAlertInTime(w: Watch, w1: Watch, d: real, a: Alert)
    requires AlertsInTime(w, d) && AlertsKnown(w) && w1.stuckSince == w.stuckSince && w1.episode == w.episode
    requires w1.alerts == w.alerts + [a] && (a.healing ==> a.at < Latest(w, d) + d) && Dense(d)
    ensures AlertsInTime(w1, d)
  {
    hide Reach;
    ReachIs(d);
    var n := |w.alerts|;
    forall i: nat | i < |w1.alerts| && w1.alerts[i].episode == w1.episode ensures AlertInTime(w1, i, d) {
      if i < n {
        assert AlertInTime(w, i, d) && w1.alerts[i] == w.alerts[i];
        if i > 0 { assert w1.alerts[i - 1] == w.alerts[i - 1]; }
      } else if n > 0 {
        assert w1.alerts[n - 1] == w.alerts[n - 1];
        assert w.alerts[n - 1] in w.alerts;
      }
    }
  }

  lemma SameAlertsInTime(w: Watch, w1: Watch, d: real)
    requires AlertsInTime(w, d) && w1.stuckSince == w.stuckSince && w1.episode == w.episode && w1.alerts == w.alerts
    ensures AlertsInTime(w1, d)
  {
    forall i: nat | i < |w1.alerts| && w1.alerts[i].episode == w1.episode ensures AlertInTime(w1, i, d) {
      assert AlertInTime(w, i, d);
    }
  }

  /** In the middle of an episode: at is the time of its last stuck poll, now that of the last poll. */
  predicate Listening(w: Watch, at: real, now: real, d: real) {
    && Inv(w) && Pace(w, at, d) && Waiting(w, at, d) && AlertsInTime(w, d)
    && Dense(d) && 0.0 < at <= now && w.lastAlert <= now
  }

  lemma InvKnows(w: Watch)
    requires Inv(w)
    ensures AlertsKnown(w)
  {
  }

  lemma StuckListens(w: Watch, p: Poll, at: real, now: real, d: real)
    requires Listening(w, at, now, d) && Stuck(w, p) && now <= p.at <= at + d
    ensures var w1 := Check(w, p, true);
            Listening(w1, p.at, p.at, d) && w1.stuckSince == w.stuckSince && w1.everIn == w.everIn
  {
    hide Check, Inv, Pace, Waiting, AlertsInTime, AlertsKnown, Latest;
    CheckKeeps(w, p, true);
    StuckWaits(w, p, at, d);
    StuckPollLaw(w, p);
    InvKnows(w);
    if Check(w, p, true).alerts != w.alerts {
      NewAlertInTime(w, Check(w, p, true), d, Alert(p.at, w.episode, true, |w.restarts|));
    } else {
      SameAlertsInTime(w, Check(w, p, true), d);
    }
  }

  /** A poll that is not stuck and not logged_in at most tells a human. */
  predicate OtherLaw(w: Watch, p: Poll, w1: Watch) {
    w1 == w.(lastState := Some(p.state)) || HumanLaw(w, p, w1)
  }

  lemma OtherPollLaw(w: Watch, p: Poll)
    requires !Stuck(w, p) && p.state != LoggedIn
    ensures OtherLaw(w, p, Check(w, p, true))
  {
    hide HealRound;
  }

  lemma OtherListens(w: Watch, p: Poll, at: real, now: real, d: real)
    requires Listening(w, at, now, d) && !Stuck(w, p) && p.state != LoggedIn && now <= p.at
    ensures var w1 := Check(w, p, true);
            Listening(w1, at, p.at, d) && w1.stuckSince == w.stuckSince && w1.everIn == w.everIn
  {
    hide Check, Inv, AlertsInTime, AlertsKnown, Reach;
    var w1 := Check(w, p, true);
    CheckKeeps(w, p, true);
    OtherPollLaw(w, p);
    InvKnows(w);
    if w1.alerts != w.alerts {
      NewAlertInTime(w, w1, d, Alert(p.at, w.episode, false, |w.restarts|));
    } else {
      SameAlertsInTime(w, w1, d);
    }
  }

  lemma {:induction false} EpisodeListens(w: Watch, polls: seq<Poll>, at: real, now: real, d: real)
    requires Listening(w, at, now, d) && PolledWithin(w.everIn, polls, at, d)
    requires InOrder(polls) && (polls != [] ==> now <= polls[0].at)
    ensures var w1 := Through(w, polls);
            Listening(w1, LastStuck(w.everIn, polls, at), if polls == [] then now else polls[|polls| - 1].at, d) && w1.stuckSince == w.stuckSince
    decreases |polls|
  {
    hide Check, Listening;
    if polls != [] {
      var p := polls[0];
      ListeningInv(w, at, now, d);
      if Stuck(w, p) { StuckListens(w, p, at, now, d); } else { OtherListens(w, p, at, now, d); }
      EpisodeListens(Check(w, p, true), polls[1..], StuckAt(w.everIn, p, at), p.at, d);
    }
  }

  lemma ListeningInv(w: Watch, at: real, now: real, d: real)
    requires Listening(w, at, now, d)
    ensures Inv(w) && at <= now
  {
  }

  /** Nobody was told by the self-heal in this episode. */
  predicate Unhealed(w: Watch) {
    forall a <- w.alerts :: a.episode == w.episode ==> !a.healing
  }

  lemma EpisodeBegins(w: Watch, p: Poll, d: real)
    requires Inv(w) && w.stuckSince.None? && Stuck(w, p) && p.at > 0.0 && p.at >= w.lastHeal && p.at >= w.lastAlert && Dense(d)
    requires Unhealed(w)
    ensures var w1 := Check(w, p, true);
            Listening(w1, p.at, p.at, d) && w1.stuckSince == Some(p.at) && w1.everIn == w.everIn
  {
    hide Check, Inv, Reach;
    ReachIs(d);
    CheckKeeps(w, p, true);
    StuckPollLaw(w, p);
  }

  /** An episode: its first poll is stuck, and from then on stuck states are polled at most d apart. */
  predicate Episode(earlier: seq<Poll>, polls: seq<Poll>, d: real) {
    && InOrder(earlier + polls) && polls != []
    && var w := Watching(START, earlier, true);
       w.stuckSince.None? && Stuck(w, polls[0]) && PolledWithin(w.everIn, polls[1..], polls[0].at, d)
  }

  lemma NewEpisodeUnhealed(w: Watch, p: Poll)
    requires Inv(w) && (w.stuckSince.None? ==> Unhealed(w))
    ensures var w1 := Check(w, p, true); w1.stuckSince.None? ==> Unhealed(w1)
  {
    hide Check, StuckLaw;
    PollLaw(w, p, true);
    InvKnows(w);
    if Stuck(w, p) { StuckOpens(w, p); }
  }

  lemma StuckOpens(w: Watch, p: Poll)
    requires Stuck(w, p)
    ensures Check(w, p, true).stuckSince.Some?
  {
    hide Check;
    StuckPollLaw(w, p);
  }

  lemma {:induction false} NoneHealed(polls: seq<Poll>)
    requires InOrder(polls)
    ensures var w := Watching(START, polls, true); w.stuckSince.None? ==> Unhealed(w)
  {
    hide Check, Inv, Unhealed;
    if polls != [] {
      var n := |polls| - 1;
      NoneHealed(polls[..n]);
      EveryWatchKeeps(polls[..n], true);
      NewEpisodeUnhealed(Watching(START, polls[..n], true), polls[n]);
    } else {
      StartUnhealed();
    }
  }

  lemma StartUnhealed()
    ensures Unhealed(START)
  {
  }

  /** The time up to which a stuck poll may find nobody told since: 23400 + d seconds after the last alert of
      the episode, or 12600 + 5 d seconds after its beginning. */
  function SilenceEnds(w: Watch, began: real, d: real): real {
    if w.alerts != [] && w.alerts[|w.alerts| - 1].episode == w.episode
    then Later(w.alerts[|w.alerts| - 1].at + 23400.0 + d, began + 12600.0 + 5.0 * d)
    else began + 12600.0 + 5.0 * d
  }

  predicate ToldInTime(earlier: seq<Poll>, polls: seq<Poll>, d: real)
    requires polls != []
  {
    LastStuck(Watching(START, earlier, true).everIn, polls[1..], polls[0].at)
    < SilenceEnds(Watching(START, earlier + polls, true), polls[0].at, d)
  }

  /** With polls at most 5400 seconds apart the first heal alert of an episode comes within 12600 + 6 d
      seconds, and each later one within 23400 + 2 d seconds of the alert before it (or within the first
      bound); and no stuck poll finds a longer silence. */
  lemma HealAlertsKeepComing(earlier: seq<Poll>, polls: seq<Poll>, d: real)
    requires Episode(earlier, polls, d) && Dense(d)
    ensures var w1 := Watching(START, earlier + polls, true);
            w1.stuckSince == Some(polls[0].at) && AlertsInTime(w1, d) && ToldInTime(earlier, polls, d)
  {
    var w, p := Watching(START, earlier, true), polls[0];
    InOrderParts(earlier, polls);
    EveryWatchKeeps(earlier, true);
    NoneHealed(earlier);
    HealTimes(earlier);
    hide Check, Inv, AlertsInTime, Unhealed, Listening;
    EpisodeBegins(w, p, d);
    EpisodeListens(Check(w, p, true), polls[1..], p.at, p.at, d);
    WatchThrough(START, earlier, polls);
    var w1 := Through(w, polls);
    assert w1 == Through(Check(w, p, true), polls[1..]);
    ListeningTells(w1, LastStuck(w.everIn, polls[1..], p.at), polls[|polls| - 1].at, d);
  }

  lemma ListeningTells(w: Watch, at: real, now: real, d: real)
    requires Listening(w, at, now, d)
    ensures w.stuckSince.Some? && AlertsInTime(w, d) && at < SilenceEnds(w, w.stuckSince.value, d)
  {
    hide AlertsInTime, Reach, AllSpaced, Numbered, AlertedLate, AlertsSpaced;
    ReachIs(d);
    WaitingBounds(w, at, d);
  }

  // ---- how dense the polls must be ----

  /** Stuck polls of an episode: at 1 and 181 seconds, and then two for every two hours, g seconds apart. */
  function Sparse(g: real, n: nat): (polls: seq<Poll>)
    ensures |polls| == 2 + 2 * n
  {
    if n == 0 then [Poll(ReloginRequired, 1.0, None), Poll(ReloginRequired, 181.0, None)]
    else
      var t := 181.0 + 7200.0 * (n as real);
      Sparse(g, n - 1) + [Poll(ReloginRequired, t - g, None), Poll(ReloginRequired, t, None)]
  }

  lemma {:induction false} SparseTimes(g: real, n: nat)
    requires 5400.0 < g <= 7200.0
    ensures var polls := Sparse(g, n);
            && InOrder(polls) && polls[0] == Poll(ReloginRequired, 1.0, None) && polls[|polls| - 1].at == 181.0 + 7200.0 * (n as real)
            && forall k | 0 <= k < |polls| :: polls[k].state == ReloginRequired
  {
    if n > 0 { SparseTimes(g, n - 1); }
  }

  /** Every second poll restarts the gateway, and nobody is ever told. */
  lemma {:induction false} SparseIsSilent(g: real, n: nat)
    requires 5400.0 < g <= 7200.0
    ensures var w := Watching(START, Sparse(g, n), true);
            && w.stuckSince == Some(1.0) && w.attempts == n + 1 && w.lastHeal == 181.0 + 7200.0 * (n as real)
            && w.alerts == [] && !w.alerted
    decreases n
  {
    hide Check;
    if n == 0 {
      var a, b := Poll(ReloginRequired, 1.0, None), Poll(ReloginRequired, 181.0, None);
      assert [a, b][..1] == [a] && [a][..0] == [];
      StuckPollLaw(START, a);
      StuckPollLaw(Check(START, a, true), b);
      assert Watching(START, [a], true) == Check(Watching(START, [a][..0], true), a, true);
      assert Watching(START, [a, b], true) == Check(Watching(START, [a, b][..1], true), b, true);
    } else {
      SparseIsSilent(g, n - 1);
      SparseCycle(g, n);
    }
  }

  lemma SparseCycle(g: real, n: nat)
    requires n > 0 && 5400.0 < g <= 7200.0
    requires var w := Watching(START, Sparse(g, n - 1), true);
             && w.stuckSince == Some(1.0) && w.attempts == n && w.lastHeal == 181.0 + 7200.0 * ((n - 1) as real)
             && w.alerts == [] && !w.alerted
    ensures var w := Watching(START, Sparse(g, n), true);
            && w.stuckSince == Some(1.0) && w.attempts == n + 1 && w.lastHeal == 181.0 + 7200.0 * (n as real)
            && w.alerts == [] && !w.alerted
  {
    hide Check;
    var w, polls := Watching(START, Sparse(g, n - 1), true), Sparse(g, n);
    var m := |polls| - 1;
    SparseLast(g, n);
    var w1 := Check(w, polls[m - 1], true);
    StuckPollLaw(w, polls[m - 1]);
    StuckPollLaw(w1, polls[m]);
    assert Watching(START, polls, true) == Check(w1, polls[m], true);
  }

  lemma SparseLast(g: real, n: nat)
    requires n > 0
    ensures var polls, t := Sparse(g, n), 181.0 + 7200.0 * (n as real);
            var m := |polls| - 1;
            && polls[..m][..m - 1] == Sparse(g, n - 1) && polls[m - 1] == Poll(ReloginRequired, t - g, None) && polls[m] == Poll(ReloginRequired, t, None)
  {
    var t := 181.0 + 7200.0 * (n as real);
    var before, last := Sparse(g, n - 1), [Poll(ReloginRequired, t - g, None), Poll(ReloginRequired, t, None)];
    assert Sparse(g, n) == before + last;
    assert (before + last)[..|before|] == before;
  }

  /** Poll k comes at most d after the one before it. */
  predicate Near(polls: seq<Poll>, k: int, d: real)
    requires 0 < k < |polls|
  {
    polls[k].at <= polls[k - 1].at + d
  }

  lemma {:induction false} AllStuckWithin(polls: seq<Poll>, at: real, d: real)
    requires forall k | 0 <= k < |polls| :: polls[k].state == ReloginRequired
    requires (polls != [] ==> polls[0].at <= at + d) && forall k | 0 < k < |polls| :: Near(polls, k, d)
    ensures PolledWithin(false, polls, at, d)
    ensures LastStuck(false, polls, at) == if polls == [] then at else polls[|polls| - 1].at
    decreases |polls|
  {
    if polls != [] {
      var p, rest := polls[0], polls[1..];
      assert StuckAt(false, p, at) == p.at;
      NearLater(polls, d);
      AllStuckWithin(rest, p.at, d);
    }
  }

  lemma NearLater(polls: seq<Poll>, d: real)
    requires polls != [] && (forall k | 0 < k < |polls| :: Near(polls, k, d)) && forall k | 0 <= k < |polls| :: polls[k].state == ReloginRequired
    ensures var rest := polls[1..];
            && (forall k | 0 < k < |rest| :: Near(rest, k, d)) && (rest != [] ==> rest[0].at <= polls[0].at + d)
            && forall k | 0 <= k < |rest| :: rest[k].state == ReloginRequired
  {
    var rest := polls[1..];
    if rest != [] { assert Near(polls, 1, d); }
    forall k | 0 < k < |rest| ensures Near(rest, k, d) { assert Near(polls, k + 1, d); }
  }

  lemma {:induction false} SparseGaps(g: real, n: nat, d: real)
    requires 5400.0 < g <= 7200.0 && g <= d
    ensures forall k | 0 < k < |Sparse(g, n)| :: Near(Sparse(g, n), k, d)
  {
    if n > 0 {
      SparseGaps(g, n - 1, d);
      SparseTimes(g, n - 1);
      var before, polls := Sparse(g, n - 1), Sparse(g, n);
      forall k | 0 < k < |polls| ensures Near(polls, k, d) {
        if k < |before| { assert Near(before, k, d); }
      }
    }
  }

  lemma SparseIsEpisode(g: real, n: nat, d: real)
    requires 5400.0 < g <= 7200.0 && g <= d
    ensures Episode([], Sparse(g, n), d) && LastStuck(false, Sparse(g, n)[1..], 1.0) == 181.0 + 7200.0 * (n as real)
  {
    hide Sparse;
    SparseTimes(g, n);
    SparseGaps(g, n, d);
    EpisodeOf(Sparse(g, n), d);
  }

  /** Polls that are all stuck, at most d apart. */
  lemma EpisodeOf(polls: seq<Poll>, d: real)
    requires polls != [] && InOrder(polls) && forall k | 0 <= k < |polls| :: polls[k].state == ReloginRequired
    requires forall k | 0 < k < |polls| :: Near(polls, k, d)
    ensures Episode([], polls, d) && LastStuck(false, polls[1..], polls[0].at) == polls[|polls| - 1].at
  {
    hide PolledWithin, LastStuck, Watching, Near, InOrder;
    assert [] + polls == polls;
    StartWatches();
    NearLater(polls, d);
    var rest := polls[1..];
    AllStuckWithin(rest, polls[0].at, d);
    if rest != [] { assert rest[|rest| - 1] == polls[|polls| - 1]; }
  }

  lemma StartWatches()
    ensures Watching(START, [], true) == START
  {
  }

  /** Somebody is told in time in every episode polled at most d apart, if and only if d is at most 5400:
      with wider gaps there are polls each of which either restarts the gateway or comes too soon after. */
  lemma HealAlertsComeIff(d: real)
    requires d >= 0.0
    ensures (forall earlier, polls | Episode(earlier, polls, d) :: ToldInTime(earlier, polls, d)) <==> d <= 5400.0
  {
    hide ToldInTime;
    if d <= 5400.0 {
      forall earlier, polls | Episode(earlier, polls, d) ensures ToldInTime(earlier, polls, d) {
        EpisodeHasPolls(earlier, polls, d);
        HealAlertsKeepComing(earlier, polls, d);
      }
    } else {
      var g := if d < 7200.0 then d else 7200.0;
      var n := (12600.0 + 5.0 * d).Floor + 1;
      SparseIsEpisode(g, n, d);
      SparseTooLate(g, n, d);
      assert Episode([], Sparse(g, n), d) && !ToldInTime([], Sparse(g, n), d);
    }
  }

  lemma EpisodeHasPolls(earlier: seq<Poll>, polls: seq<Poll>, d: real)
    requires Episode(earlier, polls, d)
    ensures polls != []
  {
  }

  lemma SparseTooLate(g: real, n: nat, d: real)
    requires 5400.0 < g <= 7200.0 && g <= d && (n as real) >= 12600.0 + 5.0 * d
    ensures Sparse(g, n) != [] && !ToldInTime([], Sparse(g, n), d)
  {
    var polls := Sparse(g, n);
    SparseTimes(g, n);
    SparseIsSilent(g, n);
    SparseIsEpisode(g, n, d);
    assert [] + polls == polls;
  }
}
