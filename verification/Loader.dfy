/** The memoised price loader of backend/turnaround_validation.py, called by prefetch workers and
    date loop at once. */
module Loader {
  import opened BotTypes

  type Ticker = nat
  type Tid = nat
  type Frame = int

  /** What a network fetch gives: a frame or none, a rate-limit error, or another error. */
  datatype Reply = Got(frame: Option<Frame>) | RateLimited | Failed

  /** Where a call is.  From Rechecking on it holds its ticker's lock. */
  datatype Pc =
    | Idle
    | Waiting(k: Ticker)       // missed the memo, wants the lock
    | Rechecking(k: Ticker)
    | AtDisk(k: Ticker)
    | AtMarker(k: Ticker)
    | AtNetwork(k: Ticker)
    | Retrying(k: Ticker)      // after an error that is not a rate limit

  /** How a call ended. */
  datatype Outcome = Returned(k: Ticker, value: Option<Frame>, fast: bool) | Raised(k: Ticker, cachedThen: bool)

  /** The memo (None: a ticker without data), the locks and the calls; and, for the properties, how
      often each entry was written, the network fetches of each ticker and how each call ended. */
  datatype System = System(
    memo: map<Ticker, Option<Frame>>, locks: map<Ticker, Tid>, pcs: map<Tid, Pc>, prefetch: bool,
    writes: map<Ticker, nat>, fetches: seq<Ticker>, ended: seq<Outcome>)

  datatype Action =
    | Call(t: Tid, k: Ticker)
    | Acquire(t: Tid)
    | Recheck(t: Tid)
    | LoadDisk(t: Tid, hit: Option<Frame>, negative: bool)
    | CheckMarker(t: Tid, marked: bool)
    | Fetch(t: Tid, reply: Reply)
    | Refetch(t: Tid, reply: Reply)
    | SetPrefetch(on: bool)

  const START := System(map[], map[], map[], false, map[], [], [])

  function At(s: System, t: Tid): Pc {
    if t in s.pcs then s.pcs[t] else Idle
  }

  function Goto(s: System, t: Tid, pc: Pc): System {
    s.(pcs := s.pcs[t := pc])
  }

  /** The call ends; a lock it holds is released. */
  function End(s: System, t: Tid, o: Outcome, held: bool): System {
    s.(pcs := s.pcs[t := Idle], locks := if held then s.locks - {o.k} else s.locks, ended := s.ended + [o])
  }

  function Writes(s: System, k: Ticker): nat {
    if k in s.writes then s.writes[k] else 0
  }

  /** _cache[ticker] = value, and the call returns it. */
  function Store(s: System, t: Tid, k: Ticker, value: Option<Frame>): System {
    End(s.(memo := s.memo[k := value], writes := s.writes[k := Writes(s, k) + 1]), t, Returned(k, value, false), true)
  }

  function CallStep(s: System, t: Tid, k: Ticker): System {
    if !At(s, t).Idle? then s
    else if k in s.memo then End(s, t, Returned(k, s.memo[k], true), false)
    else Goto(s, t, Waiting(k))
  }

  function AcquireStep(s: System, t: Tid): System {
    var pc := At(s, t);
    if !pc.Waiting? || pc.k in s.locks then s
    else Goto(s.(locks := s.locks[pc.k := t]), t, Rechecking(pc.k))
  }

  function RecheckStep(s: System, t: Tid): System {
    var pc := At(s, t);
    if !pc.Rechecking? then s
    else if pc.k in s.memo then End(s, t, Returned(pc.k, s.memo[pc.k], false), true)
    else Goto(s, t, AtDisk(pc.k))
  }

  function DiskStep(s: System, t: Tid, hit: Option<Frame>, negative: bool): System {
    var pc := At(s, t);
    if !pc.AtDisk? then s
    else if hit.Some? then Store(s, t, pc.k, hit)
    else Goto(s, t, if negative then AtMarker(pc.k) else AtNetwork(pc.k))
  }

  function MarkerStep(s: System, t: Tid, marked: bool): System {
    var pc := At(s, t);
    if !pc.AtMarker? then s else if marked then Store(s, t, pc.k, None) else Goto(s, t, AtNetwork(pc.k))
  }

  function FetchStep(s: System, t: Tid, reply: Reply): System {
    var pc := At(s, t);
    if !pc.AtNetwork? then s
    else
      var f := s.(fetches := s.fetches + [pc.k]);
      match reply
      case Got(frame) => Store(f, t, pc.k, frame)
      case RateLimited => if s.prefetch then End(f, t, Raised(pc.k, pc.k in s.memo), true) else Store(f, t, pc.k, None)
      case Failed => Goto(f, t, Retrying(pc.k))
  }

  /** The one retry; any error of it, a rate limit too, is a ticker without data. */
  function RefetchStep(s: System, t: Tid, reply: Reply): System {
    var pc := At(s, t);
    if !pc.Retrying? then s
    else Store(s.(fetches := s.fetches + [pc.k]), t, pc.k, if reply.Got? then reply.frame else None)
  }

  function Do(s: System, a: Action): System {
    match a
    case Call(t, k) => CallStep(s, t, k)
    case Acquire(t) => AcquireStep(s, t)
    case Recheck(t) => RecheckStep(s, t)
    case LoadDisk(t, hit, negative) => DiskStep(s, t, hit, negative)
    case CheckMarker(t, marked) => MarkerStep(s, t, marked)
    case Fetch(t, reply) => FetchStep(s, t, reply)
    case Refetch(t, reply) => RefetchStep(s, t, reply)
    case SetPrefetch(on) => s.(prefetch := on)
  }

  function Interleave(s: System, actions: seq<Action>): System {
    if actions == [] then s else Do(Interleave(s, actions[..|actions| - 1]), actions[|actions| - 1])
  }

  // ---- what every interleaving keeps ----

  /** The call is in its ticker's section. */
  predicate Holds(pc: Pc) {
    !pc.Idle? && !pc.Waiting?
  }

  /** A call works at disk or network only for a ticker that is not in the memo. */
  predicate Working(pc: Pc) {
    pc.AtDisk? || pc.AtMarker? || pc.AtNetwork? || pc.Retrying?
  }

  predicate LocksOk(s: System) {
    && (forall t <- s.pcs :: Holds(s.pcs[t]) ==> s.pcs[t].k in s.locks && s.locks[s.pcs[t].k] == t)
    && (forall k <- s.locks :: s.locks[k] in s.pcs && Holds(s.pcs[s.locks[k]]) && s.pcs[s.locks[k]].k == k)
    && (forall t <- s.pcs :: Working(s.pcs[t]) ==> s.pcs[t].k !in s.memo)
  }

  predicate EndedOk(s: System) {
    forall o <- s.ended ::
      match o
      case Returned(k, value, _) => k in s.memo && s.memo[k] == value
      case Raised(_, cachedThen) => !cachedThen
  }

  predicate Inv(s: System) {
    && LocksOk(s) && EndedOk(s)
    && (forall k <- s.writes :: s.writes[k] == 1 && k in s.memo)
    && (forall k <- s.memo :: k in s.writes)
  }

  lemma GotoKeeps(s: System, t: Tid, pc: Pc)
    requires Inv(s) && Holds(At(s, t)) && Holds(pc) && pc.k == At(s, t).k && (Working(pc) ==> pc.k !in s.memo)
    ensures Inv(Goto(s, t, pc))
  {
  }

  lemma StoreKeeps(s: System, t: Tid, k: Ticker, value: Option<Frame>)
    requires Inv(s) && Working(At(s, t)) && At(s, t).k == k
    ensures Inv(Store(s, t, k, value))
  {
    var s1 := Store(s, t, k, value);
    forall t1 <- s1.pcs | Holds(s1.pcs[t1])
      ensures s1.pcs[t1].k in s1.locks && s1.locks[s1.pcs[t1].k] == t1 && (Working(s1.pcs[t1]) ==> s1.pcs[t1].k !in s1.memo)
    {
      assert s1.pcs[t1] == s.pcs[t1] && s.locks[k] == t;
    }
  }

  lemma EndKeeps(s: System, t: Tid, o: Outcome, held: bool)
    requires Inv(s) && (if held then Holds(At(s, t)) && At(s, t).k == o.k else At(s, t).Idle?)
    requires match o
             case Returned(k, value, _) => k in s.memo && s.memo[k] == value
             case Raised(_, cachedThen) => !cachedThen
    ensures Inv(End(s, t, o, held))
  {
    var s1 := End(s, t, o, held);
    forall t1 <- s1.pcs | Holds(s1.pcs[t1]) ensures s1.pcs[t1].k in s1.locks && s1.locks[s1.pcs[t1].k] == t1 {
      assert s1.pcs[t1] == s.pcs[t1];
    }
  }

  lemma CallKeeps(s: System, t: Tid, k: Ticker)
    requires Inv(s)
    ensures Inv(CallStep(s, t, k))
  {
    if At(s, t).Idle? && k in s.memo { EndKeeps(s, t, Returned(k, s.memo[k], true), false); }
  }

  lemma AcquireKeeps(s: System, t: Tid)
    requires Inv(s)
    ensures Inv(AcquireStep(s, t))
  {
  }

  lemma DoKeeps(s: System, a: Action)
    requires Inv(s)
    ensures Inv(Do(s, a))
  {
    hide Goto, Store, End, Inv;
    InvIs(s);
    match a
    case Call(t, k) => CallKeeps(s, t, k);
    case Acquire(t) => AcquireKeeps(s, t);
    case Recheck(t) =>
      var pc := At(s, t);
      if pc.Rechecking? {
        if pc.k in s.memo { EndKeeps(s, t, Returned(pc.k, s.memo[pc.k], false), true); }
        else { GotoKeeps(s, t, AtDisk(pc.k)); }
      }
    case LoadDisk(t, hit, negative) =>
      var pc := At(s, t);
      if pc.AtDisk? {
        if hit.Some? { StoreKeeps(s, t, pc.k, hit); }
        else { GotoKeeps(s, t, if negative then AtMarker(pc.k) else AtNetwork(pc.k)); }
      }
    case CheckMarker(t, marked) =>
      var pc := At(s, t);
      if pc.AtMarker? {
        StoreKeeps(s, t, pc.k, None);
        GotoKeeps(s, t, AtNetwork(pc.k));
      }
    case Fetch(t, reply) =>
      var pc := At(s, t);
      if pc.AtNetwork? {
        var f := s.(fetches := s.fetches + [pc.k]);
        FetchesSame(s, f);
        match reply
        case Got(frame) => StoreKeeps(f, t, pc.k, frame);
        case RateLimited =>
          EndKeeps(f, t, Raised(pc.k, pc.k in s.memo), true);
          StoreKeeps(f, t, pc.k, None);
        case Failed => GotoKeeps(f, t, Retrying(pc.k));
      }
    case Refetch(t, reply) =>
      var pc := At(s, t);
      if pc.Retrying? {
        var f := s.(fetches := s.fetches + [pc.k]);
        FetchesSame(s, f);
        StoreKeeps(f, t, pc.k, if reply.Got? then reply.frame else None);
      }
    case SetPrefetch(on) => FetchesSame(s, s.(prefetch := on));
  }

  lemma InvIs(s: System)
    requires Inv(s)
    ensures LocksOk(s)
  {
  }

  lemma FetchesSame(s: System, s1: System)
    requires Inv(s) && s1 == s.(fetches := s1.fetches, prefetch := s1.prefetch)
    ensures Inv(s1)
  {
  }

  lemma {:induction false} EveryInterleavingKeeps(actions: seq<Action>)
    ensures Inv(Interleave(START, actions))
  {
    if actions != [] {
      EveryInterleavingKeeps(actions[..|actions| - 1]);
      DoKeeps(Interleave(START, actions[..|actions| - 1]), actions[|actions| - 1]);
    }
  }

  /** For every interleaving of the workers and the date loop: at most one call is in a ticker's
      disk-and-network section; an entry is written once; every call that returns a value returns the
      entry; and a rate limit raised to the prefetch leaves the entry unset. */
  lemma OneFetcherOneWrite(actions: seq<Action>, a: Tid, b: Tid, k: Ticker)
    ensures var s := Interleave(START, actions);
            && (a in s.pcs && b in s.pcs && Holds(s.pcs[a]) && Holds(s.pcs[b]) && s.pcs[a].k == s.pcs[b].k ==> a == b)
            && Writes(s, k) <= 1 && (Writes(s, k) == 1 <==> k in s.memo)
            && EndedOk(s)
  {
    EveryInterleavingKeeps(actions);
  }

  function FetchesOf(fetches: seq<Ticker>, k: Ticker): nat {
    if fetches == [] then 0 else FetchesOf(fetches[..|fetches| - 1], k) + if fetches[|fetches| - 1] == k then 1 else 0
  }

  /** Once an entry is there it stays, and its ticker is never fetched again. */
  lemma {:induction false} NoFetchAfterwards(actions: seq<Action>, more: seq<Action>, k: Ticker)
    requires k in Interleave(START, actions).memo
    ensures var s, s1 := Interleave(START, actions), Interleave(START, actions + more);
            && k in s1.memo && s1.memo[k] == s.memo[k]
            && FetchesOf(s1.fetches, k) == FetchesOf(s.fetches, k)
  {
    hide Do, Inv, FetchesOf;
    if more == [] {
      assert actions + more == actions;
    } else {
      var n := |more| - 1;
      NoFetchAfterwards(actions, more[..n], k);
      assert (actions + more)[..|actions| + n] == actions + more[..n];
      var s := Interleave(START, actions + more[..n]);
      EveryInterleavingKeeps(actions + more[..n]);
      MemoStays(s, more[n], k);
    }
  }

  lemma FetchesOfLast(fetches: seq<Ticker>, last: Ticker, k: Ticker)
    ensures FetchesOf(fetches + [last], k) == FetchesOf(fetches, k) + if last == k then 1 else 0
  {
    assert (fetches + [last])[..|fetches|] == fetches;
  }

  function Acting(a: Action): Tid {
    if a.SetPrefetch? then 0 else a.t
  }

  /** A step fetches and writes only for the ticker its call works on. */
  predicate Touches(s: System, s1: System, t: Tid) {
    var pc := At(s, t);
    && (s1.memo == s.memo || (Working(pc) && pc.k in s1.memo && s1.memo == s.memo[pc.k := s1.memo[pc.k]]))
    && (s1.fetches == s.fetches || (Working(pc) && s1.fetches == s.fetches + [pc.k]))
  }

  lemma StoreTouches(s: System, f: System, t: Tid, k: Ticker, value: Option<Frame>)
    requires Working(At(s, t)) && k == At(s, t).k && f == s.(fetches := f.fetches)
    requires f.fetches == s.fetches || f.fetches == s.fetches + [k]
    ensures Touches(s, Store(f, t, k, value), t)
  {
  }

  lemma EndTouches(s: System, f: System, t: Tid, o: Outcome, held: bool)
    requires f == s.(fetches := f.fetches)
    requires f.fetches == s.fetches || (Working(At(s, t)) && f.fetches == s.fetches + [At(s, t).k])
    ensures Touches(s, End(f, t, o, held), t)
  {
  }

  lemma WaitTouches(s: System, a: Action)
    requires a.Call? || a.Acquire? || a.Recheck? || a.SetPrefetch?
    ensures Touches(s, Do(s, a), Acting(a))
  {
  }

  lemma DiskTouches(s: System, a: Action)
    requires a.LoadDisk? || a.CheckMarker?
    ensures Touches(s, Do(s, a), Acting(a))
  {
    hide Store;
    var pc := At(s, a.t);
    if a.LoadDisk? && pc.AtDisk? { StoreTouches(s, s, a.t, pc.k, a.hit); }
    if a.CheckMarker? && pc.AtMarker? { StoreTouches(s, s, a.t, pc.k, None); }
  }

  lemma FetchTouches(s: System, t: Tid, reply: Reply)
    ensures Touches(s, FetchStep(s, t, reply), t)
  {
    hide Store, End;
    var pc := At(s, t);
    if pc.AtNetwork? {
      var f := s.(fetches := s.fetches + [pc.k]);
      EndTouches(s, f, t, Raised(pc.k, pc.k in s.memo), true);
      StoreTouches(s, f, t, pc.k, if reply.Got? then reply.frame else None);
    }
  }

  lemma RefetchTouches(s: System, t: Tid, reply: Reply)
    ensures Touches(s, RefetchStep(s, t, reply), t)
  {
    hide Store;
    var pc := At(s, t);
    if pc.Retrying? {
      StoreTouches(s, s.(fetches := s.fetches + [pc.k]), t, pc.k, if reply.Got? then reply.frame else None);
    }
  }

  lemma StepTouches(s: System, a: Action)
    ensures Touches(s, Do(s, a), Acting(a))
  {
    hide CallStep, AcquireStep, RecheckStep, DiskStep, MarkerStep, FetchStep, RefetchStep, Touches;
    match a
    case LoadDisk(_, _, _) => DiskTouches(s, a);
    case CheckMarker(_, _) => DiskTouches(s, a);
    case Fetch(t, reply) => FetchTouches(s, t, reply);
    case Refetch(t, reply) => RefetchTouches(s, t, reply);
    case _ => WaitTouches(s, a);
  }

  lemma MemoStays(s: System, a: Action, k: Ticker)
    requires Inv(s) && k in s.memo
    ensures var s1 := Do(s, a);
            k in s1.memo && s1.memo[k] == s.memo[k] && FetchesOf(s1.fetches, k) == FetchesOf(s.fetches, k)
  {
    hide FetchesOf, Inv, Do;
    InvIs(s);
    StepTouches(s, a);
    var pc := At(s, Acting(a));
    if Working(pc) {
      assert pc.k !in s.memo;
      FetchesOfLast(s.fetches, pc.k, k);
    }
  }

  /** A rate-limit reply is raised, and the entry left unset, exactly when the prefetch runs and it is
      the call's first fetch; on the retry after another error it is cached as "no data". */
  lemma RateLimitIsRaisedIff(s: System, t: Tid, retry: bool)
    requires Inv(s) && (if retry then At(s, t).Retrying? else At(s, t).AtNetwork?)
    ensures var k := At(s, t).k;
            var s1 := Do(s, if retry then Refetch(t, RateLimited) else Fetch(t, RateLimited));
            && (k !in s1.memo <==> s.prefetch && !retry)
            && (k in s1.memo ==> s1.memo[k].None?)
            && (s1.ended[|s1.ended| - 1].Raised? <==> s.prefetch && !retry)
  {
  }

  // ---- where an entry comes from ----

  /** What the step was told makes this the entry: the frame on disk, a marker that says there is none, or
      what a fetch gave; without a frame when a fetch failed, or met a rate limit outside the prefetch. */
  predicate Gives(a: Action, prefetch: bool, value: Option<Frame>) {
    match a
    case LoadDisk(_, hit, _) => hit.Some? && value == hit
    case CheckMarker(_, marked) => marked && value.None?
    case Fetch(_, Got(frame)) => value == frame
    case Fetch(_, RateLimited) => !prefetch && value.None?
    case Refetch(_, Got(frame)) => value == frame
    case Refetch(_, _) => value.None?
    case _ => false
  }

  /** Step n of the interleaving made the entry, in a call for the ticker that held its lock. */
  predicate MadeAt(actions: seq<Action>, n: nat, k: Ticker, value: Option<Frame>)
    requires n < |actions|
  {
    var s, a := Interleave(START, actions[..n]), actions[n];
    k !in s.memo && Working(At(s, Acting(a))) && At(s, Acting(a)).k == k && Gives(a, s.prefetch, value)
  }

  lemma StepMakes(s: System, a: Action, k: Ticker)
    requires Inv(s) && k !in s.memo && k in Do(s, a).memo
    ensures Working(At(s, Acting(a))) && At(s, Acting(a)).k == k && Gives(a, s.prefetch, Do(s, a).memo[k])
  {
    hide Inv;
    StepTouches(s, a);
  }

  /** In every interleaving an entry is what one step was told, in a call for its ticker. */
  lemma {:induction false} EntryWasTold(actions: seq<Action>, k: Ticker)
    requires k in Interleave(START, actions).memo
    ensures exists n: nat | n < |actions| :: MadeAt(actions, n, k, Interleave(START, actions).memo[k])
  {
    hide Do, Inv, Gives, Working;
    var n := |actions| - 1;
    var before, a := Interleave(START, actions[..n]), actions[n];
    EveryInterleavingKeeps(actions[..n]);
    if k in before.memo {
      EntryWasTold(actions[..n], k);
      MemoStays(before, a, k);
      var m: nat :| m < n && MadeAt(actions[..n], m, k, before.memo[k]);
      assert actions[..n][..m] == actions[..m] && actions[..n][m] == actions[m];
      assert MadeAt(actions, m, k, before.memo[k]);
    } else {
      StepMakes(before, a, k);
      assert MadeAt(actions, n, k, Interleave(START, actions).memo[k]);
    }
  }

  // ---- a call that is let run ----

  /** What a call that finds no entry and a free lock is told on its way. */
  datatype Told = Told(hit: Option<Frame>, negative: bool, marked: bool, first: Reply, second: Reply)

  function StepsOf(t: Tid, k: Ticker, told: Told): seq<Action> {
    [Call(t, k), Acquire(t), Recheck(t), LoadDisk(t, told.hit, told.negative), CheckMarker(t, told.marked),
     Fetch(t, told.first), Refetch(t, told.second)]
  }

  /** How it ends: the frame on disk, a ticker marked as having none, what the first fetch gives, or after
      an error the second; a rate limit at the first fetch is raised while the prefetch runs. */
  function EndOf(k: Ticker, told: Told, prefetch: bool): Outcome {
    if told.hit.Some? then Returned(k, told.hit, false)
    else if told.negative && told.marked then Returned(k, None, false)
    else match told.first
         case Got(frame) => Returned(k, frame, false)
         case RateLimited => if prefetch then Raised(k, false) else Returned(k, None, false)
         case Failed => Returned(k, if told.second.Got? then told.second.frame else None, false)
  }

  lemma RunFront(s: System, a: Action, more: seq<Action>)
    ensures Interleave(s, [a] + more) == Interleave(Do(s, a), more)
    decreases |more|
  {
    hide Do;
    if more == [] {
      assert [a] + more == [a] && [a][..0] == [];
    } else {
      RunFront(s, a, more[..|more| - 1]);
      assert ([a] + more)[..|more|] == [a] + more[..|more| - 1];
    }
  }

  /** The call has ended so, and holds nothing. */
  predicate EndedSo(s: System, s1: System, t: Tid, o: Outcome) {
    && At(s1, t).Idle? && o.k !in s1.locks && s1.ended == s.ended + [o]
    && (o.Returned? ==> s1.memo == s.memo[o.k := o.value]) && (o.Raised? ==> s1.memo == s.memo)
  }

  lemma {:induction false} IdleStays(s: System, t: Tid, actions: seq<Action>)
    requires At(s, t).Idle? && forall a <- actions :: !a.Call? && !a.SetPrefetch? && a.t == t
    ensures Interleave(s, actions) == s
  {
    if actions != [] {
      IdleStays(s, t, actions[..|actions| - 1]);
      assert actions[|actions| - 1] in actions;
    }
  }

  /** Up to the disk. */
  lemma CallReachesDisk(s: System, t: Tid, k: Ticker)
    requires At(s, t).Idle? && k !in s.memo && k !in s.locks
    ensures var s1 := Do(Do(Do(s, Call(t, k)), Acquire(t)), Recheck(t));
            s1 == s.(locks := s.locks[k := t], pcs := s1.pcs) && At(s1, t) == AtDisk(k)
  {
    var s1 := Do(s, Call(t, k));
    assert At(s1, t) == Waiting(k) && s1 == s.(pcs := s1.pcs);
    var s2 := Do(s1, Acquire(t));
    assert At(s2, t) == Rechecking(k) && s2 == s.(locks := s.locks[k := t], pcs := s2.pcs);
  }

  lemma DiskEnds(s: System, t: Tid, k: Ticker, told: Told)
    requires At(s, t) == AtDisk(k) && k !in s.memo
    ensures EndedSo(s, Interleave(s, StepsOf(t, k, told)[3..]), t, EndOf(k, told, s.prefetch))
  {
    hide Store, EndedSo, EndOf;
    var a := LoadDisk(t, told.hit, told.negative);
    var rest := StepsOf(t, k, told)[4..];
    assert StepsOf(t, k, told)[3..] == [a] + rest;
    RunFront(s, a, rest);
    var s1 := Do(s, a);
    if told.hit.Some? {
      Stored(s, t, k, told.hit);
      IdleStays(s1, t, rest);
      DiskEnd(k, told, s.prefetch);
    } else {
      RestEnds(s, s1, t, k, told);
    }
  }

  lemma DiskEnd(k: Ticker, told: Told, prefetch: bool)
    requires told.hit.Some?
    ensures EndOf(k, told, prefetch) == Returned(k, told.hit, false)
  {
  }

  lemma Stored(s: System, t: Tid, k: Ticker, value: Option<Frame>)
    ensures EndedSo(s, Store(s, t, k, value), t, Returned(k, value, false)) && At(Store(s, t, k, value), t).Idle?
  {
  }

  lemma RestEnds(s: System, s1: System, t: Tid, k: Ticker, told: Told)
    requires told.hit.None? && k !in s.memo && s1 == s.(pcs := s1.pcs) && At(s1, t) == if told.negative then AtMarker(k) else AtNetwork(k)
    ensures EndedSo(s, Interleave(s1, StepsOf(t, k, told)[4..]), t, EndOf(k, told, s.prefetch))
  {
    hide Store, EndedSo;
    var a := CheckMarker(t, told.marked);
    var rest := StepsOf(t, k, told)[5..];
    assert StepsOf(t, k, told)[4..] == [a] + rest;
    RunFront(s1, a, rest);
    var s2 := Do(s1, a);
    if told.negative && told.marked {
      Stored(s1, t, k, None);
      IdleStays(s2, t, rest);
      SameEnd(s, s1, s2, t, Returned(k, None, false));
    } else {
      NetworkEnds(s, s2, t, k, told);
    }
  }

  lemma SameEnd(s: System, s1: System, s2: System, t: Tid, o: Outcome)
    requires s1.memo == s.memo && s1.ended == s.ended
    ensures EndedSo(s, s2, t, o) == EndedSo(s1, s2, t, o)
  {
  }

  lemma NetworkEnds(s: System, s2: System, t: Tid, k: Ticker, told: Told)
    requires told.hit.None? && !(told.negative && told.marked) && k !in s.memo && s2 == s.(pcs := s2.pcs) && At(s2, t) == AtNetwork(k)
    ensures EndedSo(s, Interleave(s2, StepsOf(t, k, told)[5..]), t, EndOf(k, told, s.prefetch))
  {
    hide Store, End, EndedSo, Interleave;
    var a, b := Fetch(t, told.first), Refetch(t, told.second);
    assert StepsOf(t, k, told)[5..] == [a] + [b] && [b] + [] == [b];
    RunFront(s2, a, [b]);
    var f := s2.(fetches := s2.fetches + [k]);
    match told.first
    case Got(frame) => StoredThenIdle(s, f, t, k, frame, b);
    case RateLimited =>
      if s.prefetch { RaisedThenIdle(s, f, t, k, b); } else { StoredThenIdle(s, f, t, k, None, b); }
    case Failed =>
      RunFront(Do(s2, a), b, []);
      NothingRuns(Do(Do(s2, a), b));
      RetryEnds(s, f, t, k, told.second);
  }

  lemma StoredThenIdle(s: System, f: System, t: Tid, k: Ticker, value: Option<Frame>, b: Action)
    requires f.memo == s.memo && f.ended == s.ended && b.Refetch? && b.t == t
    ensures EndedSo(s, Interleave(Store(f, t, k, value), [b]), t, Returned(k, value, false))
  {
    hide Store, EndedSo, Interleave;
    Stored(f, t, k, value);
    IdleStays(Store(f, t, k, value), t, [b]);
    SameEnd(s, f, Store(f, t, k, value), t, Returned(k, value, false));
  }

  lemma RaisedThenIdle(s: System, f: System, t: Tid, k: Ticker, b: Action)
    requires f.memo == s.memo && f.ended == s.ended && b.Refetch? && b.t == t
    ensures EndedSo(s, Interleave(End(f, t, Raised(k, false), true), [b]), t, Raised(k, false))
  {
    hide Interleave;
    IdleStays(End(f, t, Raised(k, false), true), t, [b]);
  }

  lemma RetryEnds(s: System, f: System, t: Tid, k: Ticker, reply: Reply)
    requires f.memo == s.memo && f.ended == s.ended
    ensures EndedSo(s, Do(Goto(f, t, Retrying(k)), Refetch(t, reply)), t, Returned(k, if reply.Got? then reply.frame else None, false))
  {
    hide Store, EndedSo;
    var g := Goto(f, t, Retrying(k));
    var g1 := g.(fetches := g.fetches + [k]);
    var value := if reply.Got? then reply.frame else None;
    Stored(g1, t, k, value);
    SameEnd(s, g1, Store(g1, t, k, value), t, Returned(k, value, false));
  }

  lemma NothingRuns(s: System)
    ensures Interleave(s, []) == s
  {
  }

  /** A call that finds no entry and a free lock, let run alone, ends as it is told, and leaves the lock. */
  lemma CallRuns(s: System, t: Tid, k: Ticker, told: Told)
    requires At(s, t).Idle? && k !in s.memo && k !in s.locks
    ensures EndedSo(s, Interleave(s, StepsOf(t, k, told)), t, EndOf(k, told, s.prefetch))
  {
    hide Do, EndedSo, EndOf;
    var a, b, d := Call(t, k), Acquire(t), Recheck(t);
    var rest := StepsOf(t, k, told)[3..];
    assert StepsOf(t, k, told) == [a] + ([b] + ([d] + rest));
    RunFront(s, a, [b] + ([d] + rest));
    RunFront(Do(s, a), b, [d] + rest);
    RunFront(Do(Do(s, a), b), d, rest);
    CallReachesDisk(s, t, k);
    var s1 := Do(Do(Do(s, a), b), d);
    DiskEnds(s1, t, k, told);
    SameEnd(s, s1, Interleave(s1, rest), t, EndOf(k, told, s.prefetch));
  }
}
