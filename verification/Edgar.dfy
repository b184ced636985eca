/** The derived-fundamentals cache: backend/edgar.py, `_load_derived`, over the raw files that the
    derived ones are made from. */
module Edgar {
  import opened BotTypes

  type Cik = nat
  type Facts = int

  /** What parse_companyfacts_to_derived makes of a raw file, or any other JSON. */
  datatype Series = Parse(facts: Facts) | Other(json: int)

  /** BadJson: json.loads raises JSONDecodeError; BadText: the bytes are not UTF-8. */
  datatype Content<+T> = Good(value: T) | BadJson | BadText
  datatype RawFile = RawFile(content: Content<Facts>, mtime: nat)
  datatype DerivedFile = DerivedFile(content: Content<Series>, mtime: nat)

  datatype Key = Key(cik: Cik, raw: Option<nat>, derived: Option<nat>)

  /** The files, the clock that stamps them, and the in-process cache in insertion order. */
  datatype Store = Store(
    raw: map<Cik, RawFile>, derived: map<Cik, DerivedFile>, clock: nat, keys: seq<Key>, cache: map<Key, Series>)

  datatype Result = Data(series: Series) | NetworkFailed | Undecodable
  datatype Loaded = Loaded(m: Store, result: Result)

  const CACHE_MAX := 1024

  function RawTime(m: Store, cik: Cik): Option<nat> {
    if cik in m.raw then Some(m.raw[cik].mtime) else None
  }

  function DerivedTime(m: Store, cik: Cik): Option<nat> {
    if cik in m.derived then Some(m.derived[cik].mtime) else None
  }

  /** _derived_mtimes. */
  function KeyNow(m: Store, cik: Cik): Key {
    Key(cik, RawTime(m, cik), DerivedTime(m, cik))
  }

  function Evicted(keys: seq<Key>): seq<Key> {
    if |keys| < CACHE_MAX then keys else keys[|keys| - CACHE_MAX + 1..]
  }

  function Kept(cache: map<Key, Series>, keys: seq<Key>): map<Key, Series> {
    map k | k in cache && k in keys :: cache[k]
  }

  /** _derived_cache_put: the oldest entries go until there is room. */
  function Put(m: Store, key: Key, s: Series): Store {
    var keys := Evicted(m.keys);
    m.(keys := if key in keys then keys else keys + [key], cache := Kept(m.cache, keys)[key := s])
  }

  function WriteRaw(m: Store, cik: Cik, content: Content<Facts>): Store {
    m.(raw := m.raw[cik := RawFile(content, m.clock)], clock := m.clock + 1)
  }

  function WriteDerived(m: Store, cik: Cik, content: Content<Series>): Store {
    m.(derived := m.derived[cik := DerivedFile(content, m.clock)], clock := m.clock + 1)
  }

  /** A young raw file that does not read as JSON is deleted; one that is not UTF-8 raises. */
  function Cleared(m: Store, cik: Cik, young: bool): Store {
    if young && cik in m.raw && m.raw[cik].content.BadJson? then m.(raw := m.raw - {cik}) else m
  }

  predicate NotText(m: Store, cik: Cik, young: bool) {
    young && cik in m.raw && m.raw[cik].content.BadText?
  }

  predicate Reads(m: Store, cik: Cik, young: bool) {
    young && cik in m.raw && m.raw[cik].content.Good?
  }

  /** fetch_companyfacts: the raw file while it is young and reads, else a network fetch, which
      writes it.  fetched: None when the network fails. */
  function Fetch(m: Store, cik: Cik, young: bool, fetched: Option<Facts>): Store {
    if NotText(m, cik, young) || Reads(m, cik, young) || fetched.None? then Cleared(m, cik, young)
    else WriteRaw(Cleared(m, cik, young), cik, Good(fetched.value))
  }

  predicate FetchWorks(m: Store, cik: Cik, young: bool, fetched: Option<Facts>) {
    !NotText(m, cik, young) && (fetched.Some? || Reads(m, cik, young))
  }

  /** Parse the raw file, write the derived one, and remember it under the new times. */
  function Rebuild(m: Store, cik: Cik, young: bool, fetched: Option<Facts>): Loaded {
    var f := Fetch(m, cik, young, fetched);
    if NotText(m, cik, young) then Loaded(f, Undecodable)
    else if !FetchWorks(m, cik, young, fetched) then Loaded(f, NetworkFailed)
    else
      var s := Parse(f.raw[cik].content.value);
      var w := WriteDerived(f, cik, Good(s));
      Loaded(Put(w, KeyNow(w, cik), s), Data(s))
  }

  predicate IsFresh(m: Store, cik: Cik) {
    cik in m.raw && cik in m.derived && m.derived[cik].mtime >= m.raw[cik].mtime
  }

  /** _load_derived. */
  function Load(m: Store, cik: Cik, young: bool, fetched: Option<Facts>): Loaded {
    if cik !in m.raw then Rebuild(m, cik, young, fetched)
    else if !IsFresh(m, cik) then Rebuild(m, cik, young, fetched)
    else if KeyNow(m, cik) in m.cache then Loaded(m, Data(m.cache[KeyNow(m, cik)]))
    else
      match m.derived[cik].content
      case Good(s) => Loaded(Put(m, KeyNow(m, cik), s), Data(s))
      case BadJson => Rebuild(m.(derived := m.derived - {cik}), cik, young, fetched)
      case BadText => Loaded(m, Undecodable)
  }

  /** What else happens to the files; every write gets a later time than all before it. */
  datatype Turn =
    | Loads(cik: Cik, young: bool, fetched: Option<Facts>)
    | WritesRaw(cik: Cik, rawContent: Content<Facts>)
    | DeletesRaw(cik: Cik)
    | SpoilsDerived(cik: Cik, text: bool)
    | WritesDerived(cik: Cik, series: Series)
    | DeletesDerived(cik: Cik)

  function Turned(m: Store, t: Turn): Store {
    match t
    case Loads(cik, young, fetched) => Load(m, cik, young, fetched).m
    case WritesRaw(cik, content) => WriteRaw(m, cik, content)
    case DeletesRaw(cik) => m.(raw := m.raw - {cik})
    case SpoilsDerived(cik, text) => WriteDerived(m, cik, if text then BadText else BadJson)
    case WritesDerived(cik, series) => WriteDerived(m, cik, Good(series))
    case DeletesDerived(cik) => m.(derived := m.derived - {cik})
  }

  function Played(m: Store, turns: seq<Turn>): Store {
    if turns == [] then m else Turned(Played(m, turns[..|turns| - 1]), turns[|turns| - 1])
  }

  const START := Store(map[], map[], 0, [], map[])

  // ---- what is remembered agrees with the files ----

  /** The series is the parse of the raw file on disk. */
  predicate Agrees(m: Store, cik: Cik, s: Series) {
    cik in m.raw && m.raw[cik].content.Good? && s == Parse(m.raw[cik].content.value)
  }

  /** The derived file would be trusted, and holds JSON that is not the parse of the raw file. */
  predicate Foreign(m: Store, cik: Cik) {
    IsFresh(m, cik) && m.derived[cik].content.Good? && !Agrees(m, cik, m.derived[cik].content.value)
  }

  /** What is cached for a derived file's time is what that file holds. */
  predicate CacheMirrors(m: Store) {
    forall k <- m.cache :: k.derived.Some? && k.cik in m.derived && m.derived[k.cik].mtime == k.derived.value ==>
      m.derived[k.cik].content == Good(m.cache[k])
  }

  /** All times are in the past, and the cache is what its keys say, within its bound. */
  predicate StoreOk(m: Store) {
    && (forall cik <- m.raw :: m.raw[cik].mtime < m.clock)
    && (forall cik <- m.derived :: m.derived[cik].mtime < m.clock)
    && (forall k <- m.cache :: k.derived.Some? ==> k.derived.value < m.clock)
    && (forall k <- m.cache :: k in m.keys) && (forall k <- m.keys :: k in m.cache)
    && (forall i, j | 0 <= i < j < |m.keys| :: m.keys[i] != m.keys[j])
    && |m.keys| <= CACHE_MAX
  }

  predicate Inv(m: Store) {
    CacheMirrors(m) && StoreOk(m)
  }

  lemma PutKeeps(m: Store, key: Key, s: Series)
    requires Inv(m) && key.cik in m.derived && key.derived == Some(m.derived[key.cik].mtime)
    requires m.derived[key.cik].content == Good(s)
    ensures Inv(Put(m, key, s))
  {
    var keys := Evicted(m.keys);
    EvictedKeeps(m);
    hide Evicted, Kept;
    var m1 := Put(m, key, s);
    forall k <- m1.cache ensures k in m1.keys && (k.derived.Some? ==> k.derived.value < m1.clock) { assert k == key || k in m.cache; }
    assert CacheMirrors(m1) by {
      forall k <- m1.cache | k.derived.Some? && k.cik in m1.derived && m1.derived[k.cik].mtime == k.derived.value
        ensures m1.derived[k.cik].content == Good(m1.cache[k])
      {
        if k != key { assert k in m.cache; }
      }
    }
  }

  /** Eviction leaves the newest keys, each with its entry, and room for one more. */
  lemma EvictedKeeps(m: Store)
    requires StoreOk(m)
    ensures var keys := Evicted(m.keys);
            && |keys| < CACHE_MAX && (forall k <- keys :: k in m.keys)
            && (forall i, j | 0 <= i < j < |keys| :: keys[i] != keys[j])
            && (forall k :: k in Kept(m.cache, keys) <==> k in keys)
            && (forall k <- Kept(m.cache, keys) :: k in m.cache && Kept(m.cache, keys)[k] == m.cache[k])
  {
    var keys := Evicted(m.keys);
    forall k <- keys ensures k in m.keys {}
  }

  lemma WriteRawKeeps(m: Store, cik: Cik, content: Content<Facts>)
    requires Inv(m)
    ensures Inv(WriteRaw(m, cik, content))
  {
  }

  lemma WriteDerivedKeeps(m: Store, cik: Cik, content: Content<Series>)
    requires Inv(m)
    ensures Inv(WriteDerived(m, cik, content))
  {
  }

  lemma RebuildKeeps(m: Store, cik: Cik, young: bool, fetched: Option<Facts>)
    requires Inv(m)
    ensures Inv(Rebuild(m, cik, young, fetched).m)
  {
    hide Put;
    var cleared := Cleared(m, cik, young);
    assert Inv(cleared);
    if fetched.Some? { WriteRawKeeps(cleared, cik, Good(fetched.value)); }
    var f := Fetch(m, cik, young, fetched);
    if FetchWorks(m, cik, young, fetched) {
      var s := Parse(f.raw[cik].content.value);
      WriteDerivedKeeps(f, cik, Good(s));
      var w := WriteDerived(f, cik, Good(s));
      PutKeeps(w, KeyNow(w, cik), s);
    }
  }

  lemma PutSame(m: Store, key: Key, s: Series)
    ensures Put(m, key, s).raw == m.raw && Put(m, key, s).derived == m.derived
  {
  }

  lemma RebuildResult(m: Store, cik: Cik, young: bool, fetched: Option<Facts>)
    ensures var l := Rebuild(m, cik, young, fetched);
            && (l.result.Undecodable? <==> NotText(m, cik, young))
            && (l.result.Data? ==> Agrees(l.m, cik, l.result.series) && !Foreign(l.m, cik))
            && (l.result.NetworkFailed? ==> fetched.None?)
  {
    hide Put;
    var f := Fetch(m, cik, young, fetched);
    if FetchWorks(m, cik, young, fetched) {
      var s := Parse(f.raw[cik].content.value);
      var w := WriteDerived(f, cik, Good(s));
      PutSame(w, KeyNow(w, cik), s);
    }
  }

  /** The bytes that are read are not text: those of a derived file that is fresh, or those of a young
      raw file when the derived one is stale, missing or not JSON. */
  predicate ReadsBadBytes(m: Store, cik: Cik, young: bool) {
    if IsFresh(m, cik) && !m.derived[cik].content.BadJson? then m.derived[cik].content.BadText? else NotText(m, cik, young)
  }

  /** A load gives the parse of the raw file that is on disk after it, except exactly when a fresh
      derived file holds other JSON; it fails on undecodable bytes exactly when it reads such, and
      otherwise only when the network does. */
  lemma LoadAgrees(m: Store, cik: Cik, young: bool, fetched: Option<Facts>)
    requires Inv(m)
    ensures var l := Load(m, cik, young, fetched);
            && Inv(l.m)
            && (l.result.Data? ==> (Agrees(l.m, cik, l.result.series) <==> !Foreign(m, cik)))
            && (l.result.Undecodable? <==> ReadsBadBytes(m, cik, young))
            && (l.result.NetworkFailed? ==> fetched.None?)
  {
    hide Put, Rebuild;
    RebuildKeeps(m, cik, young, fetched);
    RebuildResult(m, cik, young, fetched);
    if IsFresh(m, cik) && KeyNow(m, cik) !in m.cache {
      match m.derived[cik].content
      case Good(s) =>
        PutKeeps(m, KeyNow(m, cik), s);
        PutSame(m, KeyNow(m, cik), s);
      case BadJson =>
        var gone := m.(derived := m.derived - {cik});
        assert Inv(gone);
        RebuildKeeps(gone, cik, young, fetched);
        RebuildResult(gone, cik, young, fetched);
      case BadText =>
    }
  }

  /** A fresh derived file holds the parse of the raw file until someone else writes JSON into it. */
  lemma NotForeignStays(m: Store, t: Turn, cik: Cik)
    requires Inv(m) && !Foreign(m, cik) && !(t.WritesDerived? && t.cik == cik)
    ensures !Foreign(Turned(m, t), cik)
  {
    hide Put, Rebuild;
    match t
    case Loads(other, young, fetched) =>
      LoadForeign(m, other, young, fetched, cik);
    case _ =>
  }

  lemma LoadForeign(m: Store, other: Cik, young: bool, fetched: Option<Facts>, cik: Cik)
    requires Inv(m) && !Foreign(m, cik)
    ensures !Foreign(Load(m, other, young, fetched).m, cik)
  {
    hide Put, Rebuild;
    RebuildForeign(m, other, young, fetched, cik);
    if IsFresh(m, other) && KeyNow(m, other) !in m.cache {
      match m.derived[other].content
      case Good(s) => PutSame(m, KeyNow(m, other), s);
      case BadJson => RebuildForeign(m.(derived := m.derived - {other}), other, young, fetched, cik);
      case BadText =>
    }
  }

  lemma RebuildForeign(m: Store, other: Cik, young: bool, fetched: Option<Facts>, cik: Cik)
    requires StoreOk(m) && !Foreign(m, cik)
    ensures !Foreign(Rebuild(m, other, young, fetched).m, cik)
  {
    hide Put;
    var f := Fetch(m, other, young, fetched);
    if FetchWorks(m, other, young, fetched) {
      var s := Parse(f.raw[other].content.value);
      var w := WriteDerived(f, other, Good(s));
      PutSame(w, KeyNow(w, other), s);
    }
  }

  lemma TurnKeeps(m: Store, t: Turn)
    requires Inv(m)
    ensures Inv(Turned(m, t))
  {
    hide Load;
    match t
    case Loads(cik, young, fetched) => LoadAgrees(m, cik, young, fetched);
    case WritesRaw(cik, content) => WriteRawKeeps(m, cik, content);
    case DeletesRaw(cik) =>
    case SpoilsDerived(cik, text) => WriteDerivedKeeps(m, cik, if text then BadText else BadJson);
    case WritesDerived(cik, series) => WriteDerivedKeeps(m, cik, Good(series));
    case DeletesDerived(cik) =>
  }

  /** Through any sequence of loads, refreshes, deletions and spoilt files a load gives the parse of
      the raw file now on disk, except exactly when a fresh derived file holds other JSON, which takes
      someone else writing it; the in-process cache stays within its bound. */
  lemma {:induction false} EveryLoadAgrees(turns: seq<Turn>, cik: Cik, young: bool, fetched: Option<Facts>)
    ensures var m := Played(START, turns);
            var l := Load(m, cik, young, fetched);
            && |m.cache| <= CACHE_MAX
            && (l.result.Data? ==> (Agrees(l.m, cik, l.result.series) <==> !Foreign(m, cik)))
            && (Foreign(m, cik) ==> exists t <- turns :: t.WritesDerived? && t.cik == cik)
            && (l.result.Undecodable? <==> ReadsBadBytes(m, cik, young))
            && (l.result.NetworkFailed? ==> fetched.None?)
  {
    EveryStoreKeeps(turns);
    LoadAgrees(Played(START, turns), cik, young, fetched);
    SetSize(Played(START, turns).cache.Keys, Played(START, turns).keys);
    if forall t <- turns :: !(t.WritesDerived? && t.cik == cik) { NeverForeign(turns, cik); }
  }

  lemma {:induction false} NeverForeign(turns: seq<Turn>, cik: Cik)
    requires forall t <- turns :: !(t.WritesDerived? && t.cik == cik)
    ensures !Foreign(Played(START, turns), cik)
  {
    if turns != [] {
      NeverForeign(turns[..|turns| - 1], cik);
      EveryStoreKeeps(turns[..|turns| - 1]);
      NotForeignStays(Played(START, turns[..|turns| - 1]), turns[|turns| - 1], cik);
    }
  }

  lemma {:induction false} EveryStoreKeeps(turns: seq<Turn>)
    ensures Inv(Played(START, turns))
  {
    if turns != [] {
      EveryStoreKeeps(turns[..|turns| - 1]);
      TurnKeeps(Played(START, turns[..|turns| - 1]), turns[|turns| - 1]);
    }
  }

  lemma {:induction false} SetSize(s: set<Key>, keys: seq<Key>)
    requires forall k <- s :: k in keys
    ensures |s| <= |keys|
  {
    if keys == [] {
      assert s == {};
    } else {
      var n := |keys| - 1;
      SetSize(s - {keys[n]}, keys[..n]);
      assert s <= (s - {keys[n]}) + {keys[n]};
    }
  }

  // ---- where the data of a load comes from, and what it leaves ----

  /** The files of every other company are as they were. */
  predicate OthersStay(m: Store, m1: Store, cik: Cik) {
    && (forall c <- m.raw :: c != cik ==> c in m1.raw && m1.raw[c] == m.raw[c]) && (forall c <- m1.raw :: c != cik ==> c in m.raw)
    && (forall c <- m.derived :: c != cik ==> c in m1.derived && m1.derived[c] == m.derived[c])
    && (forall c <- m1.derived :: c != cik ==> c in m.derived)
  }

  /** The load read these facts: the derived file has their parse, stamped then, and so has the cache. */
  predicate Derives(l: Loaded, cik: Cik, facts: Facts, at: nat) {
    && l.result == Data(Parse(facts)) && cik in l.m.raw && l.m.raw[cik].content == Good(facts)
    && cik in l.m.derived && l.m.derived[cik] == DerivedFile(Good(Parse(facts)), at)
    && KeyNow(l.m, cik) in l.m.cache && l.m.cache[KeyNow(l.m, cik)] == Parse(facts)
  }

  /** A load that rebuilds: from a raw file that is young and reads; else from the network, which writes
      the raw file.  Without either it fails, and of the files only one that did not read is gone. */
  predicate RebuildLaw(m: Store, cik: Cik, young: bool, fetched: Option<Facts>, l: Loaded) {
    && OthersStay(m, l.m, cik)
    && if young && cik in m.raw && m.raw[cik].content.BadText? then
         l.result == Undecodable && l.m == m
       else if young && cik in m.raw && m.raw[cik].content.Good? then
         Derives(l, cik, m.raw[cik].content.value, m.clock) && l.m.raw[cik] == m.raw[cik]
       else match fetched
            case Some(facts) => Derives(l, cik, facts, m.clock + 1) && l.m.raw[cik] == RawFile(Good(facts), m.clock)
            case None =>
              && l.result == NetworkFailed && l.m == m.(raw := l.m.raw)
              && (cik in l.m.raw <==> cik in m.raw && !(young && m.raw[cik].content.BadJson?))
              && (cik in l.m.raw ==> l.m.raw[cik] == m.raw[cik])
  }

  /** Every rebuild obeys its law. */
  lemma RebuildIs(m: Store, cik: Cik, young: bool, fetched: Option<Facts>)
    ensures RebuildLaw(m, cik, young, fetched, Rebuild(m, cik, young, fetched))
  {
    hide Evicted, Kept;
  }

  /** A load trusts a derived file that is no older than its raw file, and rebuilds without one, and when it
      is not JSON and not remembered; it says where the data comes from and what the files are after it. */
  lemma LoadIs(m: Store, cik: Cik, young: bool, fetched: Option<Facts>)
    ensures var l := Load(m, cik, young, fetched);
            var trusted := cik in m.raw && cik in m.derived && m.derived[cik].mtime >= m.raw[cik].mtime;
            if !trusted then RebuildLaw(m, cik, young, fetched, l)
            else if KeyNow(m, cik) in m.cache then l == Loaded(m, Data(m.cache[KeyNow(m, cik)]))
            else match m.derived[cik].content
                 case BadText => l == Loaded(m, Undecodable)
                 case BadJson => RebuildLaw(m.(derived := m.derived - {cik}), cik, young, fetched, l)
                 case Good(s) =>
                   && l.result == Data(s) && l.m.raw == m.raw && l.m.derived == m.derived && l.m.clock == m.clock
                   && KeyNow(m, cik) in l.m.cache && l.m.cache[KeyNow(m, cik)] == s
  {
    hide Rebuild, RebuildLaw, Evicted, Kept;
    RebuildIs(m, cik, young, fetched);
    RebuildIs(m.(derived := m.derived - {cik}), cik, young, fetched);
  }

  /** The cache keeps its newest entries: only with no room does one go, and that is the oldest. */
  lemma PutDropsOldest(m: Store, key: Key, s: Series)
    requires StoreOk(m)
    ensures var m1 := Put(m, key, s);
            var gone := if |m.keys| < 1024 then 0 else 1;
            && key in m1.cache && m1.cache[key] == s && |m1.keys| <= 1024
            && (forall k <- m.keys[gone..] :: k in m1.cache && (k != key ==> m1.cache[k] == m.cache[k]))
            && (forall k <- m1.cache :: k == key || k in m.keys[gone..])
  {
    var gone := if |m.keys| < 1024 then 0 else 1;
    assert Evicted(m.keys) == m.keys[gone..];
    EvictedKeeps(m);
    hide Evicted, Kept;
  }

  /** File times that do not increase: a raw file written anew, whatever time it gets, is served by
      the next load (which finds it young) if and only if that time is later than the derived file's, or nothing changed. */
  lemma RefreshIsNoticedIff(m: Store, cik: Cik, facts: Facts, time: nat, fetched: Option<Facts>)
    requires Inv(m) && cik in m.derived && m.derived[cik].content.Good?
    ensures var m1 := m.(raw := m.raw[cik := RawFile(Good(facts), time)]);
            Load(m1, cik, true, fetched).result == Data(Parse(facts))
            <==> time > m.derived[cik].mtime || m.derived[cik].content == Good(Parse(facts))
  {
    var m1 := m.(raw := m.raw[cik := RawFile(Good(facts), time)]);
    assert CacheMirrors(m1);
  }

  // ---- the module's state, as the program has it ----

  datatype Fetched = Got(facts: Facts) | NoNetwork | NoText

  class DerivedCache {
    var raw: map<Cik, RawFile>
    var derived: map<Cik, DerivedFile>
    var clock: nat
    var keys: seq<Key>
    var cache: map<Key, Series>

    ghost function View(): Store
      reads this
    {
      Store(raw, derived, clock, keys, cache)
    }

    constructor ()
      ensures View() == START
    {
      raw, derived, clock, keys, cache := map[], map[], 0, [], map[];
    }

    /** _derived_cache_put. */
    method PutEntry(key: Key, s: Series)
      requires StoreOk(View())
      modifies this`keys, this`cache
      ensures View() == Put(old(View()), key, s)
    {
      hide Kept, StoreOk, Evicted;
      MakeRoom();
      if key !in keys { keys := keys + [key]; }
      cache := cache[key := s];
    }

    /** The loop of _derived_cache_put: the oldest entries go. */
    method MakeRoom()
      requires StoreOk(View())
      modifies this`keys, this`cache
      ensures keys == Evicted(old(keys)) && cache == Kept(old(cache), keys)
    {
      ghost var m := View();
      KeepsAll(m);
      hide Kept, StoreOk;
      ghost var dropped := 0;
      while |keys| >= CACHE_MAX
        invariant dropped <= |m.keys| && keys == m.keys[dropped..] && (dropped > 0 ==> |keys| >= CACHE_MAX - 1)
        invariant cache == Kept(m.cache, keys)
        decreases |keys|
      {
        DropOldest(m.keys, m.cache, dropped);
        cache := cache - {keys[0]};
        keys := keys[1..];
        dropped := dropped + 1;
      }
    }

    method StampDerived(cik: Cik, content: Content<Series>)
      modifies this`derived, this`clock
      ensures View() == WriteDerived(old(View()), cik, content)
    {
      derived := derived[cik := DerivedFile(content, clock)];
      clock := clock + 1;
    }

    /** fetch_companyfacts and _edgar_get. */
    method FetchFacts(cik: Cik, young: bool, fetched: Option<Facts>) returns (got: Fetched)
      modifies this`raw, this`clock
      ensures View() == Fetch(old(View()), cik, young, fetched)
      ensures got.NoText? <==> old(NotText(View(), cik, young))
      ensures got.Got? <==> FetchWorks(old(View()), cik, young, fetched)
      ensures got.Got? ==> cik in raw && raw[cik].content == Good(got.facts)
    {
      if young && cik in raw {
        match raw[cik].content {
          case Good(facts) => return Got(facts);
          case BadText => return NoText;
          case BadJson => raw := raw - {cik};
        }
      }
      if fetched.None? { return NoNetwork; }
      raw := raw[cik := RawFile(Good(fetched.value), clock)];
      clock := clock + 1;
      return Got(fetched.value);
    }

    method RebuildEntry(cik: Cik, young: bool, fetched: Option<Facts>) returns (result: Result)
      requires Inv(View())
      modifies this
      ensures Loaded(View(), result) == Rebuild(old(View()), cik, young, fetched)
    {
      hide Put, Fetch, Inv, StoreOk;
      ghost var m := View();
      FetchKeeps(m, cik, young, fetched);
      var got := FetchFacts(cik, young, fetched);
      match got {
        case NoText => return Undecodable;
        case NoNetwork => return NetworkFailed;
        case Got(facts) =>
          var s := Parse(facts);
          WriteDerivedKeepsOk(View(), cik, Good(s));
          StampDerived(cik, Good(s));
          PutEntry(Key(cik, Some(raw[cik].mtime), Some(derived[cik].mtime)), s);
          return Data(s);
      }
    }

    /** _load_derived. */
    method LoadEntry(cik: Cik, young: bool, fetched: Option<Facts>) returns (result: Result)
      requires Inv(View())
      modifies this
      ensures Loaded(View(), result) == Load(old(View()), cik, young, fetched)
      ensures Inv(View()) && (result.Undecodable? <==> ReadsBadBytes(old(View()), cik, young))
      ensures result.Data? ==> (Agrees(View(), cik, result.series) <==> !Foreign(old(View()), cik))
    {
      hide Put, Rebuild, Inv;
      LoadAgrees(View(), cik, young, fetched);
      InvIsOk(View());
      if cik !in raw {
        result := RebuildEntry(cik, young, fetched);
        return;
      }
      var current := cik in derived && derived[cik].mtime >= raw[cik].mtime;
      if current {
        var key := Key(cik, Some(raw[cik].mtime), Some(derived[cik].mtime));
        if key in cache { return Data(cache[key]); }
        match derived[cik].content {
          case Good(s) =>
            PutEntry(key, s);
            return Data(s);
          case BadText => return Undecodable;
          case BadJson =>
            GoneKeeps(View(), cik);
            derived := derived - {cik};
        }
      }
      result := RebuildEntry(cik, young, fetched);
    }
  }

  lemma KeepsAll(m: Store)
    requires StoreOk(m)
    ensures Kept(m.cache, m.keys) == m.cache && m.keys[0..] == m.keys
    ensures forall i, j | 0 <= i < j < |m.keys| :: m.keys[i] != m.keys[j]
  {
  }

  lemma DropOldest(keys: seq<Key>, cache: map<Key, Series>, n: nat)
    requires n < |keys| && forall i, j | 0 <= i < j < |keys| :: keys[i] != keys[j]
    ensures keys[n..][1..] == keys[n + 1..] && keys[n..][0] == keys[n]
    ensures Kept(cache, keys[n..]) - {keys[n]} == Kept(cache, keys[n + 1..])
  {
    assert keys[n..] == [keys[n]] + keys[n + 1..];
    assert keys[n] !in keys[n + 1..];
  }

  lemma InvIsOk(m: Store)
    requires Inv(m)
    ensures StoreOk(m)
  {
  }

  lemma GoneKeeps(m: Store, cik: Cik)
    requires Inv(m)
    ensures Inv(m.(derived := m.derived - {cik}))
  {
  }

  lemma FetchKeeps(m: Store, cik: Cik, young: bool, fetched: Option<Facts>)
    requires Inv(m)
    ensures StoreOk(Fetch(m, cik, young, fetched))
  {
  }

  lemma WriteDerivedKeepsOk(m: Store, cik: Cik, content: Content<Series>)
    requires StoreOk(m)
    ensures StoreOk(WriteDerived(m, cik, content))
  {
  }
}
