/** What the re-homing pass promises of the sections and their bullets, for every TODO.md:
    bin/sync-todo-index.py, `rehome_and_sort`. */
module TodoTheorems {
  import opened BotTypes
  import opened Seqs
  import opened Todo

  /** TODO.md as it stands after the pass. */
  function After(lines: seq<Line>): seq<Line> {
    Reread(RehomeAndSort(lines))
  }

  /** The bullets of the lettered sections, section by section, up to blank lines. */
  function Bullets(secs: seq<Section>): seq<Group> {
    if secs == [] then []
    else
      var s := secs[|secs| - 1];
      Bullets(secs[..|secs| - 1]) + if Lettered(s) then Norms(Groups(s.content)) else []
  }

  /** The number of sections with the letter. */
  function Times(secs: seq<Section>, c: char): nat {
    if secs == [] then 0
    else
      var s := secs[|secs| - 1];
      Times(secs[..|secs| - 1], c) + if Lettered(s) && s.header.letter.value == c then 1 else 0
  }

  predicate DistinctLetters(secs: seq<Section>) {
    forall i, j | 0 <= i < j < |secs| && Lettered(secs[i]) && Lettered(secs[j]) ::
      secs[i].header.letter.value != secs[j].header.letter.value
  }

  lemma {:induction false} TimesIs(secs: seq<Section>, c: char)
    ensures Times(secs, c) > 0 <==> HasLetter(secs, c)
    ensures DistinctLetters(secs) ==> Times(secs, c) <= 1
  {
    hide HasLetter, DistinctLetters;
    if secs == [] {
      NoLetters(c);
    } else {
      TimesIs(secs[..|secs| - 1], c);
      LastLetter(secs, c);
      if DistinctLetters(secs) { DistinctLast(secs, c); }
    }
  }

  lemma NoLetters(c: char)
    ensures !HasLetter([], c)
  {
  }

  lemma LastLetter(secs: seq<Section>, c: char)
    requires secs != []
    ensures var n := |secs| - 1;
            HasLetter(secs, c) <==> HasLetter(secs[..n], c) || (Lettered(secs[n]) && secs[n].header.letter.value == c)
  {
    assert secs == secs[..|secs| - 1] + [secs[|secs| - 1]];
  }

  lemma DistinctLast(secs: seq<Section>, c: char)
    requires secs != [] && DistinctLetters(secs)
    ensures var n := |secs| - 1;
            DistinctLetters(secs[..n]) && (Lettered(secs[n]) && secs[n].header.letter.value == c ==> !HasLetter(secs[..n], c))
  {
  }

  // ---- normal forms pass through choosing and sorting ----

  lemma NormsSnoc(gs: seq<Group>, g: Group)
    ensures Norms(gs + [g]) == Norms(gs) + [Norm(g)]
  {
  }

  lemma {:induction false} NormsInsert(gs: seq<Group>, g: Group)
    ensures Norms(Insert(gs, g)) == Insert(Norms(gs), Norm(g))
  {
    hide KeyLe, Solid;
    if gs == [] {
      assert Norms([g]) == [Norm(g)];
    } else {
      var n := |gs| - 1;
      assert Norms(gs)[..n] == Norms(gs[..n]);
      if KeyLe(KeyOf(gs[n]), KeyOf(g)) {
        NormsSnoc(gs, g);
      } else {
        NormsInsert(gs[..n], g);
        NormsSnoc(Insert(gs[..n], g), gs[n]);
      }
    }
  }

  lemma {:induction false} NormsSort(gs: seq<Group>)
    ensures Norms(Sort(gs)) == Sort(Norms(gs))
  {
    if gs != [] {
      var n := |gs| - 1;
      NormsSort(gs[..n]);
      NormsInsert(Sort(gs[..n]), gs[n]);
      assert Norms(gs)[..n] == Norms(gs[..n]);
    }
  }

  lemma {:induction false} NormsOfBucket(gs: seq<Group>, b: Bucket)
    ensures Norms(OfBucket(gs, b)) == OfBucket(Norms(gs), b)
  {
    if gs != [] {
      var n := |gs| - 1;
      NormsOfBucket(gs[..n], b);
      assert Norms(gs)[..n] == Norms(gs[..n]);
      if BucketOf(gs[n]) == b { NormsSnoc(OfBucket(gs[..n], b), gs[n]); }
      assert OfBucket(gs[..n], b) + [] == OfBucket(gs[..n], b);
      assert OfBucket(Norms(gs[..n]), b) + [] == OfBucket(Norms(gs[..n]), b);
    }
  }

  lemma NormsConcat(a: seq<Group>, b: seq<Group>)
    ensures Norms(a + b) == Norms(a) + Norms(b)
  {
  }

  lemma NormsBucketOrder(gs: seq<Group>)
    ensures Norms(BucketOrder(gs)) == BucketOrder(Norms(gs))
  {
    hide Sort, OfBucket, Norms;
    var a, h, p := Sort(OfBucket(gs, Arch)), Sort(OfBucket(gs, Hardening)), Sort(OfBucket(gs, Polish));
    var t, u := Sort(OfBucket(gs, Testing) + OfBucket(gs, Infra)), OfBucket(gs, Untagged);
    NormsConcat(a + h + p + t, u);
    NormsConcat(a + h + p, t);
    NormsConcat(a + h, p);
    NormsConcat(a, h);
    NormsSort(OfBucket(gs, Arch));
    NormsSort(OfBucket(gs, Hardening));
    NormsSort(OfBucket(gs, Polish));
    NormsSort(OfBucket(gs, Testing) + OfBucket(gs, Infra));
    NormsConcat(OfBucket(gs, Testing), OfBucket(gs, Infra));
    NormsOfBucket(gs, Arch);
    NormsOfBucket(gs, Hardening);
    NormsOfBucket(gs, Polish);
    NormsOfBucket(gs, Testing);
    NormsOfBucket(gs, Infra);
    NormsOfBucket(gs, Untagged);
  }

  lemma NormsOrdered(gs: seq<Group>, c: char)
    ensures Norms(Ordered(gs, c)) == Ordered(Norms(gs), c)
  {
    hide Sort, BucketOrder, Norms;
    NormsSort(gs);
    NormsBucketOrder(Sort(gs));
  }

  // ---- sorting is idempotent, by buckets too ----

  lemma OfBucketLast(gs: seq<Group>, g: Group, x: Bucket)
    ensures OfBucket(gs + [g], x) == OfBucket(gs, x) + OfBucket([g], x)
  {
    assert (gs + [g])[..|gs|] == gs && [g][..0] == [];
    assert OfBucket([g], x) == if BucketOf(g) == x then [g] else [];
  }

  lemma {:induction false} OfBucketConcat(a: seq<Group>, b: seq<Group>, x: Bucket)
    ensures OfBucket(a + b, x) == OfBucket(a, x) + OfBucket(b, x)
  {
    if b == [] {
      assert a + b == a;
    } else {
      hide OfBucket;
      var n := |b| - 1;
      OfBucketConcat(a, b[..n], x);
      SplitLast(a, b);
      OfBucketLast(a + b[..n], b[n], x);
      OfBucketLast(b[..n], b[n], x);
      Regroup(OfBucket(a, x), OfBucket(b[..n], x), OfBucket([b[n]], x));
    }
  }

  lemma {:induction false} OfBucketTwice(gs: seq<Group>, a: Bucket, b: Bucket)
    ensures OfBucket(OfBucket(gs, a), b) == if a == b then OfBucket(gs, a) else []
  {
    if gs != [] {
      var n := |gs| - 1;
      OfBucketTwice(gs[..n], a, b);
      var last := if BucketOf(gs[n]) == a then [gs[n]] else [];
      OfBucketConcat(OfBucket(gs[..n], a), last, b);
      assert [gs[n]][..0] == [];
    }
  }

  /** Bucket by bucket, sorting what is sorted bucket by bucket changes nothing. */
  lemma BucketsStay(s: seq<Group>, b: Bucket)
    requires Sorted(s)
    ensures OfBucket(Sort(BucketOrder(s)), b) == OfBucket(s, b)
  {
    SortOfBucket(BucketOrder(s), b);
    OfBucketSorted(s, b);
    SortedStays(OfBucket(s, b));
    if b == Testing || b == Infra { CombinedStays(s, b); } else { PlainStays(s, b); }
  }

  lemma SortedBucket(s: seq<Group>, b: Bucket)
    requires Sorted(s)
    ensures Sort(OfBucket(s, b)) == OfBucket(s, b)
  {
    OfBucketSorted(s, b);
    SortedStays(OfBucket(s, b));
  }

  lemma PartsOfOrder(s: seq<Group>, b: Bucket)
    requires Sorted(s)
    ensures var d := Sort(OfBucket(s, Testing) + OfBucket(s, Infra));
            OfBucket(BucketOrder(s), b)
              == OfBucket(OfBucket(s, Arch), b) + OfBucket(OfBucket(s, Hardening), b) + OfBucket(OfBucket(s, Polish), b)
                 + OfBucket(d, b) + OfBucket(OfBucket(s, Untagged), b)
  {
    hide Sort, OfBucket, Sorted;
    var d := Sort(OfBucket(s, Testing) + OfBucket(s, Infra));
    SortedBucket(s, Arch);
    SortedBucket(s, Hardening);
    SortedBucket(s, Polish);
    var a, h, p, u := OfBucket(s, Arch), OfBucket(s, Hardening), OfBucket(s, Polish), OfBucket(s, Untagged);
    OfBucketConcat(a + h + p + d, u, b);
    OfBucketConcat(a + h + p, d, b);
    OfBucketConcat(a + h, p, b);
    OfBucketConcat(a, h, b);
  }

  lemma CombinedOf(s: seq<Group>, b: Bucket)
    requires Sorted(s)
    ensures OfBucket(Sort(OfBucket(s, Testing) + OfBucket(s, Infra)), b)
            == if b == Testing || b == Infra then OfBucket(s, b) else []
  {
    hide Sort, OfBucket, Sorted;
    SortOfBucket(OfBucket(s, Testing) + OfBucket(s, Infra), b);
    OfBucketConcat(OfBucket(s, Testing), OfBucket(s, Infra), b);
    OfBucketTwice(s, Testing, b);
    OfBucketTwice(s, Infra, b);
    SortedBucket(s, b);
    SortNothing();
    var none: seq<Group> := [];
    assert none + none == none && OfBucket(s, b) + none == OfBucket(s, b) && none + OfBucket(s, b) == OfBucket(s, b);
  }

  lemma SortNothing()
    ensures Sort([]) == []
  {
  }

  lemma CombinedStays(s: seq<Group>, b: Bucket)
    requires Sorted(s) && (b == Testing || b == Infra)
    ensures OfBucket(BucketOrder(s), b) == OfBucket(s, b)
  {
    hide Sort, OfBucket, Sorted, BucketOrder;
    PartsOfOrder(s, b);
    CombinedOf(s, b);
    OfBucketTwice(s, Arch, b);
    OfBucketTwice(s, Hardening, b);
    OfBucketTwice(s, Polish, b);
    OfBucketTwice(s, Untagged, b);
  }

  lemma PlainStays(s: seq<Group>, b: Bucket)
    requires Sorted(s) && b != Testing && b != Infra
    ensures OfBucket(BucketOrder(s), b) == OfBucket(s, b)
  {
    hide Sort, OfBucket, Sorted, BucketOrder;
    PartsOfOrder(s, b);
    CombinedOf(s, b);
    OfBucketTwice(s, Arch, b);
    OfBucketTwice(s, Hardening, b);
    OfBucketTwice(s, Polish, b);
    OfBucketTwice(s, Untagged, b);
  }

  lemma OrderedTwice(gs: seq<Group>, c: char)
    ensures Ordered(Ordered(gs, c), c) == Ordered(gs, c)
  {
    hide Sort, OfBucket, Sorted;
    SortSorts(gs);
    var s := Sort(gs);
    if c == 'F' {
      BucketsStay(s, Arch);
      BucketsStay(s, Hardening);
      BucketsStay(s, Polish);
      BucketsStay(s, Testing);
      BucketsStay(s, Infra);
      BucketsStay(s, Untagged);
    } else {
      SortedStays(s);
    }
  }

  // ---- no bullet lost, none doubled ----

  /** The groups the rebuilt sections hold, up to order and blank lines. */
  function Collected(some: seq<Section>, items: seq<Item>, secs: seq<Section>): seq<Group> {
    if some == [] then []
    else
      var s := some[|some| - 1];
      Collected(some[..|some| - 1], items, secs)
      + if Lettered(s) then Norms(Chosen(items, secs, s.header.letter.value)) else []
  }

  /** How often the sections hold the group: once for every section with the letter it goes to. */
  function Held(some: seq<Section>, items: seq<Item>, secs: seq<Section>, x: Group): nat {
    if items == [] then 0
    else
      var it := items[|items| - 1];
      Held(some, items[..|items| - 1], secs, x) + if Norm(it.group) == x then Times(some, Target(it, secs)) else 0
  }

  function ItemNorms(items: seq<Item>): seq<Group> {
    if items == [] then [] else ItemNorms(items[..|items| - 1]) + [Norm(items[|items| - 1].group)]
  }

  lemma {:induction false} HeldNowhere(items: seq<Item>, secs: seq<Section>, x: Group)
    ensures Held([], items, secs, x) == 0
  {
    if items != [] { HeldNowhere(items[..|items| - 1], secs, x); }
  }

  lemma {:induction false} HeldOneMore(some: seq<Section>, s: Section, items: seq<Item>, secs: seq<Section>, x: Group)
    ensures Held(some + [s], items, secs, x) == Held(some, items, secs, x)
              + if Lettered(s) then multiset(Norms(Chosen(items, secs, s.header.letter.value)))[x] else 0
  {
    hide Norms, Norm, Target;
    assert (some + [s])[..|some|] == some;
    if items == [] {
      assert Norms([]) == [];
    } else {
      var n := |items| - 1;
      HeldOneMore(some, s, items[..n], secs, x);
      if Lettered(s) && Target(items[n], secs) == s.header.letter.value {
        NormsSnoc(Chosen(items[..n], secs, s.header.letter.value), items[n].group);
      } else if Lettered(s) {
        assert Chosen(items, secs, s.header.letter.value) == Chosen(items[..n], secs, s.header.letter.value);
      }
    }
  }

  lemma {:induction false} CollectedCount(some: seq<Section>, items: seq<Item>, secs: seq<Section>, x: Group)
    ensures multiset(Collected(some, items, secs))[x] == Held(some, items, secs, x)
  {
    if some == [] {
      HeldNowhere(items, secs, x);
    } else {
      hide Held, Chosen, Norms;
      var n := |some| - 1;
      assert some == some[..n] + [some[n]];
      CollectedCount(some[..n], items, secs, x);
      HeldOneMore(some[..n], some[n], items, secs, x);
    }
  }

  /** Every bullet goes to a letter that one section has. */
  predicate OneHome(items: seq<Item>, secs: seq<Section>) {
    forall it <- items :: Times(secs, Target(it, secs)) == 1
  }

  lemma {:induction false} HeldOnceEach(items: seq<Item>, secs: seq<Section>, x: Group)
    requires OneHome(items, secs)
    ensures Held(secs, items, secs, x) == multiset(ItemNorms(items))[x]
  {
    if items != [] {
      var n := |items| - 1;
      assert items[n] in items;
      HeldOnceEach(items[..n], secs, x);
    }
  }

  lemma {:induction false} HeldAtLeast(items: seq<Item>, secs: seq<Section>, x: Group)
    requires forall it <- items :: Times(secs, Target(it, secs)) >= 1
    ensures Held(secs, items, secs, x) >= multiset(ItemNorms(items))[x]
    ensures (exists it <- items :: Norm(it.group) == x && Times(secs, Target(it, secs)) > 1)
            ==> Held(secs, items, secs, x) > multiset(ItemNorms(items))[x]
  {
    if items != [] {
      hide Norm, Target, Times;
      var n := |items| - 1;
      assert items == items[..n] + [items[n]];
      assert items[n] in items;
      HeldAtLeast(items[..n], secs, x);
    }
  }

  lemma TargetsExist(secs: seq<Section>)
    ensures forall it <- Items(secs) :: Times(secs, Target(it, secs)) >= 1
    ensures DistinctLetters(secs) ==> OneHome(Items(secs), secs)
  {
    hide Items, Times, DistinctLetters;
    ItemsAreOk(secs);
    forall it <- Items(secs)
      ensures Times(secs, Target(it, secs)) >= 1
      ensures DistinctLetters(secs) ==> Times(secs, Target(it, secs)) == 1
    {
      TimesIs(secs, Target(it, secs));
    }
  }

  lemma {:induction false} ItemNormsConcat(a: seq<Item>, b: seq<Item>)
    ensures ItemNorms(a + b) == ItemNorms(a) + ItemNorms(b)
  {
    if b == [] {
      assert a + b == a;
    } else {
      hide Norm;
      var n := |b| - 1;
      ItemNormsConcat(a, b[..n]);
      SplitLast(a, b);
      assert (a + b)[..|a| + n] == a + b[..n];
      Regroup(ItemNorms(a), ItemNorms(b[..n]), [Norm(b[n].group)]);
    }
  }

  lemma {:induction false} TaggedNorms(gs: seq<Group>, c: char)
    ensures ItemNorms(Tagged(gs, c)) == Norms(gs)
  {
    if gs == [] {
      assert Norms(gs) == [];
    } else {
      var n := |gs| - 1;
      TaggedNorms(gs[..n], c);
      assert Tagged(gs, c)[..n] == Tagged(gs[..n], c) by { TaggedIs(gs, c); TaggedIs(gs[..n], c); }
      TaggedIs(gs, c);
      NormsSnoc(gs[..n], gs[n]);
      assert gs == gs[..n] + [gs[n]];
    }
  }

  lemma {:induction false} BulletsAreItems(secs: seq<Section>)
    ensures ItemNorms(Items(secs)) == Bullets(secs)
  {
    if secs != [] {
      hide ItemNorms, Norms, Groups, Tagged;
      var n := |secs| - 1;
      var s := secs[n];
      BulletsAreItems(secs[..n]);
      if Lettered(s) {
        ItemNormsConcat(Items(secs[..n]), Tagged(Groups(s.content), s.header.letter.value));
        TaggedNorms(Groups(s.content), s.header.letter.value);
      } else {
        assert Items(secs) == Items(secs[..n]);
        assert Bullets(secs) == Bullets(secs[..n]);
      }
    }
  }

  /** Sections with the bullets the pass chose for them, under the same headers. */
  predicate Rehomed(written: seq<Section>, some: seq<Section>, secs: seq<Section>) {
    |written| == |some| && forall k | 0 <= k < |some| ::
      && written[k].header == some[k].header
      && (Lettered(some[k]) ==>
            var c := some[k].header.letter.value;
            Norms(Groups(written[k].content)) == Norms(Ordered(Chosen(Items(secs), secs, c), c)))
  }

  /** What the last section adds to both. */
  lemma RehomedLast(written: seq<Section>, some: seq<Section>, secs: seq<Section>)
    requires Rehomed(written, some, secs) && some != []
    ensures var n := |some| - 1;
            && Rehomed(written[..n], some[..n], secs) && Lettered(written[n]) == Lettered(some[n])
            && (Lettered(some[n]) ==>
                  multiset(Norms(Groups(written[n].content))) == multiset(Norms(Chosen(Items(secs), secs, some[n].header.letter.value))))
  {
    hide Norms, Groups, Ordered, Chosen, Items;
    var last := some[|some| - 1];
    if Lettered(last) {
      var c := last.header.letter.value;
      NormsOrdered(Chosen(Items(secs), secs, c), c);
      OrderedIsAll(Norms(Chosen(Items(secs), secs, c)), c);
    }
  }

  lemma BulletsLast(secs: seq<Section>)
    requires secs != []
    ensures multiset(Bullets(secs)) == multiset(Bullets(secs[..|secs| - 1]))
                                       + multiset(if Lettered(secs[|secs| - 1]) then Norms(Groups(secs[|secs| - 1].content)) else [])
  {
    hide Norms, Groups;
  }

  lemma CollectedLast(some: seq<Section>, items: seq<Item>, secs: seq<Section>)
    requires some != []
    ensures var s := some[|some| - 1];
            multiset(Collected(some, items, secs)) == multiset(Collected(some[..|some| - 1], items, secs))
                 + multiset(if Lettered(s) then Norms(Chosen(items, secs, s.header.letter.value)) else [])
  {
    hide Norms, Chosen;
  }

  lemma {:induction false} RehomedBullets(written: seq<Section>, some: seq<Section>, secs: seq<Section>)
    requires Rehomed(written, some, secs)
    ensures multiset(Bullets(written)) == multiset(Collected(some, Items(secs), secs))
  {
    if some == [] {
      assert Bullets(written) == [] && Collected(some, Items(secs), secs) == [];
    } else {
      assert |written| == |some|;
      hide Norms, Groups, Chosen, Items, Bullets, Collected, Rehomed;
      RehomedLast(written, some, secs);
      RehomedBullets(written[..|some| - 1], some[..|some| - 1], secs);
      BulletsLast(written);
      CollectedLast(some, Items(secs), secs);
      assert multiset(Bullets(written)) == multiset(Collected(some, Items(secs), secs));
    }
  }

  lemma PassRehomes(lines: seq<Line>)
    requires SectionsOf(lines) != []
    ensures Rehomed(SectionsOf(After(lines)), SectionsOf(lines), SectionsOf(lines))
  {
    hide RehomeAndSort, Reread, SectionsOf, Norms, Groups, Ordered, Chosen, Items;
    PassKeepsSections(lines);
  }

  /** The pass writes the bullets of the lettered sections, each as often as before, exactly when each
      goes to a letter that only one section has. */
  lemma NoBulletLostOrDoubledIff(lines: seq<Line>)
    requires SectionsOf(lines) != []
    ensures var secs := SectionsOf(lines);
            multiset(Bullets(SectionsOf(After(lines)))) == multiset(Bullets(secs)) <==> OneHome(Items(secs), secs)
  {
    hide After, SectionsOf, Norms, Groups, Ordered, Chosen, Items, Rehomed, Bullets, Held, ItemNorms;
    var secs := SectionsOf(lines);
    var items := Items(secs);
    PassRehomes(lines);
    RehomedBullets(SectionsOf(After(lines)), secs, secs);
    BulletsAreItems(secs);
    TargetsExist(secs);
    if OneHome(items, secs) {
      forall x ensures multiset(Collected(secs, items, secs))[x] == multiset(ItemNorms(items))[x] {
        CollectedCount(secs, items, secs, x);
        HeldOnceEach(items, secs, x);
      }
    } else {
      var it :| it in items && Times(secs, Target(it, secs)) != 1;
      CollectedCount(secs, items, secs, Norm(it.group));
      HeldAtLeast(items, secs, Norm(it.group));
    }
  }

  /** With distinct letters no bullet is lost and none doubled. */
  lemma NoBulletLostOrDoubled(lines: seq<Line>)
    requires SectionsOf(lines) != [] && DistinctLetters(SectionsOf(lines))
    ensures multiset(Bullets(SectionsOf(After(lines)))) == multiset(Bullets(SectionsOf(lines)))
  {
    hide *;
    NoBulletLostOrDoubledIff(lines);
    TargetsExist(SectionsOf(lines));
  }

  // ---- each bullet in its section, in order ----

  function Rank(b: Bucket): nat {
    match b
    case Arch => 0
    case Hardening => 1
    case Polish => 2
    case Testing => 3
    case Infra => 3
    case Untagged => 4
  }

  predicate Before(a: Group, b: Group, c: char) {
    if c == 'F' && Rank(BucketOf(a)) != Rank(BucketOf(b)) then Rank(BucketOf(a)) < Rank(BucketOf(b))
    else KeyLe(KeyOf(a), KeyOf(b))
  }

  /** By sort_key; in the F section by bucket first. */
  predicate InOrder(gs: seq<Group>, c: char) {
    forall i, j | 0 <= i < j < |gs| :: Before(gs[i], gs[j], c)
  }

  predicate RanksWithin(gs: seq<Group>, low: nat, high: nat) {
    forall g <- gs :: low <= Rank(BucketOf(g)) <= high
  }

  lemma JoinInOrder(a: seq<Group>, b: seq<Group>, low: nat, rank: nat)
    requires low <= rank
    requires InOrder(a, 'F') && RanksWithin(a, low, rank) && Sorted(b) && RanksWithin(b, rank + 1, rank + 1)
    ensures InOrder(a + b, 'F') && RanksWithin(a + b, low, rank + 1)
  {
    hide KeyLe;
    forall i, j | 0 <= i < j < |a + b| ensures Before((a + b)[i], (a + b)[j], 'F') {
      if i < |a| <= j { assert a[i] in a && b[j - |a|] in b; }
      if |a| <= i { assert b[i - |a|] in b && b[j - |a|] in b; }
    }
  }

  lemma SortedBuckets(s: seq<Group>, b: Bucket)
    requires Sorted(s)
    ensures Sorted(OfBucket(s, b)) && RanksWithin(OfBucket(s, b), Rank(b), Rank(b))
  {
    OfBucketSorted(s, b);
  }

  lemma SortedRanks(gs: seq<Group>, low: nat, high: nat)
    requires RanksWithin(gs, low, high)
    ensures Sorted(Sort(gs)) && RanksWithin(Sort(gs), low, high)
  {
    hide Sort, Sorted;
    SortSorts(gs);
    forall g <- Sort(gs) ensures low <= Rank(BucketOf(g)) <= high { assert g in multiset(Sort(gs)); }
  }

  lemma OrderedInOrder(gs: seq<Group>, c: char)
    ensures InOrder(Ordered(gs, c), c)
  {
    hide Sort, OfBucket, Rank, KeyLe;
    SortSorts(gs);
    if c == 'F' { BucketOrderInOrder(Sort(gs)); }
  }

  lemma BucketOrderInOrder(s: seq<Group>)
    requires Sorted(s)
    ensures InOrder(BucketOrder(s), 'F')
  {
    hide Sort, OfBucket, KeyLe, Sorted, InOrder, RanksWithin;
    SortedBuckets(s, Arch);
    SortedBuckets(s, Hardening);
    SortedBuckets(s, Polish);
    SortedBuckets(s, Testing);
    SortedBuckets(s, Infra);
    SortedBuckets(s, Untagged);
    var both := OfBucket(s, Testing) + OfBucket(s, Infra);
    BothRanks(OfBucket(s, Testing), OfBucket(s, Infra));
    SortedRanks(OfBucket(s, Arch), 0, 0);
    SortedRanks(OfBucket(s, Hardening), 1, 1);
    SortedRanks(OfBucket(s, Polish), 2, 2);
    SortedRanks(both, 3, 3);
    var a, h, p, t := Sort(OfBucket(s, Arch)), Sort(OfBucket(s, Hardening)), Sort(OfBucket(s, Polish)), Sort(both);
    SortedInOrder(a, 0);
    JoinInOrder(a, h, 0, 0);
    JoinInOrder(a + h, p, 0, 1);
    JoinInOrder(a + h + p, t, 0, 2);
    JoinInOrder(a + h + p + t, OfBucket(s, Untagged), 0, 3);
  }

  lemma BothRanks(a: seq<Group>, b: seq<Group>)
    requires RanksWithin(a, 3, 3) && RanksWithin(b, 3, 3)
    ensures RanksWithin(a + b, 3, 3)
  {
  }

  lemma SortedInOrder(gs: seq<Group>, rank: nat)
    requires Sorted(gs) && RanksWithin(gs, rank, rank)
    ensures InOrder(gs, 'F')
  {
    hide KeyLe;
    forall i, j | 0 <= i < j < |gs| ensures Before(gs[i], gs[j], 'F') { assert gs[i] in gs && gs[j] in gs; }
  }

  lemma InOrderOfNorms(a: seq<Group>, b: seq<Group>, c: char)
    requires InOrder(a, c) && Norms(a) == Norms(b)
    ensures InOrder(b, c)
  {
    hide KeyLe, Rank;
    assert |a| == |Norms(a)| == |b|;
    forall i, j | 0 <= i < j < |b| ensures Before(b[i], b[j], c) {
      assert Norm(a[i]) == Norms(b)[i] && Norm(a[j]) == Norms(b)[j];
      assert Before(a[i], a[j], c);
    }
  }

  /** After the pass a section's bullets are in order, and each of them belongs there: its ID letter is
      the section's, or no section has its ID letter and it stood in a section with this letter. */
  lemma EachInItsSectionInOrder(lines: seq<Line>, k: nat)
    requires k < |SectionsOf(lines)| && Lettered(SectionsOf(lines)[k])
    ensures var secs, out := SectionsOf(lines), SectionsOf(After(lines));
            && |out| == |secs|
            && var c := secs[k].header.letter.value;
            && InOrder(Groups(out[k].content), c)
            && forall g <- Groups(out[k].content) ::
                 if g.bullet.Bullet? && g.bullet.id.Some? && HasLetter(secs, g.bullet.id.value)
                 then g.bullet.id.value == c
                 else exists s <- secs :: Lettered(s) && s.header.letter.value == c && Norm(g) in Norms(Groups(s.content))
  {
    hide After, SectionsOf, Groups, Ordered, Chosen, Items, InOrder, Norm, Target, HasLetter;
    var secs, out := SectionsOf(lines), SectionsOf(After(lines));
    var c := secs[k].header.letter.value;
    var chosen := Chosen(Items(secs), secs, c);
    PassRehomes(lines);
    OrderedInOrder(chosen, c);
    InOrderOfNorms(Ordered(chosen, c), Groups(out[k].content), c);
    OrderedIsAll(chosen, c);
    forall g <- Groups(out[k].content)
      ensures if g.bullet.Bullet? && g.bullet.id.Some? && HasLetter(secs, g.bullet.id.value)
              then g.bullet.id.value == c
              else exists s <- secs :: Lettered(s) && s.header.letter.value == c && Norm(g) in Norms(Groups(s.content))
    {
      var i :| 0 <= i < |Groups(out[k].content)| && Groups(out[k].content)[i] == g;
      var was := Ordered(chosen, c)[i];
      assert Norms(Groups(out[k].content))[i] == Norms(Ordered(chosen, c))[i] == Norm(was);
      assert was in multiset(Ordered(chosen, c));
      ComesFrom(secs, was, c);
      SameBullet(g, was);
    }
  }

  lemma SameBullet(a: Group, b: Group)
    requires Norm(a) == Norm(b)
    ensures a.bullet == b.bullet
  {
  }

  lemma ComesFrom(secs: seq<Section>, g: Group, c: char)
    requires g in Chosen(Items(secs), secs, c)
    ensures if g.bullet.Bullet? && g.bullet.id.Some? && HasLetter(secs, g.bullet.id.value)
            then g.bullet.id.value == c
            else exists s <- secs :: Lettered(s) && s.header.letter.value == c && Norm(g) in Norms(Groups(s.content))
  {
    hide Chosen, Items, Norm, Groups, HasLetter;
    ChosenIs(Items(secs), secs, c);
    var it :| it in Items(secs) && it.group == g && Target(it, secs) == c;
    ItemStoodIn(secs, it);
  }

  lemma {:induction false} ItemStoodIn(secs: seq<Section>, it: Item)
    requires it in Items(secs)
    ensures exists s <- secs :: Lettered(s) && s.header.letter.value == it.home && Norm(it.group) in Norms(Groups(s.content))
  {
    hide Norm, Groups;
    var n := |secs| - 1;
    var s := secs[n];
    assert s in secs;
    if it in Items(secs[..n]) {
      ItemStoodIn(secs[..n], it);
      var x :| x in secs[..n] && Lettered(x) && x.header.letter.value == it.home && Norm(it.group) in Norms(Groups(x.content));
      assert x in secs;
    } else {
      TaggedIs(Groups(s.content), s.header.letter.value);
      var i :| 0 <= i < |Groups(s.content)| && Tagged(Groups(s.content), s.header.letter.value)[i] == it;
      assert Norms(Groups(s.content))[i] == Norm(it.group);
    }
  }

  // ---- everything else stays where it was ----

  /** The lines of a section that are no bullets, without comment markers and, in F, without the
      generated headings. */
  function Kept(lines: seq<Line>, c: char): seq<Line> {
    if c == 'F' then WithoutHeadings(Others(lines)) else Others(lines)
  }

  /** As a file is read: no line holds two. */
  predicate Read(lines: seq<Line>) {
    forall l <- lines :: !l.Break?
  }

  lemma OtherFirst(l: Line, rest: seq<Line>)
    requires !l.Bullet? && !l.Comment?
    ensures Others([l] + rest) == [l] + Others(rest)
  {
    assert ([l] + rest)[1..] == rest;
  }

  lemma {:induction false} OthersSkip(a: seq<Line>, b: seq<Line>)
    requires forall l <- a :: !l.Bullet? && !l.Comment?
    ensures Others(a + b) == a + Others(b)
  {
    if a == [] {
      assert a + b == b;
    } else {
      hide Others;
      OthersSkip(a[1..], b);
      SplitFirst(a, b);
      OtherFirst(a[0], a[1..] + b);
      Regroup([a[0]], a[1..], Others(b));
    }
  }

  lemma OthersOne(bullet: Line, more: seq<Line>, rest: seq<Line>)
    requires GroupOk(Group(bullet, more)) && StartsNew(rest)
    ensures Others([bullet] + more + rest) == Others(rest)
  {
    var lines := [bullet] + more + rest;
    assert lines[1..] == more + rest;
    ContinuationsAre(more, rest);
    assert lines[1 + |more|..] == rest;
  }

  /** The sub-headers among the written bullets. */
  function Breaks(ms: seq<Marked>): seq<Line> {
    if ms == [] then [] else Reread(BreakOf(ms[0])) + Breaks(ms[1..])
  }

  lemma {:induction false} EmittedOthers(ms: seq<Marked>, run: bool)
    requires forall m <- ms :: GroupOk(m.group)
    ensures Others(Reread(Collapse(Emit(ms), run))) == Breaks(ms)
  {
    if ms == [] {
      assert Reread(Collapse([], run)) == [];
    } else {
      hide Others, Collapse, Reread, Emit, Groups, Norms, Norm;
      var g := ms[0].group;
      var more := Collapse(g.more, false);
      var last := RunAfter([g.bullet] + g.more, false);
      EmittedOthers(ms[1..], last);
      EmittedGroups(ms[1..], last);
      var rest := Reread(Collapse(Emit(ms[1..]), last));
      EmitOne(ms, run);
      GroupStays(g, false);
      OthersOne(g.bullet, more, rest);
      BreakNoBullet(ms[0]);
      OthersSkip(Reread(BreakOf(ms[0])), ([g.bullet] + more) + rest);
    }
  }

  lemma BreakNoBullet(m: Marked)
    ensures forall l <- Reread(BreakOf(m)) :: !l.Bullet? && !l.Comment?
    ensures m.brk.None? ==> Reread(BreakOf(m)) == []
    ensures Solid(WithoutHeadings(Reread(BreakOf(m)))) == []
  {
    if m.brk.Some? {
      var w := m.brk.value;
      var two := [Blank, Heading(w)];
      assert Reread(BreakOf(m)) == two;
      assert two[..1] == [Blank] && [Blank][..0] == [];
      assert WithoutHeadings([Blank]) == [Blank];
      assert WithoutHeadings(two) == [Blank];
      assert [Blank][1..] == [];
    }
  }

  lemma SolidFirst(l: Line, rest: seq<Line>)
    ensures Solid([l] + rest) == FirstKept(l, true) + Solid(rest)
  {
    assert ([l] + rest)[1..] == rest;
  }

  lemma {:induction false} SolidConcat(a: seq<Line>, b: seq<Line>)
    ensures Solid(a + b) == Solid(a) + Solid(b)
  {
    if a == [] {
      assert a + b == b;
    } else {
      hide Solid, FirstKept;
      SolidConcat(a[1..], b);
      SplitFirst(a, b);
      SolidFirst(a[0], a[1..] + b);
      SolidFirst(a[0], a[1..]);
      Regroup(FirstKept(a[0], true), Solid(a[1..]), Solid(b));
    }
  }

  lemma WithoutHeadingsLast(lines: seq<Line>, l: Line)
    ensures WithoutHeadings(lines + [l]) == WithoutHeadings(lines) + WithoutHeadings([l])
  {
    assert (lines + [l])[..|lines|] == lines && [l][..0] == [];
    assert WithoutHeadings([l]) == if l.Heading? then [] else [l];
  }

  lemma {:induction false} WithoutHeadingsConcat(a: seq<Line>, b: seq<Line>)
    ensures WithoutHeadings(a + b) == WithoutHeadings(a) + WithoutHeadings(b)
  {
    if b == [] {
      assert a + b == a;
    } else {
      hide WithoutHeadings;
      var n := |b| - 1;
      WithoutHeadingsConcat(a, b[..n]);
      SplitLast(a, b);
      WithoutHeadingsLast(a + b[..n], b[n]);
      WithoutHeadingsLast(b[..n], b[n]);
      Regroup(WithoutHeadings(a), WithoutHeadings(b[..n]), WithoutHeadings([b[n]]));
    }
  }

  lemma {:induction false} BreaksAreBlank(ms: seq<Marked>)
    ensures Solid(WithoutHeadings(Breaks(ms))) == []
    ensures (forall m <- ms :: m.brk.None?) ==> Breaks(ms) == []
  {
    if ms != [] {
      hide Solid, WithoutHeadings, Reread;
      BreaksAreBlank(ms[1..]);
      BreakNoBullet(ms[0]);
      WithoutHeadingsConcat(Reread(BreakOf(ms[0])), Breaks(ms[1..]));
      SolidConcat(WithoutHeadings(Reread(BreakOf(ms[0]))), WithoutHeadings(Breaks(ms[1..])));
    } else {
      assert WithoutHeadings([]) == [];
    }
  }

  lemma {:induction false} WithoutHeadingsStays(lines: seq<Line>)
    requires forall l <- lines :: !l.Heading?
    ensures WithoutHeadings(lines) == lines
  {
    if lines != [] {
      WithoutHeadingsStays(lines[..|lines| - 1]);
      assert lines == lines[..|lines| - 1] + [lines[|lines| - 1]];
    }
  }

  lemma {:induction false} WithoutHeadingsHasNone(lines: seq<Line>)
    ensures forall l <- WithoutHeadings(lines) :: !l.Heading? && l in lines
  {
    if lines != [] {
      WithoutHeadingsHasNone(lines[..|lines| - 1]);
      assert lines == lines[..|lines| - 1] + [lines[|lines| - 1]];
    }
  }

  lemma {:induction false} OthersAreKept(lines: seq<Line>)
    ensures forall l <- Others(lines) :: l in lines && !l.Bullet? && !l.Comment?
    decreases |lines|
  {
    if lines != [] {
      if lines[0].Bullet? { OthersAreKept(lines[1 + |Continuations(lines[1..])|..]); } else { OthersAreKept(lines[1..]); }
    }
  }

  lemma KeptIs(lines: seq<Line>, c: char)
    ensures forall l <- Kept(lines, c) :: l in lines && !l.Bullet? && !l.Comment? && (c == 'F' ==> !l.Heading?)
  {
    OthersAreKept(lines);
    WithoutHeadingsHasNone(Others(lines));
  }

  lemma {:induction false} MarkNone(gs: seq<Group>)
    ensures forall m <- Mark(gs, None) :: m.brk.None?
  {
    if gs != [] { MarkNone(gs[1..]); }
  }

  /** The section is the last one with the letter. */
  predicate LastWith(secs: seq<Section>, j: nat, c: char) {
    && j < |secs| && Lettered(secs[j]) && secs[j].header.letter.value == c
    && forall i | j < i < |secs| && Lettered(secs[i]) :: secs[i].header.letter.value != c
  }

  /** The text written for a letter is what its last section kept. */
  lemma {:induction false} TextOfLast(secs: seq<Section>, j: nat, c: char)
    requires LastWith(secs, j, c)
    ensures Text(secs, c) == Kept(secs[j].content, c)
  {
    if j < |secs| - 1 { TextOfLast(secs[..|secs| - 1], j, c); }
  }

  lemma DistinctIsLast(secs: seq<Section>, k: nat)
    requires DistinctLetters(secs) && k < |secs| && Lettered(secs[k])
    ensures LastWith(secs, k, secs[k].header.letter.value)
  {
  }

  /** t: the section whose text is written for the letter of s. */
  lemma SameText(s: Section, t: Section, secs: seq<Section>)
    requires SectionsOk(secs) && s in secs && Lettered(s)
    requires Read(t.content)
    requires Text(secs, s.header.letter.value) == Kept(t.content, s.header.letter.value)
    ensures var c := s.header.letter.value;
            Solid(Kept(Written(NewContent(s, secs)), c)) == Solid(Kept(t.content, c))
  {
    hide Others, Collapse, Reread, Emit, Text, Placed, Items, Solid, WithoutHeadings, Breaks, Kept;
    var c := s.header.letter.value;
    var text, ms := Text(secs, c), Placed(Items(secs), secs, c);
    KeptIs(t.content, c);
    var short := Collapse(text, false);
    CollapseIs(text, false);
    CollapseSolid(text, false);
    RereadSame(short);
    PlacedAreOk(secs, c);
    CollapseConcat(text, Emit(ms), false);
    RereadConcat(short, Collapse(Emit(ms), RunAfter(text, false)));
    EmittedOthers(ms, RunAfter(text, false));
    OthersSkip(short, Reread(Collapse(Emit(ms), RunAfter(text, false))));
    assert Others(Written(NewContent(s, secs))) == short + Breaks(ms);
    BreaksAreBlank(ms);
    if c == 'F' {
      KeptInF(Written(NewContent(s, secs)));
      WithoutHeadingsConcat(short, Breaks(ms));
      WithoutHeadingsStays(short);
      SolidConcat(short, WithoutHeadings(Breaks(ms)));
    } else {
      KeptElsewhere(Written(NewContent(s, secs)), c);
      NoBreaksElsewhere(Items(secs), secs, c);
      assert short + Breaks(ms) == short;
    }
  }

  lemma KeptInF(lines: seq<Line>)
    ensures Kept(lines, 'F') == WithoutHeadings(Others(lines))
  {
  }

  lemma KeptElsewhere(lines: seq<Line>, c: char)
    requires c != 'F'
    ensures Kept(lines, c) == Others(lines)
  {
  }

  lemma NoBreaksElsewhere(items: seq<Item>, secs: seq<Section>, c: char)
    requires c != 'F'
    ensures forall m <- Placed(items, secs, c) :: m.brk.None?
  {
    hide Sort, Chosen, Mark;
    MarkNone(Sort(Chosen(items, secs, c)));
  }

  /** Every header stays; a section without a letter (the Deferred one among them) and the lines above
      the first section lose nothing but the second and later blank lines of a run; the other lines of
      a lettered section stay, up to blank lines: with one letter twice, those of its last section. */
  lemma RestStays(lines: seq<Line>, k: nat)
    requires Read(lines) && k < |SectionsOf(lines)|
    ensures var secs, out := SectionsOf(lines), SectionsOf(After(lines));
            && |out| == |secs| && out[k].header == secs[k].header
            && Body(After(lines)) == Collapse(Body(lines), false)
            && (!Lettered(secs[k]) ==> out[k].content == Collapse(secs[k].content, false))
            && (Lettered(secs[k]) ==>
                  var c := secs[k].header.letter.value;
                  forall j: nat | LastWith(secs, j, c) :: Solid(Kept(out[k].content, c)) == Solid(Kept(secs[j].content, c)))
  {
    hide RehomeAndSort, Collapse, Reread, SectionsOf, Norms, Groups, Ordered, Chosen, Items, Body, Kept, Solid, Text;
    var secs, out := SectionsOf(lines), SectionsOf(After(lines));
    PassKeepsSections(lines);
    SectionsOfOk(lines);
    BodyOfRead(lines);
    SectionsOfRead(lines);
    assert secs[k] in secs;
    CollapseIs(Body(lines), false);
    RereadSame(Collapse(Body(lines), false));
    if Lettered(secs[k]) {
      var c := secs[k].header.letter.value;
      forall j: nat | LastWith(secs, j, c) ensures Solid(Kept(out[k].content, c)) == Solid(Kept(secs[j].content, c)) {
        TextOfLast(secs, j, c);
        assert secs[j] in secs;
        SameText(secs[k], secs[j], secs);
      }
    } else {
      CollapseIs(secs[k].content, false);
      RereadSame(Collapse(secs[k].content, false));
    }
  }

  lemma {:induction false} BodyOfRead(lines: seq<Line>)
    requires Read(lines)
    ensures Read(Body(lines))
  {
    if lines != [] { BodyOfRead(lines[1..]); }
  }

  lemma {:induction false} SectionsOfRead(lines: seq<Line>)
    requires Read(lines)
    ensures forall s <- SectionsOf(lines) :: Read(s.content)
  {
    if lines != [] {
      SectionsOfRead(lines[1..]);
      BodyOfRead(lines[1..]);
    }
  }

  // ---- a second pass moves no bullet ----

  lemma SameLetters(secs: seq<Section>, out: seq<Section>)
    requires Rehomed(out, secs, secs)
    ensures DistinctLetters(secs) ==> DistinctLetters(out)
    ensures forall c :: HasLetter(out, c) ==> HasLetter(secs, c)
  {
    hide Norms, Groups, Ordered, Chosen, Items;
    forall c | HasLetter(out, c) ensures HasLetter(secs, c) {
      var s :| s in out && Lettered(s) && s.header.letter.value == c;
      var k :| 0 <= k < |out| && out[k] == s;
      assert secs[k] in secs;
    }
  }

  /** Every bullet stands in the section it goes to. */
  predicate AtHome(items: seq<Item>, secs: seq<Section>) {
    forall it <- items :: Target(it, secs) == it.home
  }

  lemma {:induction false} ChosenOfTagged(items: seq<Item>, gs: seq<Group>, home: char, secs: seq<Section>, c: char)
    requires AtHome(Tagged(gs, home), secs)
    ensures Chosen(items + Tagged(gs, home), secs, c) == Chosen(items, secs, c) + if home == c then gs else []
  {
    TaggedIs(gs, home);
    if gs == [] {
      assert items + Tagged(gs, home) == items;
    } else {
      var n := |gs| - 1;
      TaggedIs(gs[..n], home);
      var all := items + Tagged(gs, home);
      assert all[..|all| - 1] == items + Tagged(gs[..n], home);
      assert Tagged(gs, home)[n] in Tagged(gs, home);
      assert all[|all| - 1] == Item(gs[n], home);
      forall it <- Tagged(gs[..n], home) ensures Target(it, secs) == it.home { assert it in Tagged(gs, home); }
      ChosenOfTagged(items, gs[..n], home, secs, c);
      assert gs == gs[..n] + [gs[n]];
    }
  }

  lemma {:induction false} NothingChosen(some: seq<Section>, secs: seq<Section>, c: char)
    requires AtHome(Items(some), secs) && !HasLetter(some, c)
    ensures Chosen(Items(some), secs, c) == []
  {
    if some != [] {
      hide Groups, Target;
      var n := |some| - 1;
      assert some[n] in some;
      forall it <- Items(some[..n]) ensures Target(it, secs) == it.home { assert it in Items(some); }
      forall s <- some[..n] ensures Lettered(s) ==> s.header.letter.value != c { assert s in some; }
      NothingChosen(some[..n], secs, c);
      if Lettered(some[n]) {
        var tagged := Tagged(Groups(some[n].content), some[n].header.letter.value);
        forall it <- tagged ensures Target(it, secs) == it.home { assert it in Items(some); }
        ChosenOfTagged(Items(some[..n]), Groups(some[n].content), some[n].header.letter.value, secs, c);
      } else {
        assert Items(some) == Items(some[..n]);
      }
    }
  }

  lemma {:induction false} ChosenAtHome(some: seq<Section>, k: nat, secs: seq<Section>)
    requires AtHome(Items(some), secs) && DistinctLetters(some) && k < |some| && Lettered(some[k])
    ensures Chosen(Items(some), secs, some[k].header.letter.value) == Groups(some[k].content)
  {
    hide Groups, Target, Chosen;
    var n := |some| - 1;
    var c := some[k].header.letter.value;
    forall it <- Items(some[..n]) ensures Target(it, secs) == it.home { assert it in Items(some); }
    if Lettered(some[n]) {
      var tagged := Tagged(Groups(some[n].content), some[n].header.letter.value);
      forall it <- tagged ensures Target(it, secs) == it.home { assert it in Items(some); }
      ChosenOfTagged(Items(some[..n]), Groups(some[n].content), some[n].header.letter.value, secs, c);
    } else {
      assert Items(some) == Items(some[..n]);
    }
    if k < n {
      ChosenAtHome(some[..n], k, secs);
    } else {
      forall s <- some[..n] ensures Lettered(s) ==> s.header.letter.value != c {
        var i :| 0 <= i < n && some[i] == s;
      }
      NothingChosen(some[..n], secs, c);
    }
  }

  lemma {:induction false} ItemIsOf(secs: seq<Section>, it: Item)
    requires it in Items(secs)
    ensures exists k :: 0 <= k < |secs| && Lettered(secs[k]) && secs[k].header.letter.value == it.home && it.group in Groups(secs[k].content)
  {
    hide Groups;
    var n := |secs| - 1;
    if it in Items(secs[..n]) {
      ItemIsOf(secs[..n], it);
      var k :| 0 <= k < n && Lettered(secs[..n][k]) && secs[..n][k].header.letter.value == it.home && it.group in Groups(secs[..n][k].content);
      assert secs[k] == secs[..n][k];
    } else {
      TaggedIs(Groups(secs[n].content), secs[n].header.letter.value);
      assert Lettered(secs[n]) && secs[n].header.letter.value == it.home && it.group in Groups(secs[n].content);
    }
  }

  lemma AllAtHome(lines: seq<Line>)
    requires SectionsOf(lines) != []
    ensures AtHome(Items(SectionsOf(After(lines))), SectionsOf(After(lines)))
  {
    hide After, SectionsOf, Items, Groups, Norms, InOrder, HasLetter, Rehomed;
    var secs, out := SectionsOf(lines), SectionsOf(After(lines));
    PassRehomes(lines);
    SameLetters(secs, out);
    SameHeaders(out, secs, secs);
    forall it <- Items(out) ensures Target(it, out) == it.home {
      ItemIsOf(out, it);
      var k :| 0 <= k < |out| && Lettered(out[k]) && out[k].header.letter.value == it.home && it.group in Groups(out[k].content);
      EachInItsSectionInOrder(lines, k);
    }
  }

  lemma SameHeaders(written: seq<Section>, some: seq<Section>, secs: seq<Section>)
    requires Rehomed(written, some, secs)
    ensures |written| == |some| && forall k | 0 <= k < |some| :: written[k].header == some[k].header
  {
  }

  /** The pass is stable: done again, it leaves every section the same bullets in the same order. */
  lemma SecondPassMovesNoBullet(lines: seq<Line>, k: nat)
    requires DistinctLetters(SectionsOf(lines)) && k < |SectionsOf(lines)| && Lettered(SectionsOf(lines)[k])
    ensures var out, again := SectionsOf(After(lines)), SectionsOf(After(After(lines)));
            |again| == |out| == |SectionsOf(lines)| && Norms(Groups(again[k].content)) == Norms(Groups(out[k].content))
  {
    hide After, SectionsOf, Items, Groups, Norms, Ordered, Chosen, DistinctLetters;
    var secs, out, again := SectionsOf(lines), SectionsOf(After(lines)), SectionsOf(After(After(lines)));
    PassRehomes(lines);
    SameLetters(secs, out);
    PassRehomes(After(lines));
    AllAtHome(lines);
    var c := secs[k].header.letter.value;
    ChosenAtHome(out, k, out);
    var gs, chosen := Groups(out[k].content), Chosen(Items(secs), secs, c);
    assert Norms(Groups(again[k].content)) == Norms(Ordered(gs, c));
    NormsOrdered(gs, c);
    NormsOrdered(chosen, c);
    OrderedTwice(Norms(chosen), c);
  }

  // ---- what the pass does change ----

  predicate TwoBlanks(lines: seq<Line>) {
    exists i :: 0 <= i < |lines| - 1 && IsBlank(lines[i]) && IsBlank(lines[i + 1])
  }

  /** Two blank lines in a row stand first, or further on. */
  lemma TwoBlanksFirst(lines: seq<Line>)
    requires lines != []
    ensures TwoBlanks(lines) <==> (|lines| > 1 && IsBlank(lines[0]) && IsBlank(lines[1])) || TwoBlanks(lines[1..])
  {
    var rest := lines[1..];
    if TwoBlanks(lines) {
      var i :| 0 <= i < |lines| - 1 && IsBlank(lines[i]) && IsBlank(lines[i + 1]);
      if i > 0 { assert IsBlank(rest[i - 1]) && IsBlank(rest[i]); }
    }
    if TwoBlanks(rest) {
      var i :| 0 <= i < |rest| - 1 && IsBlank(rest[i]) && IsBlank(rest[i + 1]);
      assert IsBlank(lines[i + 1]) && IsBlank(lines[i + 2]);
    }
  }

  lemma {:induction false} CollapseShortens(lines: seq<Line>, run: bool)
    ensures |Collapse(lines, run)| <= |lines|
    ensures |Collapse(lines, run)| == |lines| <==> !TwoBlanks(lines) && !(run && lines != [] && IsBlank(lines[0]))
    ensures |Collapse(lines, run)| == |lines| ==> Collapse(lines, run) == lines
  {
    if lines == [] {
      assert !TwoBlanks(lines);
    } else {
      hide TwoBlanks;
      CollapseShortens(lines[1..], IsBlank(lines[0]));
      TwoBlanksFirst(lines);
      assert lines == [lines[0]] + lines[1..];
    }
  }

  /** The Deferred section is left as it is exactly when it has no two blank lines in a row. */
  lemma UntouchedIff(lines: seq<Line>, k: nat)
    requires Read(lines) && k < |SectionsOf(lines)| && !Lettered(SectionsOf(lines)[k])
    ensures |SectionsOf(After(lines))| == |SectionsOf(lines)|
    ensures SectionsOf(After(lines))[k].content == SectionsOf(lines)[k].content <==> !TwoBlanks(SectionsOf(lines)[k].content)
  {
    hide *;
    RestStays(lines, k);
    CollapseShortens(SectionsOf(lines)[k].content, false);
  }

  const REFACTORS: Line := H2(Some('F'), "F - Refactors")
  const F1: Line := Bullet(Some('F'), Key("F", 1, ""), Arch, "F1")

  lemma OfBucketOne(g: Group, b: Bucket)
    ensures OfBucket([g], b) == if BucketOf(g) == b then [g] else []
  {
    assert [g][..0] == [];
  }

  lemma SortOne(g: Group)
    ensures Sort([g]) == [g] && Sort([]) == []
  {
    assert [g][..0] == [];
  }

  lemma OneMark(g: Group, which: nat)
    ensures Mark([g], Some(which)) == [Marked(Some(which), g)]
    ensures forall w: Option<nat> :: Mark([], w) == []
  {
    assert [g][1..] == [];
  }

  lemma OneInBuckets(g: Group)
    requires BucketOf(g) == Arch
    ensures InBuckets([g]) == [Marked(Some(0), g)]
  {
    hide OfBucket, Sort, Mark;
    OfBucketOne(g, Arch);
    OfBucketOne(g, Hardening);
    OfBucketOne(g, Polish);
    OfBucketOne(g, Testing);
    OfBucketOne(g, Infra);
    OfBucketOne(g, Untagged);
    SortOne(g);
    OneMark(g, 0);
    var none: seq<Group> := [];
    assert none + none == none;
    var ms := [Marked(Some(0), g)];
    assert ms + [] + [] + [] + [] == ms;
  }

  lemma OneBulletIsPlaced(secs: seq<Section>)
    requires HasLetter(secs, 'F')
    ensures Emit(Placed([Item(Group(F1, []), 'F')], secs, 'F')) == [Break(0), F1]
  {
    hide InBuckets, Sort, Emit, HasLetter;
    var g := Group(F1, []);
    var items := [Item(g, 'F')];
    assert items[..0] == [];
    assert Chosen(items, secs, 'F') == [g];
    SortOne(g);
    OneInBuckets(g);
    var ms := [Marked(Some(0), g)];
    assert ms[1..] == [];
    EmitFirst(ms);
    assert Emit([]) == [] by { EmitNothing(); }
  }

  lemma EmitNothing()
    ensures Emit([]) == []
  {
  }

  lemma OneSection(content: seq<Line>)
    requires NoH2(content)
    ensures SectionsOf([REFACTORS] + content) == [Section(REFACTORS, content)] && Body([REFACTORS] + content) == []
  {
    assert ([REFACTORS] + content)[1..] == content;
    BodyAll(content);
  }

  lemma ItemOfOne(s: Section)
    requires s.header == REFACTORS && Groups(s.content) == [Group(F1, [])]
    ensures Items([s]) == [Item(Group(F1, []), 'F')] && Text([s], 'F') == Kept(s.content, 'F') && HasLetter([s], 'F')
  {
    hide Groups, Others, WithoutHeadings;
    assert [s][..0] == [] && [Group(F1, [])][..0] == [];
    assert s in [s];
    var none: seq<Item> := [];
    assert Tagged([Group(F1, [])], 'F') == none + [Item(Group(F1, []), 'F')];
    assert Items([s]) == none + Tagged(Groups(s.content), 'F');
  }

  lemma OnePass(content: seq<Line>, text: seq<Line>)
    requires NoH2(content) && Groups(content) == [Group(F1, [])] && Kept(content, 'F') == text && (text == [] || text == [Blank])
    ensures After([REFACTORS] + content) == [REFACTORS] + text + [Blank, Heading(0), F1]
  {
    hide Groups, Kept, Collapse, Placed, Emit, Items, Text, SectionsOf, Body, Reread, HasLetter;
    var s := Section(REFACTORS, content);
    OneSection(content);
    ItemOfOne(s);
    OneBulletIsPlaced([s]);
    assert [s][..0] == [];
    assert NewContent(s, [s]) == text + [Break(0), F1];
    assert [] + Rebuilt([s], [s]) == [REFACTORS] + (text + [Break(0), F1]);
    ShortOutput(text);
  }

  lemma ShortOutput(text: seq<Line>)
    requires text == [] || text == [Blank]
    ensures Reread(Collapse([REFACTORS] + (text + [Break(0), F1]), false)) == [REFACTORS] + text + [Blank, Heading(0), F1]
  {
    hide Collapse, Reread;
    var two: seq<Line> := [Break(0)] + [F1];
    BreakFirst(true);
    BreakFirst(false);
    CollapseFirst(REFACTORS, text + two, false);
    if text == [] { assert text + two == two; } else { CollapseFirst(Blank, two, false); }
    assert Collapse([REFACTORS] + (text + two), false) == ([REFACTORS] + text) + two;
    RereadConcat([REFACTORS] + text, two);
    RereadSame([REFACTORS] + text);
    assert two == [Break(0), F1];
    assert [REFACTORS] + text + [Blank, Heading(0), F1] == ([REFACTORS] + text) + [Blank, Heading(0), F1];
  }

  lemma BreakFirst(run: bool)
    ensures Collapse([Break(0)] + [F1], run) == [Break(0), F1] && Reread([Break(0)] + [F1]) == [Blank, Heading(0), F1]
  {
    CollapseFirst(Break(0), [F1], run);
    RereadFirst(Break(0), [F1]);
    assert [F1][1..] == [];
  }

  lemma BlankAndHeading()
    ensures WithoutHeadings([Blank, Heading(0)]) == [Blank]
  {
    assert [Blank, Heading(0)][..1] == [Blank] && [Blank][..0] == [];
    assert WithoutHeadings([Blank]) == [Blank];
  }

  lemma JustF1()
    ensures Groups([F1]) == [Group(F1, [])] && Others([F1]) == []
  {
    assert [F1][1..] == [] && Continuations([]) == [];
  }

  /** A second pass moves no bullet, but it is not the identity: the empty line before the sub-header
      is kept as text and a new one is written. */
  lemma SecondPassAddsABlank()
    ensures After([REFACTORS, F1]) == [REFACTORS, Blank, Heading(0), F1]
    ensures After(After([REFACTORS, F1])) == [REFACTORS, Blank, Blank, Heading(0), F1]
  {
    hide After, Groups, Others, WithoutHeadings;
    JustF1();
    BlankAndHeading();
    assert WithoutHeadings([]) == [] by { NoHeadings(); }
    assert [REFACTORS, F1] == [REFACTORS] + [F1];
    OnePass([F1], []);
    assert [REFACTORS] + [] + [Blank, Heading(0), F1] == [REFACTORS, Blank, Heading(0), F1];
    var more := [Blank, Heading(0)] + [F1];
    GroupsSkip([Blank, Heading(0)], [F1]);
    OthersSkip([Blank, Heading(0)], [F1]);
    assert Others(more) == [Blank, Heading(0)] + [] == [Blank, Heading(0)];
    KeptInF(more);
    assert [REFACTORS, Blank, Heading(0), F1] == [REFACTORS] + more;
    OnePass(more, [Blank]);
  }

  lemma NoHeadings()
    ensures WithoutHeadings([]) == []
  {
  }
}
