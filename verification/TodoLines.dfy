/** What the re-homing pass does to single lines: their order, their bullets, their sub-headers. */
module TodoLines {
  import opened BotTypes
  import opened Seqs
  import opened Todo
  import opened TodoTheorems
  import opened TodoTwice

  // ---- which ID comes first ----

  /** The strings are alike up to k, where a has ended or has the smaller character. */
  predicate FirstDiffer(a: string, b: string, k: nat)
    requires k <= |a| && k <= |b|
  {
    a[..k] == b[..k] && (k == |a| || (k < |b| && a[k] < b[k]))
  }

  predicate Ahead(a: string, b: string) {
    exists k: nat | k <= |a| && k <= |b| :: FirstDiffer(a, b, k)
  }

  lemma {:induction false} StringLeIff(a: string, b: string)
    ensures StringLe(a, b) <==> Ahead(a, b)
    decreases |a|
  {
    if a == [] {
      assert FirstDiffer(a, b, 0);
    } else if b != [] && a[0] == b[0] {
      StringLeIff(a[1..], b[1..]);
      if Ahead(a[1..], b[1..]) {
        var k: nat :| k <= |a[1..]| && k <= |b[1..]| && FirstDiffer(a[1..], b[1..], k);
        assert a[..k + 1] == [a[0]] + a[1..][..k] && b[..k + 1] == [b[0]] + b[1..][..k];
        assert FirstDiffer(a, b, k + 1);
      }
      if Ahead(a, b) {
        var k: nat :| k <= |a| && k <= |b| && FirstDiffer(a, b, k);
        assert a[1..][..k - 1] == a[..k][1..] && b[1..][..k - 1] == b[..k][1..];
        assert FirstDiffer(a[1..], b[1..], k - 1);
      }
    } else if b != [] {
      if a[0] < b[0] { assert FirstDiffer(a, b, 0); }
      forall k | 0 < k <= |a| && k <= |b| ensures a[..k] != b[..k] { assert a[..k][0] == a[0] && b[..k][0] == b[0]; }
    }
  }

  /** IDs go by their letters in alphabetical order, then by their number, then by their suffix: A8
      before A14, A14 before A14b before A14c, A14c before A15, A before B. */
  lemma KeyLeIff(a: Key, b: Key)
    ensures KeyLe(a, b) <==>
              || (a.prefix != b.prefix && Ahead(a.prefix, b.prefix))
              || (a.prefix == b.prefix && a.number < b.number)
              || (a.prefix == b.prefix && a.number == b.number && Ahead(a.suffix, b.suffix))
  {
    hide Ahead;
    StringLeIff(a.prefix, b.prefix);
    StringLeIff(a.suffix, b.suffix);
  }

  // ---- bullets with one ID keep their order ----

  function WithKey(gs: seq<Group>, key: Key): seq<Group> {
    if gs == [] then []
    else WithKey(gs[..|gs| - 1], key) + if KeyOf(gs[|gs| - 1]) == key then [gs[|gs| - 1]] else []
  }

  lemma WithKeyLast(gs: seq<Group>, g: Group, key: Key)
    ensures WithKey(gs + [g], key) == WithKey(gs, key) + if KeyOf(g) == key then [g] else []
  {
    assert (gs + [g])[..|gs|] == gs;
  }

  lemma {:induction false} WithKeyInsert(gs: seq<Group>, g: Group, key: Key)
    ensures WithKey(Insert(gs, g), key) == WithKey(gs + [g], key)
  {
    hide KeyLe, KeyOf, WithKey;
    if gs != [] {
      var n := |gs| - 1;
      if !KeyLe(KeyOf(gs[n]), KeyOf(g)) {
        WithKeyInsert(gs[..n], g, key);
        WithKeyLast(Insert(gs[..n], g), gs[n], key);
        WithKeyLast(gs[..n], g, key);
        WithKeyLast(gs[..n], gs[n], key);
        WithKeyLast(gs, g, key);
        assert gs == gs[..n] + [gs[n]];
        KeyLeTotal(KeyOf(g), KeyOf(g));
      }
    } else {
      assert gs + [g] == [g];
    }
  }

  /** The sort is stable. */
  lemma {:induction false} SortIsStable(gs: seq<Group>, key: Key)
    ensures WithKey(Sort(gs), key) == WithKey(gs, key)
  {
    if gs != [] {
      hide KeyOf, Insert;
      var n := |gs| - 1;
      SortIsStable(gs[..n], key);
      WithKeyInsert(Sort(gs[..n]), gs[n], key);
      WithKeyLast(Sort(gs[..n]), gs[n], key);
    }
  }

  // ---- which lines travel with a bullet ----

  /** Between line i and a bullet above it only indented lines stand. */
  predicate Travels(lines: seq<Line>, i: nat)
    requires i < |lines|
  {
    exists j: nat | j < i :: lines[j].Bullet? && forall k | j < k <= i :: IsContinuation(lines[k])
  }

  /** The bullets and the lines that travel with one, in their order. */
  function Moving(lines: seq<Line>): seq<Line> {
    if lines == [] then []
    else
      var n := |lines| - 1;
      Moving(lines[..n]) + if lines[n].Bullet? || Travels(lines, n) then [lines[n]] else []
  }

  /** The lines that do not travel, without comment markers. */
  function Staying(lines: seq<Line>): seq<Line> {
    if lines == [] then []
    else
      var n := |lines| - 1;
      Staying(lines[..n]) + if lines[n].Bullet? || lines[n].Comment? || Travels(lines, n) then [] else [lines[n]]
  }

  /** The lines end with a bullet and what travels with it. */
  predicate InGroup(lines: seq<Line>) {
    exists j: nat | j < |lines| :: lines[j].Bullet? && forall k | j < k < |lines| :: IsContinuation(lines[k])
  }

  lemma TravelsIff(lines: seq<Line>, l: Line)
    ensures Travels(lines + [l], |lines|) <==> IsContinuation(l) && InGroup(lines)
  {
    hide IsContinuation;
    var all := lines + [l];
    if Travels(all, |lines|) {
      var j: nat :| j < |lines| && all[j].Bullet? && forall k | j < k <= |lines| :: IsContinuation(all[k]);
      assert lines[j].Bullet?;
      assert all[|lines|] == l;
      forall k | j < k < |lines| ensures IsContinuation(lines[k]) { assert all[k] == lines[k]; }
    }
    if IsContinuation(l) && InGroup(lines) {
      var j: nat :| j < |lines| && lines[j].Bullet? && forall k | j < k < |lines| :: IsContinuation(lines[k]);
      assert all[j].Bullet?;
      forall k | j < k <= |lines| ensures IsContinuation(all[k]) { if k < |lines| { assert all[k] == lines[k]; } }
    }
  }

  /** Whether the lines end in a group is told by those from a line on that begins no continuation. */
  lemma InGroupRest(a: seq<Line>, rest: seq<Line>)
    requires rest != [] && !IsContinuation(rest[0])
    ensures InGroup(a + rest) <==> InGroup(rest)
  {
    var all := a + rest;
    if InGroup(all) {
      var j: nat :| j < |all| && all[j].Bullet? && forall k | j < k < |all| :: IsContinuation(all[k]);
      assert all[|a|] == rest[0];
      assert j >= |a|;
      assert rest[j - |a|].Bullet?;
      forall k | j - |a| < k < |rest| ensures IsContinuation(rest[k]) { assert all[|a| + k] == rest[k]; }
    }
    if InGroup(rest) {
      var j: nat :| j < |rest| && rest[j].Bullet? && forall k | j < k < |rest| :: IsContinuation(rest[k]);
      assert all[|a| + j].Bullet?;
      forall k | |a| + j < k < |all| ensures IsContinuation(all[k]) { assert all[k] == rest[k - |a|]; }
    }
  }

  lemma InGroupAfter(l: Line, lines: seq<Line>)
    requires !l.Bullet?
    ensures InGroup([l] + lines) <==> InGroup(lines)
  {
    var all := [l] + lines;
    if InGroup(all) {
      var j: nat :| j < |all| && all[j].Bullet? && forall k | j < k < |all| :: IsContinuation(all[k]);
      assert lines[j - 1].Bullet?;
      forall k | j - 1 < k < |lines| ensures IsContinuation(lines[k]) { assert all[k + 1] == lines[k]; }
    }
    if InGroup(lines) {
      var j: nat :| j < |lines| && lines[j].Bullet? && forall k | j < k < |lines| :: IsContinuation(lines[k]);
      assert all[j + 1].Bullet?;
      forall k | j + 1 < k < |all| ensures IsContinuation(all[k]) { assert all[k] == lines[k - 1]; }
    }
  }

  lemma GroupIsInGroup(bullet: Line, more: seq<Line>)
    requires GroupOk(Group(bullet, more))
    ensures InGroup([bullet] + more)
  {
    var all := [bullet] + more;
    assert all[0].Bullet?;
    forall k | 0 < k < |all| ensures IsContinuation(all[k]) { assert all[k] == more[k - 1]; }
  }

  /** The lines of the groups, one after the other. */
  function Flat(gs: seq<Group>): seq<Line> {
    if gs == [] then [] else [gs[0].bullet] + gs[0].more + Flat(gs[1..])
  }

  /** A first line that is no bullet, or a first group, is taken off. */
  lemma FirstTaken(lines: seq<Line>)
    requires lines != []
    ensures !lines[0].Bullet? ==>
              && Flat(Groups(lines)) == Flat(Groups(lines[1..]))
              && Others(lines) == (if lines[0].Comment? then [] else [lines[0]]) + Others(lines[1..])
    ensures lines[0].Bullet? ==>
              var more := Continuations(lines[1..]);
              var rest := lines[1 + |more|..];
              && lines == [lines[0]] + more + rest
              && StartsNew(rest) && GroupOk(Group(lines[0], more))
              && Flat(Groups(lines)) == [lines[0]] + more + Flat(Groups(rest))
              && Others(lines) == Others(rest)
  {
    if lines[0].Bullet? { FirstGroup(lines); }
  }

  lemma FirstGroup(lines: seq<Line>)
    requires lines != [] && lines[0].Bullet?
    ensures var more := Continuations(lines[1..]);
            var rest := lines[1 + |more|..];
            && lines == [lines[0]] + more + rest
            && StartsNew(rest) && GroupOk(Group(lines[0], more))
            && Flat(Groups(lines)) == [lines[0]] + more + Flat(Groups(rest))
            && Others(lines) == Others(rest)
  {
    hide IsContinuation, StartsNew, Flat;
    ContinuationsEnd(lines[1..]);
    var more := Continuations(lines[1..]);
    var rest := lines[1 + |more|..];
    assert lines[1..][|more|..] == rest;
    assert Groups(lines) == [Group(lines[0], more)] + Groups(rest);
    FlatFirst(Group(lines[0], more), Groups(rest));
  }

  lemma FlatFirst(g: Group, gs: seq<Group>)
    ensures Flat([g] + gs) == [g.bullet] + g.more + Flat(gs)
  {
    assert ([g] + gs)[1..] == gs;
  }

  lemma {:induction false} ContinuationsEnd(lines: seq<Line>)
    ensures StartsNew(lines[|Continuations(lines)|..])
  {
    if lines != [] && IsContinuation(lines[0]) {
      ContinuationsEnd(lines[1..]);
      assert lines[|Continuations(lines)|..] == lines[1..][|Continuations(lines[1..])|..];
    }
  }

  predicate Joins(lines: seq<Line>, l: Line) {
    l.Bullet? || (IsContinuation(l) && InGroup(lines))
  }

  /** One more line joins the last group or starts one; else it is one of the other lines. */
  lemma {:induction false} OneMoreLine(lines: seq<Line>, l: Line)
    ensures Flat(Groups(lines + [l])) == Flat(Groups(lines)) + if Joins(lines, l) then [l] else []
    ensures Others(lines + [l]) == Others(lines) + if Joins(lines, l) || l.Comment? then [] else [l]
    decreases |lines|
  {
    hide Groups, Others, Continuations, InGroup;
    var all := lines + [l];
    FirstTaken(all);
    if lines == [] {
      OneAlone(l);
      assert all == [l];
    } else if !lines[0].Bullet? {
      FirstTaken(lines);
      OneMoreLine(lines[1..], l);
      assert all[1..] == lines[1..] + [l];
      assert lines == [lines[0]] + lines[1..];
      InGroupAfter(lines[0], lines[1..]);
    } else {
      FirstTaken(lines);
      var more := Continuations(lines[1..]);
      var rest := lines[1 + |more|..];
      if rest == [] {
        assert lines == [lines[0]] + more;
        GroupIsInGroup(lines[0], more);
        LastGroup(lines[0], more, l);
      } else {
        OneMoreLine(rest, l);
        AfterGroup(lines[0], more, rest, l);
      }
    }
  }

  lemma AfterGroup(bullet: Line, more: seq<Line>, rest: seq<Line>, l: Line)
    requires GroupOk(Group(bullet, more)) && rest != [] && StartsNew(rest)
    requires Flat(Groups(rest + [l])) == Flat(Groups(rest)) + if Joins(rest, l) then [l] else []
    requires Others(rest + [l]) == Others(rest) + if Joins(rest, l) || l.Comment? then [] else [l]
    ensures var lines := [bullet] + more + rest;
            && Flat(Groups(lines + [l])) == Flat(Groups(lines)) + (if Joins(lines, l) then [l] else [])
            && Others(lines + [l]) == Others(lines) + if Joins(lines, l) || l.Comment? then [] else [l]
  {
    hide Groups, Others, InGroup, Flat;
    TakenOff(bullet, more, rest);
    TakenOff(bullet, more, rest + [l]);
    Regroup([bullet] + more, rest, [l]);
    InGroupRest([bullet] + more, rest);
    Regroup([bullet] + more, Flat(Groups(rest)), if Joins(rest, l) then [l] else []);
  }

  lemma OneAlone(l: Line)
    ensures Flat(Groups([])) == [] && Others([]) == [] && !InGroup([])
    ensures Flat(Groups([l])) == if l.Bullet? then [l] else []
    ensures Others([l]) == if l.Bullet? || l.Comment? then [] else [l]
  {
    assert [l][1..] == [];
    if l.Bullet? {
      assert Continuations([]) == [];
      assert Groups([l]) == [Group(l, [])];
    }
  }

  lemma TakenOff(bullet: Line, more: seq<Line>, rest: seq<Line>)
    requires GroupOk(Group(bullet, more)) && StartsNew(rest)
    ensures Flat(Groups([bullet] + more + rest)) == [bullet] + more + Flat(Groups(rest))
    ensures Others([bullet] + more + rest) == Others(rest)
  {
    hide Groups, Others;
    GroupsOne(bullet, more, rest);
    OthersOne(bullet, more, rest);
    var gs := [Group(bullet, more)] + Groups(rest);
    assert gs[1..] == Groups(rest);
  }

  lemma LastGroup(bullet: Line, more: seq<Line>, l: Line)
    requires GroupOk(Group(bullet, more)) && InGroup([bullet] + more)
    ensures Flat(Groups([bullet] + more + [l])) == Flat(Groups([bullet] + more)) + if Joins([bullet] + more, l) then [l] else []
    ensures Others([bullet] + more + [l]) == Others([bullet] + more) + if Joins([bullet] + more, l) || l.Comment? then [] else [l]
  {
    hide Groups, Others, InGroup;
    OneAlone(l);
    TakenOff(bullet, more, []);
    assert [bullet] + more + [] == [bullet] + more;
    if IsContinuation(l) {
      TakenOff(bullet, more + [l], []);
      assert [bullet] + (more + [l]) + [] == [bullet] + more + [l];
    } else {
      TakenOff(bullet, more, [l]);
    }
  }

  /** Exactly the bullets and the lines that travel with one go into the groups, in their order, each
      group a bullet with indented lines; exactly the others without comment markers stay. */
  lemma {:induction false} LinesAreTold(lines: seq<Line>)
    ensures Flat(Groups(lines)) == Moving(lines)
    ensures Others(lines) == Staying(lines)
    ensures forall g <- Groups(lines) :: GroupOk(g)
  {
    hide Groups, Others, Travels, InGroup, Flat;
    GroupsAreOk(lines);
    if lines == [] {
      OneAlone(Blank);
    } else {
      var n := |lines| - 1;
      LinesAreTold(lines[..n]);
      OneMoreLine(lines[..n], lines[n]);
      TravelsIff(lines[..n], lines[n]);
      assert lines == lines[..n] + [lines[n]];
    }
  }

  // ---- blank lines ----

  /** Without every blank line that follows a blank line. */
  function Unrepeated(lines: seq<Line>): seq<Line> {
    if lines == [] then []
    else
      var n := |lines| - 1;
      Unrepeated(lines[..n]) + if n > 0 && IsBlank(lines[n - 1]) && IsBlank(lines[n]) then [] else [lines[n]]
  }

  /** Of every run of blank lines exactly the first stays. */
  lemma {:induction false} CollapseDrops(lines: seq<Line>)
    ensures Collapse(lines, false) == Unrepeated(lines)
  {
    if lines != [] {
      hide Collapse, IsBlank;
      var n := |lines| - 1;
      CollapseDrops(lines[..n]);
      CollapseConcat(lines[..n], [lines[n]], false);
      assert lines == lines[..n] + [lines[n]];
      CollapseOne(lines[n], RunAfter(lines[..n], false));
    }
  }

  lemma CollapseOne(l: Line, run: bool)
    ensures Collapse([l], run) == if IsBlank(l) && run then [] else [l]
  {
    assert [l][1..] == [];
  }

  // ---- no line lost, none doubled ----

  function TimesIn(lines: seq<Line>, x: Line): nat {
    multiset(lines)[x]
  }

  /** How often the line stands in the groups. */
  function Weight(gs: seq<Group>, x: Line): nat {
    if gs == [] then 0 else Weight(gs[..|gs| - 1], x) + TimesIn([gs[|gs| - 1].bullet] + gs[|gs| - 1].more, x)
  }

  lemma {:induction false} WeightConcat(a: seq<Group>, b: seq<Group>, x: Line)
    ensures Weight(a + b, x) == Weight(a, x) + Weight(b, x)
  {
    if b == [] {
      assert a + b == a;
    } else {
      hide TimesIn, Weight;
      var n := |b| - 1;
      SplitLast(a, b);
      WeightConcat(a, b[..n], x);
      WeightLast(a + b[..n], b[n], x);
      WeightLast(b[..n], b[n], x);
    }
  }

  lemma WeightLast(gs: seq<Group>, g: Group, x: Line)
    ensures Weight(gs + [g], x) == Weight(gs, x) + TimesIn([g.bullet] + g.more, x)
  {
    hide TimesIn;
    assert (gs + [g])[..|gs|] == gs;
  }

  lemma TimesConcat(a: seq<Line>, b: seq<Line>, x: Line)
    ensures TimesIn(a + b, x) == TimesIn(a, x) + TimesIn(b, x)
  {
  }

  lemma {:induction false} WeightOfSame(a: seq<Group>, b: seq<Group>, x: Line)
    requires multiset(a) == multiset(b)
    ensures Weight(a, x) == Weight(b, x)
  {
    hide Weight, TimesIn;
    if a != [] {
      var n := |a| - 1;
      var rest := TakenOut(a, b, x);
      WeightOfSame(a[..n], rest, x);
    } else {
      assert |multiset(a)| == |a| && |multiset(b)| == |b|;
      assert a == b;
    }
  }

  /** b without one element that is the last of a. */
  lemma TakenOut(a: seq<Group>, b: seq<Group>, x: Line) returns (rest: seq<Group>)
    requires a != [] && multiset(a) == multiset(b)
    ensures multiset(a[..|a| - 1]) == multiset(rest)
    ensures Weight(a, x) - Weight(a[..|a| - 1], x) == Weight(b, x) - Weight(rest, x)
  {
    hide Weight, TimesIn;
    var n := |a| - 1;
    var g := a[n];
    assert a == a[..n] + [g];
    assert g in multiset(b);
    var i :| 0 <= i < |b| && b[i] == g;
    assert b == b[..i] + [g] + b[i + 1..];
    rest := b[..i] + b[i + 1..];
    assert multiset(a[..n]) == multiset(a) - multiset{g};
    assert multiset(rest) == multiset(b) - multiset{g};
    WeightLast(a[..n], g, x);
    assert Weight(a, x) == Weight(a[..n], x) + TimesIn([g.bullet] + g.more, x);
    WeightLast(b[..i], g, x);
    WeightConcat(b[..i], b[i + 1..], x);
    WeightConcat(b[..i] + [g], b[i + 1..], x);
  }

  lemma {:induction false} SolidTimes(lines: seq<Line>, x: Line)
    requires !IsBlank(x)
    ensures TimesIn(Solid(lines), x) == TimesIn(lines, x)
  {
    if lines != [] {
      hide TimesIn, IsBlank;
      SolidTimes(lines[1..], x);
      assert lines == [lines[0]] + lines[1..];
      TimesConcat([lines[0]], lines[1..], x);
      TimesConcat(if IsBlank(lines[0]) then [] else [lines[0]], Solid(lines[1..]), x);
      NoneOf(x);
      Other(lines[0], x);
    } else {
      NoneOf(x);
    }
  }

  lemma NormTimes(g: Group, x: Line)
    requires !IsBlank(x)
    ensures TimesIn([Norm(g).bullet] + Norm(g).more, x) == TimesIn([g.bullet] + g.more, x)
  {
    hide Solid;
    SolidTimes(g.more, x);
  }

  lemma {:induction false} NormsWeigh(gs: seq<Group>, x: Line)
    requires !IsBlank(x)
    ensures Weight(Norms(gs), x) == Weight(gs, x)
  {
    if gs != [] {
      hide TimesIn, IsBlank, Norm;
      var n := |gs| - 1;
      NormsWeigh(gs[..n], x);
      assert Norms(gs)[..n] == Norms(gs[..n]);
      NormTimes(gs[n], x);
    }
  }

  lemma {:induction false} FlatTimes(gs: seq<Group>, x: Line)
    ensures TimesIn(Flat(gs), x) == Weight(gs, x)
  {
    if gs != [] {
      FlatTimes(gs[1..], x);
      assert gs == [gs[0]] + gs[1..];
      WeightConcat([gs[0]], gs[1..], x);
      assert [gs[0]][..0] == [];
    }
  }

  lemma {:induction false} MovingAndStaying(lines: seq<Line>, x: Line)
    requires !x.Comment?
    ensures TimesIn(lines, x) == TimesIn(Moving(lines), x) + TimesIn(Staying(lines), x)
  {
    hide TimesIn, Travels;
    NoneOf(x);
    if lines != [] {
      var n := |lines| - 1;
      MovingAndStaying(lines[..n], x);
      assert lines == lines[..n] + [lines[n]];
      TimesConcat(lines[..n], [lines[n]], x);
      TimesConcat(Moving(lines[..n]), [lines[n]], x);
      TimesConcat(Staying(lines[..n]), [lines[n]], x);
      Other(lines[n], x);
      assert Moving(lines[..n]) + [] == Moving(lines[..n]) && Staying(lines[..n]) + [] == Staying(lines[..n]);
    }
  }

  lemma NoneOf(x: Line)
    ensures TimesIn([], x) == 0
  {
  }

  lemma Other(l: Line, x: Line)
    ensures l != x ==> TimesIn([l], x) == 0
  {
  }

  lemma {:induction false} WithoutHeadingsTimes(lines: seq<Line>, x: Line)
    requires !x.Heading?
    ensures TimesIn(WithoutHeadings(lines), x) == TimesIn(lines, x)
  {
    if lines != [] {
      var n := |lines| - 1;
      WithoutHeadingsTimes(lines[..n], x);
      assert lines == lines[..n] + [lines[n]];
    }
  }

  /** A line of the file itself: not blank, no comment marker, no generated heading. */
  predicate Told(x: Line) {
    !IsBlank(x) && !x.Comment? && !x.Heading? && !x.Break?
  }

  /** A section's lines are those it keeps and those of its groups. */
  lemma ContentTimes(content: seq<Line>, c: char, x: Line)
    requires Told(x)
    ensures TimesIn(content, x) == TimesIn(Solid(Kept(content, c)), x) + Weight(Norms(Groups(content)), x)
  {
    hide Groups, Others, Moving, Staying, Solid, WithoutHeadings, Flat, Norms, Weight, TimesIn;
    LinesAreTold(content);
    MovingAndStaying(content, x);
    FlatTimes(Groups(content), x);
    NormsWeigh(Groups(content), x);
    WithoutHeadingsTimes(Others(content), x);
    SolidTimes(Kept(content, c), x);
  }

  /** How often the line stands among the headers and what the sections keep, a section without a
      letter all its lines. */
  function RestTimes(secs: seq<Section>, x: Line): nat {
    if secs == [] then 0
    else
      var s := secs[|secs| - 1];
      RestTimes(secs[..|secs| - 1], x) + TimesIn([s.header], x)
      + if Lettered(s) then TimesIn(Solid(Kept(s.content, s.header.letter.value)), x) else TimesIn(s.content, x)
  }

  function SectionTimes(secs: seq<Section>, x: Line): nat {
    if secs == [] then 0
    else SectionTimes(secs[..|secs| - 1], x) + TimesIn([secs[|secs| - 1].header], x) + TimesIn(secs[|secs| - 1].content, x)
  }

  lemma {:induction false} RestAndBullets(secs: seq<Section>, x: Line)
    requires Told(x)
    ensures SectionTimes(secs, x) == RestTimes(secs, x) + Weight(Bullets(secs), x)
  {
    if secs != [] {
      hide TimesIn, Norms, Groups, Solid, Kept, Weight, Told;
      var n := |secs| - 1;
      var s := secs[n];
      RestAndBullets(secs[..n], x);
      var more := if Lettered(s) then Norms(Groups(s.content)) else [];
      WeightConcat(Bullets(secs[..n]), more, x);
      if Lettered(s) { ContentTimes(s.content, s.header.letter.value, x); } else { NoWeight(x); }
    } else {
      NoWeight(x);
    }
  }

  lemma NoWeight(x: Line)
    ensures Weight([], x) == 0
  {
  }

  lemma SectionTimesLast(secs: seq<Section>, s: Section, x: Line)
    ensures SectionTimes(secs + [s], x) == SectionTimes(secs, x) + TimesIn([s.header], x) + TimesIn(s.content, x)
  {
    assert (secs + [s])[..|secs|] == secs;
  }

  lemma {:induction false} SectionTimesConcat(a: seq<Section>, b: seq<Section>, x: Line)
    ensures SectionTimes(a + b, x) == SectionTimes(a, x) + SectionTimes(b, x)
  {
    if b == [] {
      assert a + b == a;
    } else {
      hide SectionTimes, TimesIn;
      var n := |b| - 1;
      SplitLast(a, b);
      SectionTimesConcat(a, b[..n], x);
      SectionTimesLast(a + b[..n], b[n], x);
      SectionTimesLast(b[..n], b[n], x);
    }
  }

  /** The file is its preamble and its sections. */
  lemma {:induction false} FileTimes(lines: seq<Line>, x: Line)
    ensures TimesIn(lines, x) == TimesIn(Body(lines), x) + SectionTimes(SectionsOf(lines), x)
  {
    if lines != [] {
      hide SectionTimes;
      FileTimes(lines[1..], x);
      assert lines == [lines[0]] + lines[1..];
      if lines[0].H2? {
        var s := Section(lines[0], Body(lines[1..]));
        SectionTimesConcat([s], SectionsOf(lines[1..]), x);
        SectionTimesLast([], s, x);
        assert [] + [s] == [s];
        NoSectionTimes(x);
      }
    } else {
      NoSectionTimes(x);
    }
  }

  lemma NoSectionTimes(x: Line)
    ensures SectionTimes([], x) == 0
  {
  }

  /** The sections have the same headers and keep the same. */
  predicate SameRest(out: seq<Section>, secs: seq<Section>) {
    |out| == |secs| && forall k | 0 <= k < |secs| :: SameKept(out[k], secs[k])
  }

  predicate SameKept(o: Section, s: Section) {
    && o.header == s.header
    && if Lettered(s) then Solid(Kept(o.content, s.header.letter.value)) == Solid(Kept(s.content, s.header.letter.value))
       else Solid(o.content) == Solid(s.content)
  }

  lemma {:induction false} RestTimesOfSame(out: seq<Section>, secs: seq<Section>, x: Line)
    requires SameRest(out, secs) && !IsBlank(x)
    ensures RestTimes(out, x) == RestTimes(secs, x)
  {
    if secs != [] {
      hide TimesIn, Solid, Kept, IsBlank;
      var n := |secs| - 1;
      RestTimesOfSame(out[..n], secs[..n], x);
      assert SameKept(out[n], secs[n]);
      SolidTimes(out[n].content, x);
      SolidTimes(secs[n].content, x);
    }
  }

  lemma PassKeepsRest(lines: seq<Line>)
    requires Read(lines) && SectionsOf(lines) != [] && DistinctLetters(SectionsOf(lines))
    ensures SameRest(SectionsOf(After(lines)), SectionsOf(lines))
    ensures Body(After(lines)) == Collapse(Body(lines), false)
  {
    hide After, SectionsOf, Solid, Kept, Collapse, Body, Read, DistinctLetters, LastWith;
    var secs, out := SectionsOf(lines), SectionsOf(After(lines));
    RestStays(lines, 0);
    forall k | 0 <= k < |secs| ensures SameKept(out[k], secs[k]) {
      RestStays(lines, k);
      if Lettered(secs[k]) { DistinctIsLast(secs, k); } else { CollapseSolid(secs[k].content, false); }
    }
  }

  /** With distinct letters the file holds after the pass every line as often as before: each bullet,
      each line below one, each header and every other line; only blank lines, comment markers and the
      generated headings may change. */
  lemma NoLineLostOrDoubled(lines: seq<Line>, x: Line)
    requires Read(lines) && SectionsOf(lines) != [] && DistinctLetters(SectionsOf(lines))
    requires Told(x)
    ensures multiset(After(lines))[x] == multiset(lines)[x]
  {
    hide After, SectionsOf, Bullets, Body, Solid, Collapse, RestTimes, SectionTimes, Weight, SameRest, DistinctLetters, Read;
    var secs, out := SectionsOf(lines), SectionsOf(After(lines));
    PassKeepsRest(lines);
    NoBulletLostOrDoubled(lines);
    FileTimes(lines, x);
    FileTimes(After(lines), x);
    RestAndBullets(secs, x);
    RestAndBullets(out, x);
    WeightOfSame(Bullets(out), Bullets(secs), x);
    RestTimesOfSame(out, secs, x);
    CollapseSolid(Body(lines), false);
    SolidTimes(Body(lines), x);
    SolidTimes(Collapse(Body(lines), false), x);
  }

  // ---- each F bullet under its sub-header ----

  /** Read from the top, at being the sub-header passed last (-1 for none): the sub-headers come in
      their order, none twice and none without a bullet right below it, and each bullet's bucket is
      that of the sub-header passed last. */
  predicate UnderHeadings(lines: seq<Line>, at: int) {
    if lines == [] then true
    else if lines[0].Heading? then
      && at < lines[0].which
      && lines[1..] != [] && lines[1].Bullet?
      && UnderHeadings(lines[1..], lines[0].which)
    else (lines[0].Bullet? ==> Rank(lines[0].bucket) == at) && UnderHeadings(lines[1..], at)
  }

  lemma {:induction false} NeitherOfThem(a: seq<Line>, rest: seq<Line>, at: int)
    requires forall l <- a :: !l.Heading? && !l.Bullet?
    ensures UnderHeadings(a + rest, at) <==> UnderHeadings(rest, at)
  {
    if a == [] {
      assert a + rest == rest;
    } else {
      NeitherOfThem(a[1..], rest, at);
      assert (a + rest)[1..] == a[1..] + rest;
    }
  }

  /** The same of bullets that are still to be written. */
  predicate MarkedBy(ms: seq<Marked>, at: int) {
    if ms == [] then true
    else if ms[0].brk.Some? then
      at < ms[0].brk.value == Rank(BucketOf(ms[0].group)) && MarkedBy(ms[1..], ms[0].brk.value)
    else Rank(BucketOf(ms[0].group)) == at && MarkedBy(ms[1..], at)
  }

  predicate StartsMarked(ms: seq<Marked>) {
    ms == [] || ms[0].brk.Some?
  }

  lemma {:induction false} SameMark(gs: seq<Group>, w: nat, rest: seq<Marked>)
    requires RanksWithin(gs, w, w) && MarkedBy(rest, w)
    ensures MarkedBy(Mark(gs, None) + rest, w)
  {
    if gs == [] {
      assert Mark(gs, None) + rest == rest;
    } else {
      hide Rank;
      assert gs[0] in gs;
      SameMark(gs[1..], w, rest);
      assert (Mark(gs, None) + rest)[1..] == Mark(gs[1..], None) + rest;
    }
  }

  /** One bucket more at the front. */
  lemma OneBucketMore(gs: seq<Group>, w: nat, rest: seq<Marked>)
    requires RanksWithin(gs, w, w) && MarkedBy(rest, w) && StartsMarked(rest)
    ensures MarkedBy(Mark(gs, Some(w)) + rest, w - 1) && StartsMarked(Mark(gs, Some(w)) + rest)
  {
    hide Rank, MarkedBy;
    if gs == [] {
      assert Mark(gs, Some(w)) + rest == rest;
      StartsLater(rest, w);
    } else {
      assert gs[0] in gs;
      SameMark(gs[1..], w, rest);
      FirstMarked(gs[0], w, Mark(gs[1..], None) + rest);
      assert Mark(gs, Some(w)) + rest == [Marked(Some(w), gs[0])] + (Mark(gs[1..], None) + rest);
    }
  }

  lemma StartsLater(ms: seq<Marked>, w: nat)
    requires MarkedBy(ms, w) && StartsMarked(ms)
    ensures MarkedBy(ms, w - 1)
  {
  }

  lemma FirstMarked(g: Group, w: nat, rest: seq<Marked>)
    requires Rank(BucketOf(g)) == w && MarkedBy(rest, w)
    ensures MarkedBy([Marked(Some(w), g)] + rest, w - 1)
  {
    hide Rank;
    assert ([Marked(Some(w), g)] + rest)[1..] == rest;
  }

  lemma InBucketsMarked(s: seq<Group>)
    requires Sorted(s)
    ensures MarkedBy(InBuckets(s), -1)
  {
    hide Sort, OfBucket, Sorted, Mark, MarkedBy, StartsMarked, RanksWithin;
    SortedBuckets(s, Arch);
    SortedBuckets(s, Hardening);
    SortedBuckets(s, Polish);
    SortedBuckets(s, Testing);
    SortedBuckets(s, Infra);
    SortedBuckets(s, Untagged);
    BothRanks(OfBucket(s, Testing), OfBucket(s, Infra));
    SortedRanks(OfBucket(s, Arch), 0, 0);
    SortedRanks(OfBucket(s, Hardening), 1, 1);
    SortedRanks(OfBucket(s, Polish), 2, 2);
    SortedRanks(OfBucket(s, Testing) + OfBucket(s, Infra), 3, 3);
    var a, h, p := Mark(Sort(OfBucket(s, Arch)), Some(0)), Mark(Sort(OfBucket(s, Hardening)), Some(1)), Mark(Sort(OfBucket(s, Polish)), Some(2));
    var t, u := Mark(Sort(OfBucket(s, Testing) + OfBucket(s, Infra)), Some(3)), Mark(OfBucket(s, Untagged), Some(4));
    NothingMarked();
    OneBucketMore(OfBucket(s, Untagged), 4, []);
    assert u + [] == u;
    OneBucketMore(Sort(OfBucket(s, Testing) + OfBucket(s, Infra)), 3, u);
    OneBucketMore(Sort(OfBucket(s, Polish)), 2, t + u);
    OneBucketMore(Sort(OfBucket(s, Hardening)), 1, p + (t + u));
    OneBucketMore(Sort(OfBucket(s, Arch)), 0, h + (p + (t + u)));
    assert a + h + p + t + u == a + (h + (p + (t + u)));
  }

  lemma NothingMarked()
    ensures MarkedBy([], 4) && StartsMarked([])
  {
  }

  lemma SubHeader(w: nat, l: Line, rest: seq<Line>, at: int)
    requires at < w && l.Bullet? && Rank(l.bucket) == w && UnderHeadings(rest, w)
    ensures UnderHeadings([Blank, Heading(w)] + ([l] + rest), at)
  {
    hide Rank;
    var all := [Blank, Heading(w)] + ([l] + rest);
    assert all[1..][1..] == [l] + rest && all[1..][0] == Heading(w);
    assert ([l] + rest)[1..] == rest;
    assert UnderHeadings([l] + rest, w);
    assert UnderHeadings(all[1..], at);
  }

  lemma NoSubHeader(l: Line, rest: seq<Line>, at: int)
    requires l.Bullet? && Rank(l.bucket) == at && UnderHeadings(rest, at)
    ensures UnderHeadings([] + ([l] + rest), at)
  {
    hide Rank;
    assert [] + ([l] + rest) == [l] + rest && ([l] + rest)[1..] == rest;
  }

  lemma {:induction false} WrittenUnder(ms: seq<Marked>, run: bool, at: int)
    requires (forall m <- ms :: GroupOk(m.group)) && MarkedBy(ms, at)
    ensures UnderHeadings(Reread(Collapse(Emit(ms), run)), at)
  {
    if ms == [] {
      assert Reread(Collapse([], run)) == [];
    } else {
      hide Collapse, Emit, UnderHeadings, RunAfter, Rank, Norm;
      var m := ms[0];
      var g := m.group;
      var last := RunAfter([g.bullet] + g.more, false);
      var now := if m.brk.Some? then m.brk.value else at;
      WrittenUnder(ms[1..], last, now);
      var rest := Reread(Collapse(Emit(ms[1..]), last));
      var more := Collapse(g.more, false);
      EmitOne(ms, run);
      GroupStays(g, false);
      NeitherOfThem(more, rest, now);
      Regroup([g.bullet], more, rest);
      BreakReadBack(m);
      if m.brk.Some? { SubHeader(now, g.bullet, more + rest, at); } else { NoSubHeader(g.bullet, more + rest, at); }
    }
  }

  lemma BreakReadBack(m: Marked)
    ensures Reread(BreakOf(m)) == if m.brk.Some? then [Blank, Heading(m.brk.value)] else []
  {
    if m.brk.Some? { assert [Break(m.brk.value)][1..] == []; }
  }

  /** In the written F section every bullet stands under the sub-header of its bucket. */
  lemma EachUnderItsHeading(lines: seq<Line>, k: nat)
    requires Read(lines) && k < |SectionsOf(lines)| && IsF(SectionsOf(lines)[k])
    ensures k < |SectionsOf(After(lines))| && UnderHeadings(SectionsOf(After(lines))[k].content, -1)
  {
    hide SectionsOf, RehomeAndSort, Reread, Collapse, Emit, Items, Chosen, Sort, InBuckets, UnderHeadings, MarkedBy, Norms, Ordered, Text;
    var secs := SectionsOf(lines);
    PassKeepsSections(lines);
    SectionsOfOk(lines);
    SectionsOfRead(lines);
    assert secs[k] in secs;
    var text, ms := Text(secs, 'F'), Placed(Items(secs), secs, 'F');
    FTextHasNeither(secs);
    CollapseIs(text, false);
    RereadSame(Collapse(text, false));
    PlacedAreOk(secs, 'F');
    SortSorts(Chosen(Items(secs), secs, 'F'));
    InBucketsMarked(Sort(Chosen(Items(secs), secs, 'F')));
    CollapseConcat(text, Emit(ms), false);
    RereadConcat(Collapse(text, false), Collapse(Emit(ms), RunAfter(text, false)));
    WrittenUnder(ms, RunAfter(text, false), -1);
    NeitherOfThem(Collapse(text, false), Reread(Collapse(Emit(ms), RunAfter(text, false))), -1);
  }

  lemma {:induction false} FTextHasNeither(secs: seq<Section>)
    requires forall s <- secs :: Read(s.content)
    ensures forall l <- Text(secs, 'F') :: !l.Heading? && !l.Bullet? && !l.Break?
  {
    if secs != [] {
      hide Others, WithoutHeadings;
      var n := |secs| - 1;
      assert secs[n] in secs;
      FTextHasNeither(secs[..n]);
      OthersAreKept(secs[n].content);
      WithoutHeadingsHasNone(Others(secs[n].content));
    }
  }

  // ---- comment markers ----

  /** A lettered section holds no comment marker after the pass. */
  lemma NoCommentStays(lines: seq<Line>, k: nat)
    requires Read(lines) && k < |SectionsOf(lines)| && Lettered(SectionsOf(lines)[k])
    ensures k < |SectionsOf(After(lines))| && forall l <- SectionsOf(After(lines))[k].content :: !l.Comment?
  {
    hide SectionsOf, RehomeAndSort, Reread, Collapse, Emit, Items, Chosen, Placed, Norms, Ordered, Text;
    var secs := SectionsOf(lines);
    PassKeepsSections(lines);
    SectionsOfOk(lines);
    assert secs[k] in secs;
    var c := secs[k].header.letter.value;
    var text, ms := Text(secs, c), Placed(Items(secs), secs, c);
    TextHasNoComment(secs, c);
    PlacedAreOk(secs, c);
    EmitHasNoComment(ms);
    CollapseIs(text + Emit(ms), false);
    RereadComments(Collapse(text + Emit(ms), false));
  }

  lemma {:induction false} TextHasNoComment(secs: seq<Section>, c: char)
    ensures forall l <- Text(secs, c) :: !l.Comment?
  {
    if secs != [] {
      hide Others, WithoutHeadings;
      var n := |secs| - 1;
      TextHasNoComment(secs[..n], c);
      OthersAreKept(secs[n].content);
      WithoutHeadingsHasNone(Others(secs[n].content));
    }
  }

  lemma {:induction false} EmitHasNoComment(ms: seq<Marked>)
    requires forall m <- ms :: GroupOk(m.group)
    ensures forall l <- Emit(ms) :: !l.Comment?
  {
    if ms != [] {
      assert ms[0] in ms;
      EmitHasNoComment(ms[1..]);
    }
  }

  lemma {:induction false} RereadComments(lines: seq<Line>)
    requires forall l <- lines :: !l.Comment?
    ensures forall l <- Reread(lines) :: !l.Comment?
  {
    if lines != [] { RereadComments(lines[1..]); }
  }
}
