/** The pass as it runs: index loops that append to lists and fill dictionaries, each proved to compute
    what Todo.RehomeAndSort says. */
module TodoPass {
  import opened BotTypes
  import opened Seqs
  import opened Todo

  // ---- Pass 1: the sections ----

  lemma {:induction false} UpToNext(lines: seq<Line>, n: nat)
    requires n <= |lines| && NoH2(lines[..n]) && (n == |lines| || lines[n].H2?)
    ensures Body(lines) == lines[..n] && SectionsOf(lines) == SectionsOf(lines[n..])
  {
    if n == 0 {
      assert lines[0..] == lines;
    } else {
      assert lines[..n][0] in lines[..n];
      assert lines[1..][..n - 1] == lines[..n][1..] && lines[1..][n - 1..] == lines[n..];
      UpToNext(lines[1..], n - 1);
    }
  }

  /** The indices of the H2 lines. */
  method SectionStarts(lines: seq<Line>) returns (starts: seq<nat>)
    ensures AreStarts(starts, lines)
  {
    starts := [];
    for i := 0 to |lines|
      invariant forall k | 0 <= k < |starts| :: starts[k] < i && lines[starts[k]].H2?
      invariant forall j, k | 0 <= j < k < |starts| :: starts[j] < starts[k]
      invariant forall j | 0 <= j < i && lines[j].H2? :: j in starts
    {
      if lines[i].H2? { starts := starts + [i]; }
    }
  }

  /** No line from one index to another starts a section, and the next one does if there is one. */
  predicate Clear(lines: seq<Line>, from: nat, end: nat) {
    from <= end <= |lines| && (forall j | from <= j < end :: !lines[j].H2?) && (end == |lines| || lines[end].H2?)
  }

  lemma ClearUpTo(lines: seq<Line>, from: nat, end: nat)
    requires Clear(lines, from, end)
    ensures Body(lines[from..]) == lines[from..end] && SectionsOf(lines[from..]) == SectionsOf(lines[end..])
  {
    hide Body, SectionsOf;
    var rest, n := lines[from..], end - from;
    assert forall k | 0 <= k < n :: rest[..n][k] == lines[from + k];
    if end < |lines| { assert rest[n] == lines[end]; }
    UpToNext(rest, n);
    assert rest[..n] == lines[from..end] && rest[n..] == lines[end..];
  }

  lemma HeaderFirst(lines: seq<Line>, from: nat, end: nat)
    requires from < |lines| && lines[from].H2? && Clear(lines, from + 1, end)
    ensures SectionsOf(lines[from..]) == [Section(lines[from], lines[from + 1..end])] + SectionsOf(lines[end..])
  {
    hide Clear;
    ClearUpTo(lines, from + 1, end);
    assert lines[from..][1..] == lines[from + 1..];
  }

  /** Increasing, and just the H2 lines. */
  predicate AreStarts(starts: seq<nat>, lines: seq<Line>) {
    && (forall k | 0 <= k < |starts| :: starts[k] < |lines| && lines[starts[k]].H2?)
    && (forall j, k | 0 <= j < k < |starts| :: starts[j] < starts[k])
    && (forall i | 0 <= i < |lines| && lines[i].H2? :: i in starts)
  }

  function EndOf(starts: seq<nat>, k: nat, lines: seq<Line>): nat {
    if k < |starts| then starts[k] else |lines|
  }

  lemma ClearBetween(starts: seq<nat>, i: nat, lines: seq<Line>)
    requires AreStarts(starts, lines) && i < |starts|
    ensures Clear(lines, starts[i] + 1, EndOf(starts, i + 1, lines))
    ensures Clear(lines, 0, starts[0])
  {
    forall j | 0 <= j < |lines| && lines[j].H2? ensures j <= starts[i] || j >= EndOf(starts, i + 1, lines) {
      var k :| 0 <= k < |starts| && starts[k] == j;
      if k < i { assert starts[k] < starts[i]; }
      if i + 1 < k { assert starts[i + 1] < starts[k]; }
    }
    forall j | 0 <= j < |lines| && lines[j].H2? ensures starts[0] <= j {
      var k :| 0 <= k < |starts| && starts[k] == j;
    }
  }

  method CutSections(lines: seq<Line>) returns (pre: seq<Line>, secs: seq<Section>)
    ensures pre == Body(lines) && secs == SectionsOf(lines)
  {
    hide SectionsOf, Body, Clear, AreStarts;
    var starts := SectionStarts(lines);
    assert lines[0..] == lines && lines[|lines|..] == [];
    assert SectionsOf([]) == [] by { NoSections(); }
    if |starts| == 0 {
      assert Clear(lines, 0, |lines|) by { NoStarts(starts, lines); }
      ClearUpTo(lines, 0, |lines|);
      return lines, [];
    }
    pre := lines[..starts[0]];
    ClearBetween(starts, 0, lines);
    ClearUpTo(lines, 0, starts[0]);
    assert starts[0] < |lines| by { InRange(starts, 0, lines); }
    secs := [];
    var i := 0;
    while i < |starts|
      invariant 0 <= i <= |starts|
      invariant EndOf(starts, i, lines) <= |lines|
      invariant secs + SectionsOf(lines[EndOf(starts, i, lines)..]) == SectionsOf(lines)
    {
      InRange(starts, i, lines);
      if i + 1 < |starts| { InRange(starts, i + 1, lines); }
      ClearBetween(starts, i, lines);
      var from, end := starts[i], if i + 1 < |starts| then starts[i + 1] else |lines|;
      HeaderFirst(lines, from, end);
      assert from + 1 <= end;
      secs := secs + [Section(lines[from], lines[from + 1..end])];
      i := i + 1;
    }
  }

  lemma NoSections()
    ensures SectionsOf([]) == []
  {
  }

  lemma NoStarts(starts: seq<nat>, lines: seq<Line>)
    requires AreStarts(starts, lines) && starts == []
    ensures Clear(lines, 0, |lines|)
  {
  }

  lemma InRange(starts: seq<nat>, i: nat, lines: seq<Line>)
    requires AreStarts(starts, lines) && i < |starts|
    ensures starts[i] < |lines| && lines[starts[i]].H2? && (i + 1 < |starts| ==> starts[i] < starts[i + 1])
  {
  }

  // ---- Pass 2: bullets and other lines ----

  lemma BulletFirst(content: seq<Line>, i: nat, more: seq<Line>)
    requires i < |content| && content[i].Bullet? && more == Continuations(content[i + 1..])
    ensures i + 1 + |more| <= |content|
    ensures Groups(content[i..]) == [Group(content[i], more)] + Groups(content[i + 1 + |more|..])
    ensures Others(content[i..]) == Others(content[i + 1 + |more|..])
  {
    assert content[i..][1..] == content[i + 1..];
    assert content[i..][1 + |more|..] == content[i + 1 + |more|..];
  }

  lemma OtherFirst(content: seq<Line>, i: nat)
    requires i < |content| && !content[i].Bullet?
    ensures Groups(content[i..]) == Groups(content[i + 1..])
    ensures Others(content[i..]) == (if content[i].Comment? then [] else [content[i]]) + Others(content[i + 1..])
  {
    assert content[i..][1..] == content[i + 1..];
  }

  lemma ContinuesOrNot(content: seq<Line>, i: nat)
    requires i <= |content|
    ensures Continuations(content[i..]) == if i < |content| && IsContinuation(content[i])
                                           then [content[i]] + Continuations(content[i + 1..]) else []
  {
    if i < |content| { assert content[i..][1..] == content[i + 1..]; }
  }

  method TakeContinuations(content: seq<Line>, start: nat) returns (more: seq<Line>, i: nat)
    requires start <= |content|
    ensures more == Continuations(content[start..]) && i == start + |more|
  {
    hide Continuations, IsContinuation;
    more, i := [], start;
    while i < |content| && IsContinuation(content[i])
      invariant start <= i <= |content| && i == start + |more|
      invariant more + Continuations(content[i..]) == Continuations(content[start..])
    {
      ContinuesOrNot(content, i);
      Regroup(more, [content[i]], Continuations(content[i + 1..]));
      more := more + [content[i]];
      i := i + 1;
    }
    ContinuesOrNot(content, i);
  }

  method ExtractBulletGroups(content: seq<Line>) returns (groups: seq<Group>, others: seq<Line>)
    ensures groups == Groups(content) && others == Others(content)
  {
    hide Groups, Others, Continuations;
    groups, others := [], [];
    var i := 0;
    assert content[0..] == content && content[|content|..] == [];
    NothingThere();
    while i < |content|
      invariant 0 <= i <= |content|
      invariant groups + Groups(content[i..]) == Groups(content)
      invariant others + Others(content[i..]) == Others(content)
    {
      var line := content[i];
      if line.Bullet? {
        var more, next := TakeContinuations(content, i + 1);
        BulletFirst(content, i, more);
        groups := groups + [Group(line, more)];
        i := next;
      } else {
        OtherFirst(content, i);
        if !line.Comment? { others := others + [line]; }
        i := i + 1;
      }
    }
  }

  lemma NothingThere()
    ensures Groups([]) == [] && Others([]) == []
  {
  }

  method StripHeadings(lines: seq<Line>) returns (out: seq<Line>)
    ensures out == WithoutHeadings(lines)
  {
    out := [];
    for i := 0 to |lines|
      invariant out == WithoutHeadings(lines[..i])
    {
      assert lines[..i + 1][..i] == lines[..i];
      if !lines[i].Heading? { out := out + [lines[i]]; }
    }
    assert lines[..|lines|] == lines;
  }

  /** all_bullet_groups and section_non_bullets. */
  method Collect(secs: seq<Section>) returns (items: seq<Item>, text: map<char, seq<Line>>)
    ensures items == Items(secs)
    ensures forall c :: c in text <==> HasLetter(secs, c)
    ensures forall c <- text :: text[c] == Text(secs, c)
  {
    items, text := [], map[];
    for i := 0 to |secs|
      invariant items == Items(secs[..i])
      invariant forall c :: c in text <==> HasLetter(secs[..i], c)
      invariant forall c <- text :: text[c] == Text(secs[..i], c)
    {
      var s := secs[i];
      assert secs[..i + 1][..i] == secs[..i] && secs[..i + 1] == secs[..i] + [s];
      if Lettered(s) {
        var key := s.header.letter.value;
        var groups, others := ExtractBulletGroups(s.content);
        if key == 'F' { others := StripHeadings(others); }
        text := text[key := others];
        items := TagAll(items, groups, key);
      }
      LettersSoFar(secs, i);
    }
    assert secs[..|secs|] == secs;
  }

  lemma LettersSoFar(secs: seq<Section>, i: nat)
    requires i < |secs|
    ensures forall c :: HasLetter(secs[..i + 1], c) <==>
                          HasLetter(secs[..i], c) || (Lettered(secs[i]) && secs[i].header.letter.value == c)
  {
    assert secs[..i + 1] == secs[..i] + [secs[i]];
    assert secs[i] in secs[..i + 1];
    forall c | HasLetter(secs[..i], c) ensures HasLetter(secs[..i + 1], c) {
      var s :| s in secs[..i] && Lettered(s) && s.header.letter.value == c;
      assert s in secs[..i + 1];
    }
  }

  method TagAll(items: seq<Item>, groups: seq<Group>, key: char) returns (all: seq<Item>)
    ensures all == items + Tagged(groups, key)
  {
    all := items;
    for i := 0 to |groups|
      invariant all == items + Tagged(groups[..i], key)
    {
      assert groups[..i + 1][..i] == groups[..i];
      all := all + [Item(groups[i], key)];
    }
    assert groups[..|groups|] == groups;
  }

  // ---- Passes 3 and 4: each bullet to its letter, and sorted ----

  method Assign(items: seq<Item>, secs: seq<Section>) returns (bullets: map<char, seq<Group>>)
    requires forall it <- items :: HasLetter(secs, it.home)
    ensures forall c :: c in bullets <==> HasLetter(secs, c)
    ensures forall c <- bullets :: bullets[c] == Chosen(items, secs, c)
  {
    bullets := map[];
    for i := 0 to |secs|
      invariant forall c :: c in bullets <==> HasLetter(secs[..i], c)
      invariant forall c <- bullets :: bullets[c] == []
    {
      if Lettered(secs[i]) { bullets := bullets[secs[i].header.letter.value := []]; }
      LettersSoFar(secs, i);
    }
    assert secs[..|secs|] == secs;
    assert forall c <- bullets :: bullets[c] == Chosen(items[..0], secs, c);
    for j := 0 to |items|
      invariant forall c :: c in bullets <==> HasLetter(secs, c)
      invariant forall c <- bullets :: bullets[c] == Chosen(items[..j], secs, c)
    {
      var it := items[j];
      var target := it.home;
      if it.group.bullet.Bullet? && it.group.bullet.id.Some? && it.group.bullet.id.value in bullets {
        target := it.group.bullet.id.value;
      }
      assert target == Target(it, secs);
      assert it in items;
      assert items[..j + 1][..j] == items[..j];
      bullets := bullets[target := bullets[target] + [it.group]];
    }
    assert items[..|items|] == items;
  }

  /** list.sort on each section's bullets; a letter met twice is sorted twice. */
  method SortEach(bullets: map<char, seq<Group>>, secs: seq<Section>) returns (sorted: map<char, seq<Group>>)
    requires forall c :: c in bullets <==> HasLetter(secs, c)
    ensures sorted.Keys == bullets.Keys
    ensures forall c <- bullets :: sorted[c] == Sort(bullets[c])
  {
    hide Sort;
    sorted := bullets;
    for i := 0 to |secs|
      invariant sorted.Keys == bullets.Keys
      invariant forall c <- bullets :: sorted[c] == if HasLetter(secs[..i], c) then Sort(bullets[c]) else bullets[c]
    {
      LettersSoFar(secs, i);
      if Lettered(secs[i]) {
        var key := secs[i].header.letter.value;
        assert secs[i] in secs;
        SortSorts(bullets[key]);
        SortedStays(Sort(bullets[key]));
        sorted := sorted[key := Sort(sorted[key])];
      }
    }
    assert secs[..|secs|] == secs;
  }

  // ---- Pass 5: the file again ----

  /** The lines of one written group. */
  function LinesOf(m: Marked): seq<Line> {
    BreakOf(m) + [m.group.bullet] + m.group.more
  }

  lemma EmitNext(ms: seq<Marked>)
    requires ms != []
    ensures Emit(ms) == LinesOf(ms[0]) + Emit(ms[1..])
  {
  }

  lemma {:induction false} EmitConcat(a: seq<Marked>, b: seq<Marked>)
    ensures Emit(a + b) == Emit(a) + Emit(b)
  {
    if a == [] {
      assert a + b == b;
    } else {
      hide Emit, LinesOf;
      assert (a + b)[1..] == a[1..] + b;
      EmitConcat(a[1..], b);
      EmitNext(a);
      EmitNext(a + b);
    }
  }

  method WriteGroups(out0: seq<Line>, gs: seq<Group>) returns (out: seq<Line>)
    ensures out == out0 + Emit(Mark(gs, None))
  {
    out := out0;
    assert gs[0..] == gs;
    var i := 0;
    while i < |gs|
      invariant 0 <= i <= |gs|
      invariant out + Emit(Mark(gs[i..], None)) == out0 + Emit(Mark(gs, None))
    {
      hide Emit;
      assert gs[i..][0] == gs[i] && gs[i..][1..] == gs[i + 1..];
      EmitFirst(Mark(gs[i..], None));
      assert Mark(gs[i..], None)[1..] == Mark(gs[i + 1..], None);
      out := out + [gs[i].bullet];
      out := out + gs[i].more;
      i := i + 1;
    }
  }

  lemma UnderHeading(gs: seq<Group>, which: nat)
    requires gs != []
    ensures Emit(Mark(gs, Some(which))) == [Break(which)] + Emit(Mark(gs, None))
  {
    assert Mark(gs, Some(which))[1..] == Mark(gs, None)[1..];
  }

  method WriteUnder(out0: seq<Line>, which: nat, gs: seq<Group>) returns (out: seq<Line>)
    ensures out == out0 + Emit(Mark(gs, Some(which)))
  {
    if gs == [] { return out0; }
    UnderHeading(gs, which);
    out := WriteGroups(out0 + [Break(which)], gs);
  }

  /** by_bucket, with the untagged ones under Untagged. */
  method ByBucket(gs: seq<Group>) returns (table: map<Bucket, seq<Group>>)
    ensures forall b :: b in table && table[b] == OfBucket(gs, b)
  {
    table := map[Arch := [], Hardening := [], Polish := [], Testing := [], Infra := [], Untagged := []];
    assert gs[..0] == [];
    forall b: Bucket ensures b in table && table[b] == OfBucket(gs[..0], b) {
      match b case Arch => case Hardening => case Polish => case Testing => case Infra => case Untagged =>
    }
    for i := 0 to |gs|
      invariant forall b :: b in table && table[b] == OfBucket(gs[..i], b)
    {
      assert gs[..i + 1][..i] == gs[..i];
      var b := BucketOf(gs[i]);
      table := table[b := table[b] + [gs[i]]];
    }
    assert gs[..|gs|] == gs;
  }

  /** The bullets under one of the four generated sub-headers. */
  function UnderSubHeader(gs: seq<Group>, which: nat): seq<Group> {
    if which == 0 then OfBucket(gs, Arch)
    else if which == 1 then OfBucket(gs, Hardening)
    else if which == 2 then OfBucket(gs, Polish)
    else OfBucket(gs, Testing) + OfBucket(gs, Infra)
  }

  function FirstBuckets(gs: seq<Group>, n: nat): seq<Marked> {
    if n == 0 then [] else FirstBuckets(gs, n - 1) + Mark(Sort(UnderSubHeader(gs, n - 1)), Some(n - 1))
  }

  lemma AllBuckets(gs: seq<Group>)
    ensures FirstBuckets(gs, 4) + Mark(OfBucket(gs, Untagged), Some(4)) == InBuckets(gs)
  {
    hide Mark, Sort, OfBucket;
    var a := Mark(Sort(OfBucket(gs, Arch)), Some(0));
    assert FirstBuckets(gs, 0) == [];
    assert FirstBuckets(gs, 1) == [] + a == a;
    assert FirstBuckets(gs, 2) == FirstBuckets(gs, 1) + Mark(Sort(OfBucket(gs, Hardening)), Some(1));
    assert FirstBuckets(gs, 3) == FirstBuckets(gs, 2) + Mark(Sort(OfBucket(gs, Polish)), Some(2));
  }

  method WriteBuckets(out0: seq<Line>, gs: seq<Group>) returns (out: seq<Line>)
    ensures out == out0 + Emit(InBuckets(gs))
  {
    hide Emit, Mark, Sort, OfBucket, InBuckets;
    var table := ByBucket(gs);
    out := out0;
    EmitNone();
    for which := 0 to 4
      invariant out == out0 + Emit(FirstBuckets(gs, which))
    {
      var bullets := if which == 3 then table[Testing] + table[Infra]
                     else table[if which == 0 then Arch else if which == 1 then Hardening else Polish];
      EmitConcat(FirstBuckets(gs, which), Mark(Sort(UnderSubHeader(gs, which)), Some(which)));
      out := WriteUnder(out, which, Sort(bullets));
    }
    EmitConcat(FirstBuckets(gs, 4), Mark(OfBucket(gs, Untagged), Some(4)));
    AllBuckets(gs);
    out := WriteUnder(out, 4, table[Untagged]);
  }

  lemma EmitNone()
    ensures Emit([]) == []
  {
  }

  lemma CollapseNothing()
    ensures forall run :: Collapse([], run) == []
  {
  }

  method CollapseBlankLines(lines: seq<Line>) returns (out: seq<Line>)
    ensures out == Collapse(lines, false)
  {
    hide Collapse, IsBlank;
    out := [];
    var blankRun := 0;
    var i := 0;
    assert lines[0..] == lines && lines[|lines|..] == [];
    CollapseNothing();
    while i < |lines|
      invariant 0 <= i <= |lines| && blankRun >= 0
      invariant out + Collapse(lines[i..], blankRun > 0) == Collapse(lines, false)
    {
      assert lines[i..] == [lines[i]] + lines[i + 1..];
      CollapseFirst(lines[i], lines[i + 1..], blankRun > 0);
      if IsBlank(lines[i]) {
        blankRun := blankRun + 1;
        if blankRun <= 1 { out := out + [lines[i]]; }
      } else {
        blankRun := 0;
        out := out + [lines[i]];
      }
      i := i + 1;
    }
  }

  /** One section of the rebuilt file. */
  method WriteSection(out0: seq<Line>, s: Section, text: map<char, seq<Line>>, bullets: map<char, seq<Group>>,
                      ghost secs: seq<Section>) returns (out: seq<Line>)
    requires s in secs
    requires forall c :: c in text <==> HasLetter(secs, c)
    requires forall c :: c in bullets <==> HasLetter(secs, c)
    requires forall c <- text :: text[c] == Text(secs, c)
    requires forall c <- bullets :: bullets[c] == Sort(Chosen(Items(secs), secs, c))
    ensures out == out0 + [s.header] + NewContent(s, secs)
  {
    hide Items, Text, Chosen, Sort, InBuckets, Mark, Emit;
    out := out0 + [s.header];
    if Lettered(s) {
      var key := s.header.letter.value;
      assert HasLetter(secs, key);
      out := out + text[key];
      if key == 'F' {
        out := WriteBuckets(out, bullets[key]);
      } else {
        out := WriteGroups(out, bullets[key]);
      }
    } else {
      out := out + s.content;
    }
  }

  lemma RebuiltNext(some: seq<Section>, s: Section, secs: seq<Section>)
    ensures Rebuilt(some + [s], secs) == Rebuilt(some, secs) + [s.header] + NewContent(s, secs)
  {
    hide NewContent;
    assert (some + [s])[..|some|] == some;
  }

  /** rehome_and_sort. */
  method Run(lines: seq<Line>) returns (out: seq<Line>)
    ensures out == RehomeAndSort(lines)
  {
    hide Items, Text, Chosen, Sort, Collapse, NewContent, SectionsOf, Body, HasLetter, Rebuilt;
    var pre, secs := CutSections(lines);
    if |secs| == 0 { return lines; }
    var items, text := Collect(secs);
    ItemsAreOk(secs);
    var bullets := Assign(items, secs);
    bullets := SortEach(bullets, secs);
    var result := pre;
    NothingRebuilt(secs);
    assert secs[..0] == [];
    for i := 0 to |secs|
      invariant result == pre + Rebuilt(secs[..i], secs)
    {
      assert secs[..i + 1] == secs[..i] + [secs[i]];
      RebuiltNext(secs[..i], secs[i], secs);
      result := WriteSection(result, secs[i], text, bullets, secs);
    }
    assert secs[..|secs|] == secs;
    out := CollapseBlankLines(result);
  }

  lemma NothingRebuilt(secs: seq<Section>)
    ensures Rebuilt([], secs) == []
  {
  }
}
