/** When running the TODO pass again changes nothing: bin/sync-todo-index.py calls itself
    idempotent. */
module TodoTwice {
  import opened BotTypes
  import opened Seqs
  import opened Todo
  import opened TodoTheorems

  // ---- collapsing again ----

  lemma {:induction false} CollapseTwice(lines: seq<Line>, run: bool)
    ensures Collapse(Collapse(lines, run), run) == Collapse(lines, run)
    ensures RunAfter(Collapse(lines, run), run) == RunAfter(lines, run)
  {
    if lines == [] {
      CollapseNothing(run);
    } else {
      hide Collapse, IsBlank;
      var l := lines[0];
      var rest := Collapse(lines[1..], IsBlank(l));
      CollapseTwice(lines[1..], IsBlank(l));
      SplitFirst(lines, []);
      CollapseFirst(l, lines[1..], run);
      CollapseFirst(l, rest, run);
      RunAfterFirst(l, lines[1..], run);
      if IsBlank(l) && run { assert [] + rest == rest; } else { RunAfterFirst(l, rest, run); }
    }
  }

  lemma CollapseNothing(run: bool)
    ensures Collapse([], run) == []
  {
  }

  lemma RunAfterFirst(l: Line, rest: seq<Line>, run: bool)
    ensures RunAfter([l] + rest, run) == RunAfter(rest, IsBlank(l))
  {
  }

  // ---- groups as they were written ----

  lemma {:induction false} ShrunkInsert(gs: seq<Group>, g: Group)
    ensures Shrunk(Insert(gs, g)) == Insert(Shrunk(gs), Shrink(g))
  {
    hide KeyLe, Collapse;
    if gs == [] {
      assert Shrunk([g]) == [Shrink(g)];
    } else {
      var n := |gs| - 1;
      assert Shrunk(gs)[..n] == Shrunk(gs[..n]);
      if !KeyLe(KeyOf(gs[n]), KeyOf(g)) { ShrunkInsert(gs[..n], g); }
      assert Shrunk(gs + [g]) == Shrunk(gs) + [Shrink(g)];
      assert Shrunk(Insert(gs[..n], g) + [gs[n]]) == Shrunk(Insert(gs[..n], g)) + [Shrink(gs[n])];
    }
  }

  lemma {:induction false} ShrunkSort(gs: seq<Group>)
    ensures Shrunk(Sort(gs)) == Sort(Shrunk(gs))
  {
    hide Collapse;
    if gs != [] {
      var n := |gs| - 1;
      ShrunkSort(gs[..n]);
      ShrunkInsert(Sort(gs[..n]), gs[n]);
      assert Shrunk(gs)[..n] == Shrunk(gs[..n]);
    }
  }

  lemma {:induction false} ShrunkOfBucket(gs: seq<Group>, b: Bucket)
    ensures Shrunk(OfBucket(gs, b)) == OfBucket(Shrunk(gs), b)
  {
    hide Collapse;
    if gs != [] {
      var n := |gs| - 1;
      ShrunkOfBucket(gs[..n], b);
      assert Shrunk(gs)[..n] == Shrunk(gs[..n]);
      if BucketOf(gs[n]) == b { assert Shrunk(OfBucket(gs[..n], b) + [gs[n]]) == Shrunk(OfBucket(gs[..n], b)) + [Shrink(gs[n])]; }
      assert OfBucket(gs[..n], b) + [] == OfBucket(gs[..n], b);
      assert OfBucket(Shrunk(gs[..n]), b) + [] == OfBucket(Shrunk(gs[..n]), b);
    }
  }

  lemma ShrunkConcat(a: seq<Group>, b: seq<Group>)
    ensures Shrunk(a + b) == Shrunk(a) + Shrunk(b)
  {
  }

  function ShrunkMarks(ms: seq<Marked>): (ss: seq<Marked>)
    ensures |ss| == |ms| && forall k | 0 <= k < |ms| :: ss[k] == Marked(ms[k].brk, Shrink(ms[k].group))
  {
    seq(|ms|, k requires 0 <= k < |ms| => Marked(ms[k].brk, Shrink(ms[k].group)))
  }

  lemma {:induction false} ShrunkMark(gs: seq<Group>, which: Option<nat>)
    ensures Mark(Shrunk(gs), which) == ShrunkMarks(Mark(gs, which))
  {
    hide Collapse;
    if gs != [] {
      ShrunkMark(gs[1..], None);
      assert Shrunk(gs)[1..] == Shrunk(gs[1..]);
      assert Mark(gs, which) == [Marked(which, gs[0])] + Mark(gs[1..], None);
    }
  }

  lemma MarksConcat(a: seq<Marked>, b: seq<Marked>)
    ensures ShrunkMarks(a + b) == ShrunkMarks(a) + ShrunkMarks(b)
  {
  }

  /** With the same groups in every bucket up to shrinking, the F section is written alike. */
  lemma ShrunkInBuckets(s: seq<Group>, t: seq<Group>)
    requires forall b :: OfBucket(t, b) == Shrunk(OfBucket(s, b))
    ensures InBuckets(t) == ShrunkMarks(InBuckets(s))
  {
    hide Sort, OfBucket, Mark, Shrunk, ShrunkMarks;
    var a, h, p := Sort(OfBucket(s, Arch)), Sort(OfBucket(s, Hardening)), Sort(OfBucket(s, Polish));
    var d, u := Sort(OfBucket(s, Testing) + OfBucket(s, Infra)), OfBucket(s, Untagged);
    ShrunkSort(OfBucket(s, Arch));
    ShrunkSort(OfBucket(s, Hardening));
    ShrunkSort(OfBucket(s, Polish));
    ShrunkSort(OfBucket(s, Testing) + OfBucket(s, Infra));
    ShrunkConcat(OfBucket(s, Testing), OfBucket(s, Infra));
    ShrunkMark(a, Some(0));
    ShrunkMark(h, Some(1));
    ShrunkMark(p, Some(2));
    ShrunkMark(d, Some(3));
    ShrunkMark(u, Some(4));
    MarksConcat(Mark(a, Some(0)), Mark(h, Some(1)));
    MarksConcat(Mark(a, Some(0)) + Mark(h, Some(1)), Mark(p, Some(2)));
    MarksConcat(Mark(a, Some(0)) + Mark(h, Some(1)) + Mark(p, Some(2)), Mark(d, Some(3)));
    MarksConcat(Mark(a, Some(0)) + Mark(h, Some(1)) + Mark(p, Some(2)) + Mark(d, Some(3)), Mark(u, Some(4)));
  }

  /** How a section's bullets are marked. */
  function MarksOf(gs: seq<Group>, c: char): seq<Marked> {
    if c == 'F' then InBuckets(Sort(gs)) else Mark(Sort(gs), None)
  }

  /** The groups as written, placed again, get the same places and marks. */
  lemma PlacedTwice(gs: seq<Group>, c: char)
    ensures MarksOf(Shrunk(Ordered(gs, c)), c) == ShrunkMarks(MarksOf(gs, c))
  {
    hide Collapse, Insert, OfBucket, Mark, InBuckets, BucketOrder, Sort, Shrunk, ShrunkMarks, Sorted;
    var s := Sort(gs);
    SortSorts(gs);
    ShrunkSort(Ordered(gs, c));
    if c == 'F' {
      forall b ensures OfBucket(Shrunk(Sort(BucketOrder(s))), b) == Shrunk(OfBucket(s, b)) {
        BucketsStay(s, b);
        ShrunkOfBucket(Sort(BucketOrder(s)), b);
      }
      ShrunkInBuckets(s, Shrunk(Sort(BucketOrder(s))));
    } else {
      SortedStays(s);
      ShrunkMark(s, None);
    }
  }

  // ---- the bullets are written alike ----

  /** The written bullets, read back. */
  function Tail(ms: seq<Marked>): seq<Line> {
    Reread(Collapse(Emit(ms), false))
  }

  predicate MarksOk(ms: seq<Marked>) {
    forall m <- ms :: GroupOk(m.group)
  }

  lemma TailAfterAny(ms: seq<Marked>, run: bool)
    requires MarksOk(ms)
    ensures Collapse(Emit(ms), run) == Collapse(Emit(ms), false)
  {
    if ms != [] {
      EmitFirst(ms);
      assert GroupOk(ms[0].group);
      assert !IsBlank(Emit(ms)[0]);
    }
  }

  lemma {:induction false} TailTwice(ms: seq<Marked>)
    requires MarksOk(ms)
    ensures MarksOk(ShrunkMarks(ms)) && Tail(ShrunkMarks(ms)) == Tail(ms)
  {
    hide Reread, Emit;
    ShrunkOk(ms);
    if ms == [] {
      assert ShrunkMarks(ms) == ms;
    } else {
      var g, ss := ms[0].group, ShrunkMarks(ms);
      assert ss[0].group == Shrink(g) && BreakOf(ss[0]) == BreakOf(ms[0]) && ss[1..] == ShrunkMarks(ms[1..]);
      assert MarksOk(ms[1..]) && MarksOk(ss[1..]);
      TailTwice(ms[1..]);
      CollapseTwice(g.more, false);
      EmitOne(ms, false);
      EmitOne(ss, false);
      TailAfterAny(ms[1..], RunAfter([g.bullet] + g.more, false));
      TailAfterAny(ss[1..], RunAfter([g.bullet] + Shrink(g).more, false));
    }
  }

  lemma ShrunkOk(ms: seq<Marked>)
    requires MarksOk(ms)
    ensures MarksOk(ShrunkMarks(ms))
  {
    forall m <- ShrunkMarks(ms) ensures GroupOk(m.group) {
      var k :| 0 <= k < |ms| && ShrunkMarks(ms)[k] == m;
      assert ms[k] in ms;
      CollapseIs(ms[k].group.more, false);
    }
  }

  // ---- the other lines ----

  predicate AllBlank(lines: seq<Line>) {
    forall l <- lines :: l == Blank
  }

  /** What the written sub-headers leave among the kept lines: one empty line each. */
  lemma {:induction false} BlanksLeft(ms: seq<Marked>)
    ensures AllBlank(WithoutHeadings(Breaks(ms)))
    ensures ms != [] && ms[0].brk.Some? ==> WithoutHeadings(Breaks(ms)) != []
    ensures ms == [] ==> WithoutHeadings(Breaks(ms)) == []
  {
    hide WithoutHeadings, Reread;
    if ms != [] {
      BlanksLeft(ms[1..]);
      WithoutHeadingsConcat(Reread(BreakOf(ms[0])), Breaks(ms[1..]));
      BlankOfBreak(ms[0]);
    } else {
      NoHeadings();
    }
  }

  lemma BlankOfBreak(m: Marked)
    ensures WithoutHeadings(Reread(BreakOf(m))) == if m.brk.Some? then [Blank] else []
  {
    if m.brk.Some? {
      var two := [Blank, Heading(m.brk.value)];
      assert Reread(BreakOf(m)) == two;
      assert two[..1] == [Blank] && [Blank][..0] == [];
      assert WithoutHeadings([Blank]) == [Blank];
    }
  }

  lemma {:induction false} CollapseBlanks(lines: seq<Line>, run: bool)
    requires AllBlank(lines)
    ensures Collapse(lines, run) == if lines == [] || run then [] else [Blank]
  {
    if lines != [] {
      assert lines[0] in lines;
      forall l <- lines[1..] ensures l == Blank { assert l in lines; }
      CollapseBlanks(lines[1..], true);
    }
  }

  lemma MarkedFirst(gs: seq<Group>, which: nat)
    ensures Mark(gs, Some(which)) != [] ==> Mark(gs, Some(which))[0].brk.Some?
  {
  }

  /** Wherever the F section has a bullet, the first one stands under a sub-header. */
  lemma FirstIsMarked(gs: seq<Group>)
    ensures InBuckets(gs) != [] ==> InBuckets(gs)[0].brk.Some?
  {
    hide Mark, Sort, OfBucket;
    MarkedFirst(Sort(OfBucket(gs, Arch)), 0);
    MarkedFirst(Sort(OfBucket(gs, Hardening)), 1);
    MarkedFirst(Sort(OfBucket(gs, Polish)), 2);
    MarkedFirst(Sort(OfBucket(gs, Testing) + OfBucket(gs, Infra)), 3);
    MarkedFirst(OfBucket(gs, Untagged), 4);
  }

  // ---- one lettered section, written twice ----

  /** Text without comment markers, generated headings of F and bullets, as a section keeps it. */
  predicate KeptText(text: seq<Line>, c: char) {
    forall l <- text :: !l.Bullet? && !l.Comment? && !l.Break? && (c == 'F' ==> !l.Heading?)
  }

  function WrittenTwo(text: seq<Line>, ms: seq<Marked>): seq<Line> {
    Written(text + Emit(ms))
  }

  lemma WrittenParts(text: seq<Line>, ms: seq<Marked>, c: char)
    requires KeptText(text, c) && MarksOk(ms)
    ensures WrittenTwo(text, ms) == Collapse(text, false) + Tail(ms)
    ensures Groups(WrittenTwo(text, ms)) == Shrunk(Unmarked(ms))
    ensures Others(WrittenTwo(text, ms)) == Collapse(text, false) + Breaks(ms)
    ensures KeptText(Collapse(text, false), c)
  {
    hide Collapse, Reread, Emit, Groups, Others, Breaks;
    var short := Collapse(text, false);
    CollapseIs(text, false);
    RereadSame(short);
    CollapseConcat(text, Emit(ms), false);
    RereadConcat(short, Collapse(Emit(ms), RunAfter(text, false)));
    TailAfterAny(ms, RunAfter(text, false));
    EmittedShrunk(ms, false);
    EmittedOthers(ms, false);
    GroupsSkip(short, Tail(ms));
    OthersSkip(short, Tail(ms));
  }

  /** A section's text and bullets, once written and read again, are written the same the second time,
      but for F when it has bullets and its text does not end in a blank line. */
  lemma SectionTwiceIff(text: seq<Line>, gs: seq<Group>, c: char)
    requires KeptText(text, c) && forall g <- gs :: GroupOk(g)
    ensures var once := WrittenTwo(text, MarksOf(gs, c));
            WrittenTwo(Kept(once, c), MarksOf(Groups(once), c)) == once
            <==> (c == 'F' ==> gs == [] || RunAfter(text, false))
  {
    hide Written, Collapse, Groups, Others, MarksOf, Ordered, Tail, Breaks, WithoutHeadings, WrittenTwo, InBuckets, Sort, Shrunk;
    var ms := MarksOf(gs, c);
    MarksAre(gs, c);
    WrittenParts(text, ms, c);
    var once, short := WrittenTwo(text, ms), Collapse(text, false);
    PlacedTwice(gs, c);
    TailTwice(ms);
    var again := MarksOf(Groups(once), c);
    assert again == ShrunkMarks(ms);
    KeptAgain(text, ms, gs, c);
    CollapseTwice(text, false);
    if c == 'F' {
      var blanks := WithoutHeadings(Breaks(ms));
      BlanksLeft(ms);
      KeptWithBlanks(short, blanks);
      WrittenParts(short + blanks, again, c);
      CollapseConcat(short, blanks, false);
      CollapseBlanks(blanks, RunAfter(short, false));
      if blanks == [] || RunAfter(text, false) {
        assert short + [] + Tail(ms) == short + Tail(ms);
      } else {
        assert |short + [Blank] + Tail(ms)| == |short + Tail(ms)| + 1;
      }
    } else {
      assert short + [] == short;
      WrittenParts(short, again, c);
    }
  }

  lemma KeptWithBlanks(text: seq<Line>, blanks: seq<Line>)
    requires KeptText(text, 'F') && AllBlank(blanks)
    ensures KeptText(text + blanks, 'F')
  {
  }

  lemma MarksAre(gs: seq<Group>, c: char)
    requires forall g <- gs :: GroupOk(g)
    ensures Unmarked(MarksOf(gs, c)) == Ordered(gs, c) && MarksOk(MarksOf(gs, c))
    ensures c == 'F' ==> (gs != [] <==> MarksOf(gs, c) != [] && MarksOf(gs, c)[0].brk.Some?)
    ensures c != 'F' ==> forall m <- MarksOf(gs, c) :: m.brk.None?
    ensures MarksOf(gs, c) == [] <==> gs == []
  {
    hide Mark, Sort, BucketOrder, InBuckets;
    InBucketsIs(Sort(gs));
    MarkIs(Sort(gs), None);
    MarkNone(Sort(gs));
    FirstIsMarked(Sort(gs));
    OrderedIsAll(gs, c);
    var ms := MarksOf(gs, c);
    assert |ms| == |Ordered(gs, c)| == |multiset(Ordered(gs, c))| == |multiset(gs)| == |gs|;
    forall m <- ms ensures GroupOk(m.group) {
      var k :| 0 <= k < |ms| && ms[k] == m;
      assert m.group == Ordered(gs, c)[k];
      assert m.group in multiset(Ordered(gs, c));
    }
  }

  lemma KeptAgain(text: seq<Line>, ms: seq<Marked>, gs: seq<Group>, c: char)
    requires KeptText(text, c) && MarksOk(ms) && (c != 'F' ==> forall m <- ms :: m.brk.None?)
    ensures Kept(WrittenTwo(text, ms), c)
         == Collapse(text, false) + if c == 'F' then WithoutHeadings(Breaks(ms)) else []
  {
    hide Collapse, Groups, Others, Breaks, WithoutHeadings, WrittenTwo;
    WrittenParts(text, ms, c);
    BreaksAreBlank(ms);
    var short := Collapse(text, false);
    if c == 'F' {
      WithoutHeadingsConcat(short, Breaks(ms));
      WithoutHeadingsStays(short);
    }
  }

  // ---- the whole file ----

  function Flatten(secs: seq<Section>): seq<Line> {
    if secs == [] then [] else [secs[0].header] + secs[0].content + Flatten(secs[1..])
  }

  lemma FlattenFirst(s: Section, rest: seq<Section>)
    ensures Flatten([s] + rest) == ([s.header] + s.content) + Flatten(rest)
  {
    assert ([s] + rest)[1..] == rest;
  }

  /** A file is its preamble and its sections. */
  lemma {:induction false} FileIs(lines: seq<Line>)
    ensures lines == Body(lines) + Flatten(SectionsOf(lines))
  {
    if lines != [] {
      var rest := lines[1..];
      FileIs(rest);
      hide Flatten;
      SplitFirst(lines, []);
      Regroup([lines[0]], Body(rest), Flatten(SectionsOf(rest)));
      if lines[0].H2? { FlattenFirst(Section(lines[0], Body(rest)), SectionsOf(rest)); }
    }
  }

  lemma {:induction false} RereadIsRead(lines: seq<Line>)
    ensures Read(Reread(lines))
  {
    if lines != [] { RereadIsRead(lines[1..]); }
  }

  /** The pass on the lettered section k: its text and its bullets. */
  lemma SectionWritten(secs: seq<Section>, k: nat)
    requires SectionsOk(secs) && DistinctLetters(secs) && k < |secs| && Lettered(secs[k]) && Read(secs[k].content)
    ensures var c := secs[k].header.letter.value;
            && Text(secs, c) == Kept(secs[k].content, c) && KeptText(Text(secs, c), c)
            && (forall g <- Chosen(Items(secs), secs, c) :: GroupOk(g))
            && Written(NewContent(secs[k], secs)) == WrittenTwo(Text(secs, c), MarksOf(Chosen(Items(secs), secs, c), c))
  {
    hide Written, Others, Emit, Items, Chosen, Text, Kept, Sort, InBuckets, Mark, WithoutHeadings;
    var c := secs[k].header.letter.value;
    assert secs[k] in secs;
    DistinctIsLast(secs, k);
    TextOfLast(secs, k, c);
    KeptIs(secs[k].content, c);
    ItemsAreOk(secs);
    ChosenIs(Items(secs), secs, c);
    forall g <- Chosen(Items(secs), secs, c) ensures GroupOk(g) {
      var it :| it in Items(secs) && it.group == g;
      assert g in [it.group];
    }
  }

  predicate IsF(s: Section) {
    Lettered(s) && s.header.letter.value == 'F'
  }

  /** Section k, after the pass and after another. */
  lemma SectionsTwiceIff(lines: seq<Line>, k: nat)
    requires Read(lines) && DistinctLetters(SectionsOf(lines)) && k < |SectionsOf(lines)|
    ensures var secs, out, again := SectionsOf(lines), SectionsOf(After(lines)), SectionsOf(After(After(lines)));
            && |again| == |out| == |secs|
            && (again[k] == out[k] <==>
                  (IsF(secs[k]) ==>
                     Chosen(Items(secs), secs, 'F') == [] || RunAfter(Text(secs, 'F'), false)))
  {
    hide RehomeAndSort, Reread, Collapse, SectionsOf, Items, Chosen, Text, Kept, Written, WrittenTwo, MarksOf, NewContent, Groups, Norms, Ordered, Body;
    var secs, out, again := SectionsOf(lines), SectionsOf(After(lines)), SectionsOf(After(After(lines)));
    PassKeepsSections(lines);
    PassKeepsSections(After(lines));
    PassRehomes(lines);
    SameLetters(secs, out);
    SectionsOfOk(lines);
    SectionsOfOk(After(lines));
    SectionsOfRead(lines);
    RereadIsRead(RehomeAndSort(lines));
    SectionsOfRead(After(lines));
    assert secs[k] in secs && out[k] in out;
    assert out[k] == NewSection(secs[k], secs) && again[k] == NewSection(out[k], out);
    if Lettered(secs[k]) {
      var c := secs[k].header.letter.value;
      SectionWritten(secs, k);
      SectionWritten(out, k);
      AllAtHome(lines);
      ChosenAtHome(out, k, out);
      SectionTwiceIff(Text(secs, c), Chosen(Items(secs), secs, c), c);
    } else {
      UnletteredTwice(secs[k], secs, out);
    }
  }

  lemma UnletteredTwice(s: Section, secs: seq<Section>, out: seq<Section>)
    requires !Lettered(s) && Read(s.content)
    ensures NewSection(NewSection(s, secs), out) == NewSection(s, secs)
  {
    hide Collapse, Reread;
    var once := Collapse(s.content, false);
    CollapseIs(s.content, false);
    CollapseTwice(s.content, false);
    RereadSame(once);
  }

  lemma NoSectionsStay(lines: seq<Line>)
    requires Read(lines) && SectionsOf(lines) == []
    ensures After(lines) == lines && !HasLetter(SectionsOf(lines), 'F')
  {
    hide SectionsOf;
    RereadSame(lines);
  }

  lemma SameBodies(lines: seq<Line>)
    requires Read(lines) && SectionsOf(lines) != [] && SectionsOf(After(lines)) != []
    ensures Body(After(After(lines))) == Body(After(lines))
  {
    hide RehomeAndSort, Reread, Collapse, SectionsOf, Body, After;
    RestStays(lines, 0);
    AfterIsRead(lines);
    RestStays(After(lines), 0);
    CollapseTwice(Body(lines), false);
  }

  lemma AfterIsRead(lines: seq<Line>)
    ensures Read(After(lines))
  {
    hide RehomeAndSort, Reread;
    RereadIsRead(RehomeAndSort(lines));
  }

  /** Section F gets no bullet, or its text ends in a blank line. */
  predicate FSettled(secs: seq<Section>) {
    HasLetter(secs, 'F') ==> Chosen(Items(secs), secs, 'F') == [] || RunAfter(Text(secs, 'F'), false)
  }

  /** With distinct letters, running the pass again changes nothing if and only if section F gets no
      bullet, or its text ends in a blank line. */
  lemma SecondPassIsIdentityIff(lines: seq<Line>)
    requires Read(lines) && DistinctLetters(SectionsOf(lines))
    ensures After(After(lines)) == After(lines) <==> FSettled(SectionsOf(lines))
  {
    hide Items, Chosen, Text, Body, Flatten, After, SectionsOf, DistinctLetters;
    var secs := SectionsOf(lines);
    if secs == [] {
      NoSectionsStay(lines);
    } else {
      SectionsTwiceIff(lines, 0);
      var out, again := SectionsOf(After(lines)), SectionsOf(After(After(lines)));
      forall k | 0 <= k < |secs| ensures again[k] == out[k] <==> (IsF(secs[k]) ==> FSettled(secs)) {
        SectionsTwiceIff(lines, k);
        if IsF(secs[k]) { assert secs[k] in secs; }
      }
      SameBodies(lines);
      FileIs(After(lines));
      FileIs(After(After(lines)));
      if !FSettled(secs) {
        var s :| s in secs && Lettered(s) && s.header.letter.value == 'F';
        var k :| 0 <= k < |secs| && secs[k] == s;
        assert again[k] != out[k];
      } else {
        assert again == out;
      }
    }
  }
}
