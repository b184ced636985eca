/** The re-homing and sorting pass over TODO.md as a function of the file's lines:
    bin/sync-todo-index.py `rehome_and_sort`, `sort_key` and `_collapse_blank_lines`; and what the
    written file holds when it is read again. */
module Todo {
  import opened BotTypes
  import opened Seqs

  /** What sort_key makes of an item ID: A14b is ("A", 14, "b"). */
  datatype Key = Key(prefix: string, number: nat, suffix: string)

  /** The bucket tag of an F item. */
  datatype Bucket = Arch | Hardening | Polish | Testing | Infra | Untagged

  /** A line, as the pass tells lines apart.  Break is the generated sub-header as it is written: an
      empty line and the heading in one string. */
  datatype Line =
    | H2(letter: Option<char>, text: string)          // "## X - ...", or any other H2 (the Deferred one too)
    | Bullet(id: Option<char>, key: Key, bucket: Bucket, text: string)
    | Indented(text: string)
    | IndentedBlank(text: string)
    | Blank
    | Comment(text: string)
    | Heading(which: nat)
    | Plain(text: string)
    | Break(which: nat)

  predicate IsBlank(l: Line) {
    l.Blank? || l.IndentedBlank?
  }

  predicate IsContinuation(l: Line) {
    l.Indented? || l.IndentedBlank?
  }

  /** A bullet with the indented lines that travel with it. */
  datatype Group = Group(bullet: Line, more: seq<Line>)

  datatype Section = Section(header: Line, content: seq<Line>)

  // ---- sort_key's order ----

  /** Strings in character order. */
  predicate StringLe(a: string, b: string) {
    a == [] || (b != [] && (a[0] < b[0] || (a[0] == b[0] && StringLe(a[1..], b[1..]))))
  }

  lemma {:induction false} StringLeTotal(a: string, b: string)
    ensures StringLe(a, b) || StringLe(b, a)
    ensures StringLe(a, b) && StringLe(b, a) ==> a == b
    decreases |a|
  {
    if a != [] && b != [] && a[0] == b[0] {
      StringLeTotal(a[1..], b[1..]);
      assert a == [a[0]] + a[1..] && b == [b[0]] + b[1..];
    }
  }

  lemma {:induction false} StringLeTransitive(a: string, b: string, c: string)
    requires StringLe(a, b) && StringLe(b, c)
    ensures StringLe(a, c)
    decreases |a|
  {
    if a != [] && a[0] == b[0] && b[0] == c[0] { StringLeTransitive(a[1..], b[1..], c[1..]); }
  }

  predicate KeyLe(a: Key, b: Key) {
    if a.prefix != b.prefix then StringLe(a.prefix, b.prefix)
    else if a.number != b.number then a.number < b.number
    else StringLe(a.suffix, b.suffix)
  }

  lemma KeyLeTotal(a: Key, b: Key)
    ensures KeyLe(a, b) || KeyLe(b, a)
    ensures KeyLe(a, b) && KeyLe(b, a) ==> a == b
  {
    StringLeTotal(a.prefix, b.prefix);
    StringLeTotal(a.suffix, b.suffix);
  }

  lemma KeyLeTransitive(a: Key, b: Key, c: Key)
    requires KeyLe(a, b) && KeyLe(b, c)
    ensures KeyLe(a, c)
  {
    if a.prefix == b.prefix == c.prefix {
      if a.number == b.number == c.number { StringLeTransitive(a.suffix, b.suffix, c.suffix); }
    } else {
      StringLeTotal(a.prefix, b.prefix);
      StringLeTotal(b.prefix, c.prefix);
      if a.prefix != b.prefix && b.prefix != c.prefix {
        StringLeTransitive(a.prefix, b.prefix, c.prefix);
        StringLeTotal(a.prefix, c.prefix);
      }
    }
  }

  function KeyOf(g: Group): Key {
    if g.bullet.Bullet? then g.bullet.key else Key("", 0, "")
  }

  /** Insertion after every element that is not greater. */
  function Insert(gs: seq<Group>, g: Group): seq<Group> {
    if gs == [] then [g]
    else if KeyLe(KeyOf(gs[|gs| - 1]), KeyOf(g)) then gs + [g]
    else Insert(gs[..|gs| - 1], g) + [gs[|gs| - 1]]
  }

  /** list.sort with sort_key: stable. */
  function Sort(gs: seq<Group>): seq<Group> {
    if gs == [] then [] else Insert(Sort(gs[..|gs| - 1]), gs[|gs| - 1])
  }

  predicate Sorted(gs: seq<Group>) {
    forall i, j | 0 <= i < j < |gs| :: KeyLe(KeyOf(gs[i]), KeyOf(gs[j]))
  }

  lemma AppendSorted(gs: seq<Group>, x: Group)
    requires Sorted(gs) && forall g <- gs :: KeyLe(KeyOf(g), KeyOf(x))
    ensures Sorted(gs + [x])
  {
    hide KeyLe;
  }

  lemma {:induction false} InsertIs(gs: seq<Group>, g: Group)
    ensures multiset(Insert(gs, g)) == multiset(gs) + multiset{g}
    ensures forall x <- Insert(gs, g) :: x in gs || x == g
  {
    hide KeyLe;
    if gs != [] {
      var n := |gs| - 1;
      InsertIs(gs[..n], g);
      assert gs == gs[..n] + [gs[n]];
    }
  }

  lemma {:induction false} InsertSorted(gs: seq<Group>, g: Group)
    requires Sorted(gs)
    ensures Sorted(Insert(gs, g))
  {
    hide KeyLe;
    if gs != [] {
      var n := |gs| - 1;
      var last := gs[n];
      assert gs == gs[..n] + [last];
      if KeyLe(KeyOf(last), KeyOf(g)) {
        forall x <- gs ensures KeyLe(KeyOf(x), KeyOf(g)) {
          var i :| 0 <= i < |gs| && gs[i] == x;
          if i < n { KeyLeTransitive(KeyOf(x), KeyOf(last), KeyOf(g)); }
        }
        AppendSorted(gs, g);
      } else {
        KeyLeTotal(KeyOf(last), KeyOf(g));
        InsertSorted(gs[..n], g);
        InsertIs(gs[..n], g);
        forall x <- Insert(gs[..n], g) ensures KeyLe(KeyOf(x), KeyOf(last)) {
          if x != g { var i :| 0 <= i < n && gs[..n][i] == x; }
        }
        AppendSorted(Insert(gs[..n], g), last);
      }
    }
  }

  lemma {:induction false} SortSorts(gs: seq<Group>)
    ensures Sorted(Sort(gs)) && multiset(Sort(gs)) == multiset(gs)
  {
    if gs != [] {
      hide Sorted, Insert;
      var n := |gs| - 1;
      SortSorts(gs[..n]);
      InsertSorted(Sort(gs[..n]), gs[n]);
      InsertIs(Sort(gs[..n]), gs[n]);
      SplitLast([], gs);
    }
  }

  lemma {:induction false} SortedStays(gs: seq<Group>)
    requires Sorted(gs)
    ensures Sort(gs) == gs
  {
    if gs != [] {
      var n := |gs| - 1;
      SortedStays(gs[..n]);
      assert gs == gs[..n] + [gs[n]];
    }
  }

  // ---- sorting and choosing by bucket ----

  function OfBucket(gs: seq<Group>, b: Bucket): seq<Group> {
    if gs == [] then []
    else OfBucket(gs[..|gs| - 1], b) + if BucketOf(gs[|gs| - 1]) == b then [gs[|gs| - 1]] else []
  }

  function BucketOf(g: Group): Bucket {
    if g.bullet.Bullet? then g.bullet.bucket else Untagged
  }

  lemma {:induction false} OfBucketSorted(gs: seq<Group>, b: Bucket)
    requires Sorted(gs)
    ensures Sorted(OfBucket(gs, b))
    ensures forall x <- OfBucket(gs, b) :: x in gs && BucketOf(x) == b
  {
    if gs != [] {
      var n := |gs| - 1;
      OfBucketSorted(gs[..n], b);
      assert gs == gs[..n] + [gs[n]];
      var front := OfBucket(gs[..n], b);
      forall i | 0 <= i < |front| ensures KeyLe(KeyOf(front[i]), KeyOf(gs[n])) {
        assert front[i] in front;
        var j :| 0 <= j < n && gs[..n][j] == front[i];
        assert KeyLe(KeyOf(gs[j]), KeyOf(gs[n]));
      }
    }
  }

  /** Sorting is stable: choosing a bucket and sorting can be done in either order. */
  lemma {:induction false} InsertOfBucket(gs: seq<Group>, g: Group, b: Bucket)
    requires Sorted(gs)
    ensures OfBucket(Insert(gs, g), b) == if BucketOf(g) == b then Insert(OfBucket(gs, b), g) else OfBucket(gs, b)
  {
    if gs == [] {
      assert [g][..0] == [];
    } else {
      hide KeyLe, OfBucket, Insert, Sorted;
      var n := |gs| - 1;
      var last := gs[n];
      SortedFront(gs);
      SplitLast([], gs);
      OfBucketSnoc(gs[..n], last, b);
      InsertStep(gs[..n], last, g);
      if KeyLe(KeyOf(last), KeyOf(g)) {
        OfBucketSnoc(gs, g, b);
        if BucketOf(g) == b { AppendsLast(gs, g, b); }
      } else {
        InsertOfBucket(gs[..n], g, b);
        OfBucketSnoc(Insert(gs[..n], g), last, b);
        InsertStep(OfBucket(gs[..n], b), last, g);
      }
    }
  }

  lemma OfBucketSnoc(gs: seq<Group>, g: Group, b: Bucket)
    ensures OfBucket(gs + [g], b) == if BucketOf(g) == b then OfBucket(gs, b) + [g] else OfBucket(gs, b)
  {
    assert (gs + [g])[..|gs|] == gs;
  }

  lemma InsertStep(gs: seq<Group>, last: Group, g: Group)
    ensures Insert(gs + [last], g) == if KeyLe(KeyOf(last), KeyOf(g)) then gs + [last] + [g] else Insert(gs, g) + [last]
  {
    assert (gs + [last])[..|gs|] == gs;
  }

  lemma SortedFront(gs: seq<Group>)
    requires Sorted(gs) && gs != []
    ensures Sorted(gs[..|gs| - 1])
  {
  }

  /** An element not less than the last one goes last in any choice. */
  lemma AppendsLast(gs: seq<Group>, g: Group, b: Bucket)
    requires Sorted(gs) && gs != [] && KeyLe(KeyOf(gs[|gs| - 1]), KeyOf(g))
    ensures Insert(OfBucket(gs, b), g) == OfBucket(gs, b) + [g]
  {
    OfBucketSorted(gs, b);
    var chosen := OfBucket(gs, b);
    if chosen != [] {
      var x := chosen[|chosen| - 1];
      assert x in chosen;
      var j :| 0 <= j < |gs| && gs[j] == x;
      if j < |gs| - 1 { KeyLeTransitive(KeyOf(x), KeyOf(gs[|gs| - 1]), KeyOf(g)); }
    }
  }

  lemma {:induction false} SortOfBucket(gs: seq<Group>, b: Bucket)
    ensures OfBucket(Sort(gs), b) == Sort(OfBucket(gs, b))
  {
    if gs != [] {
      var n := |gs| - 1;
      SortOfBucket(gs[..n], b);
      SortSorts(gs[..n]);
      InsertOfBucket(Sort(gs[..n]), gs[n], b);
      if BucketOf(gs[n]) == b {
        var chosen := OfBucket(gs[..n], b) + [gs[n]];
        assert chosen[..|chosen| - 1] == OfBucket(gs[..n], b);
      } else {
        assert OfBucket(gs[..n], b) + [] == OfBucket(gs[..n], b);
      }
    }
  }

  // ---- the pass ----

  function Continuations(lines: seq<Line>): (more: seq<Line>)
    ensures |more| <= |lines| && more == lines[..|more|] && forall l <- more :: IsContinuation(l)
  {
    if lines != [] && IsContinuation(lines[0]) then [lines[0]] + Continuations(lines[1..]) else []
  }

  /** extract_bullet_groups: the bullets with their continuation lines ... */
  function Groups(lines: seq<Line>): seq<Group>
    decreases |lines|
  {
    if lines == [] then []
    else if lines[0].Bullet? then
      var more := Continuations(lines[1..]);
      [Group(lines[0], more)] + Groups(lines[1 + |more|..])
    else Groups(lines[1..])
  }

  /** ... and the other lines, without comment markers. */
  function Others(lines: seq<Line>): seq<Line>
    decreases |lines|
  {
    if lines == [] then []
    else if lines[0].Bullet? then Others(lines[1 + |Continuations(lines[1..])|..])
    else if lines[0].Comment? then Others(lines[1..])
    else [lines[0]] + Others(lines[1..])
  }

  /** The lines up to the next H2. */
  function Body(lines: seq<Line>): seq<Line> {
    if lines == [] || lines[0].H2? then [] else [lines[0]] + Body(lines[1..])
  }

  function SectionsOf(lines: seq<Line>): seq<Section> {
    if lines == [] then []
    else if lines[0].H2? then [Section(lines[0], Body(lines[1..]))] + SectionsOf(lines[1..])
    else SectionsOf(lines[1..])
  }

  predicate Lettered(s: Section) {
    s.header.H2? && s.header.letter.Some?
  }

  predicate HasLetter(secs: seq<Section>, c: char) {
    exists s <- secs :: Lettered(s) && s.header.letter.value == c
  }

  /** A bullet group and the letter of the section it stands in. */
  datatype Item = Item(group: Group, home: char)

  function Tagged(gs: seq<Group>, home: char): seq<Item> {
    if gs == [] then [] else Tagged(gs[..|gs| - 1], home) + [Item(gs[|gs| - 1], home)]
  }

  function Items(secs: seq<Section>): seq<Item> {
    if secs == [] then []
    else
      var s := secs[|secs| - 1];
      Items(secs[..|secs| - 1]) + if Lettered(s) then Tagged(Groups(s.content), s.header.letter.value) else []
  }

  /** The section of the bullet's ID letter, when there is one; else the one it stands in. */
  function Target(it: Item, secs: seq<Section>): char {
    if it.group.bullet.Bullet? && it.group.bullet.id.Some? && HasLetter(secs, it.group.bullet.id.value)
    then it.group.bullet.id.value else it.home
  }

  function Chosen(items: seq<Item>, secs: seq<Section>, c: char): seq<Group> {
    if items == [] then []
    else
      var it := items[|items| - 1];
      Chosen(items[..|items| - 1], secs, c) + if Target(it, secs) == c then [it.group] else []
  }

  function WithoutHeadings(lines: seq<Line>): seq<Line> {
    if lines == [] then []
    else WithoutHeadings(lines[..|lines| - 1]) + if lines[|lines| - 1].Heading? then [] else [lines[|lines| - 1]]
  }

  /** section_non_bullets: of two sections with one letter the later wins. */
  function Text(secs: seq<Section>, c: char): seq<Line> {
    if secs == [] then []
    else
      var s := secs[|secs| - 1];
      if Lettered(s) && s.header.letter.value == c
      then if c == 'F' then WithoutHeadings(Others(s.content)) else Others(s.content)
      else Text(secs[..|secs| - 1], c)
  }

  /** A group as it is written, perhaps under a new sub-header. */
  datatype Marked = Marked(brk: Option<nat>, group: Group)

  function Mark(gs: seq<Group>, which: Option<nat>): seq<Marked> {
    if gs == [] then [] else [Marked(which, gs[0])] + Mark(gs[1..], None)
  }

  /** The F section: its buckets in their order, each sorted, under their sub-headers. */
  function InBuckets(gs: seq<Group>): seq<Marked> {
    Mark(Sort(OfBucket(gs, Arch)), Some(0)) + Mark(Sort(OfBucket(gs, Hardening)), Some(1))
    + Mark(Sort(OfBucket(gs, Polish)), Some(2)) + Mark(Sort(OfBucket(gs, Testing) + OfBucket(gs, Infra)), Some(3))
    + Mark(OfBucket(gs, Untagged), Some(4))
  }

  /** The bullets of a lettered section after the pass. */
  function Placed(items: seq<Item>, secs: seq<Section>, c: char): seq<Marked> {
    var gs := Sort(Chosen(items, secs, c));
    if c == 'F' then InBuckets(gs) else Mark(gs, None)
  }

  function Emit(ms: seq<Marked>): seq<Line> {
    if ms == [] then []
    else (if ms[0].brk.Some? then [Break(ms[0].brk.value)] else []) + [ms[0].group.bullet] + ms[0].group.more + Emit(ms[1..])
  }

  function NewContent(s: Section, secs: seq<Section>): seq<Line> {
    if Lettered(s) then Text(secs, s.header.letter.value) + Emit(Placed(Items(secs), secs, s.header.letter.value))
    else s.content
  }

  function Rebuilt(some: seq<Section>, secs: seq<Section>): seq<Line> {
    if some == [] then []
    else
      var s := some[|some| - 1];
      Rebuilt(some[..|some| - 1], secs) + [s.header] + NewContent(s, secs)
  }

  /** _collapse_blank_lines; run: the line before was blank. */
  function Collapse(lines: seq<Line>, run: bool): seq<Line> {
    if lines == [] then []
    else (if IsBlank(lines[0]) && run then [] else [lines[0]]) + Collapse(lines[1..], IsBlank(lines[0]))
  }

  function RehomeAndSort(lines: seq<Line>): seq<Line> {
    var secs := SectionsOf(lines);
    if secs == [] then lines else Collapse(Body(lines) + Rebuilt(secs, secs), false)
  }

  /** The file read again: a written sub-header is an empty line and a heading. */
  function Reread(lines: seq<Line>): seq<Line> {
    if lines == [] then []
    else (if lines[0].Break? then [Blank, Heading(lines[0].which)] else [lines[0]]) + Reread(lines[1..])
  }

  // ---- the written file has the same sections ----

  predicate NoH2(lines: seq<Line>) {
    forall l <- lines :: !l.H2?
  }

  function RunAfter(lines: seq<Line>, run: bool): bool {
    if lines == [] then run else IsBlank(lines[|lines| - 1])
  }

  function FirstKept(l: Line, run: bool): seq<Line> {
    if IsBlank(l) && run then [] else [l]
  }

  lemma CollapseFirst(l: Line, rest: seq<Line>, run: bool)
    ensures Collapse([l] + rest, run) == FirstKept(l, run) + Collapse(rest, IsBlank(l))
  {
    assert ([l] + rest)[1..] == rest;
  }

  lemma {:induction false} CollapseConcat(a: seq<Line>, b: seq<Line>, run: bool)
    ensures Collapse(a + b, run) == Collapse(a, run) + Collapse(b, RunAfter(a, run))
  {
    if a == [] {
      assert a + b == b;
    } else {
      hide Collapse, IsBlank, FirstKept;
      CollapseConcat(a[1..], b, IsBlank(a[0]));
      SplitFirst(a, b);
      CollapseFirst(a[0], a[1..] + b, run);
      CollapseFirst(a[0], a[1..], run);
      assert RunAfter(a[1..], IsBlank(a[0])) == RunAfter(a, run);
      Regroup(FirstKept(a[0], run), Collapse(a[1..], IsBlank(a[0])), Collapse(b, RunAfter(a, run)));
    }
  }

  function AsRead(l: Line): seq<Line> {
    if l.Break? then [Blank, Heading(l.which)] else [l]
  }

  lemma RereadFirst(l: Line, rest: seq<Line>)
    ensures Reread([l] + rest) == AsRead(l) + Reread(rest)
  {
    assert ([l] + rest)[1..] == rest;
  }

  lemma {:induction false} RereadConcat(a: seq<Line>, b: seq<Line>)
    ensures Reread(a + b) == Reread(a) + Reread(b)
  {
    if a == [] {
      assert a + b == b;
    } else {
      hide Reread, AsRead;
      RereadConcat(a[1..], b);
      SplitFirst(a, b);
      RereadFirst(a[0], a[1..] + b);
      RereadFirst(a[0], a[1..]);
      Regroup(AsRead(a[0]), Reread(a[1..]), Reread(b));
    }
  }

  lemma {:induction false} CollapseIs(lines: seq<Line>, run: bool)
    ensures forall l <- Collapse(lines, run) :: l in lines
  {
    if lines != [] { CollapseIs(lines[1..], IsBlank(lines[0])); }
  }

  lemma {:induction false} RereadNoH2(lines: seq<Line>)
    requires NoH2(lines)
    ensures NoH2(Reread(lines))
  {
    if lines != [] { RereadNoH2(lines[1..]); }
  }

  lemma {:induction false} BodyAll(lines: seq<Line>)
    requires NoH2(lines)
    ensures Body(lines) == lines && SectionsOf(lines) == []
  {
    if lines != [] { BodyAll(lines[1..]); }
  }

  lemma {:induction false} BodyNoH2(lines: seq<Line>)
    ensures NoH2(Body(lines))
  {
    if lines != [] { BodyNoH2(lines[1..]); }
  }

  lemma {:induction false} BodyOfConcat(a: seq<Line>, h: Line, b: seq<Line>)
    requires h.H2?
    ensures Body(a + [h] + b) == Body(a)
  {
    if a == [] {
      assert [] + [h] + b == [h] + b;
    } else {
      BodyOfConcat(a[1..], h, b);
      assert (a + [h] + b)[1..] == a[1..] + [h] + b;
    }
  }

  lemma {:induction false} SectionsOfConcat(a: seq<Line>, h: Line, b: seq<Line>)
    requires h.H2? && NoH2(b)
    ensures SectionsOf(a + [h] + b) == SectionsOf(a) + [Section(h, b)]
  {
    if a == [] {
      assert [] + [h] + b == [h] + b;
      assert ([h] + b)[1..] == b;
      BodyAll(b);
    } else {
      SectionsOfConcat(a[1..], h, b);
      BodyOfConcat(a[1..], h, b);
      assert (a + [h] + b)[1..] == a[1..] + [h] + b;
    }
  }

  /** What a section's lines become. */
  function Written(lines: seq<Line>): seq<Line> {
    Reread(Collapse(lines, false))
  }

  lemma WrittenNoH2(lines: seq<Line>)
    requires NoH2(lines)
    ensures NoH2(Written(lines))
  {
    CollapseIs(lines, false);
    RereadNoH2(Collapse(lines, false));
  }

  lemma WrittenConcat(a: seq<Line>, h: Line, b: seq<Line>)
    requires h.H2?
    ensures Written(a + [h] + b) == Written(a) + [h] + Written(b)
  {
    hide Collapse, Reread;
    CollapseConcat(a + [h], b, false);
    CollapseConcat(a, [h], false);
    OneStays(h, RunAfter(a, false));
    RereadConcat(Collapse(a, false) + [h], Collapse(b, false));
    RereadConcat(Collapse(a, false), [h]);
  }

  lemma OneStays(h: Line, run: bool)
    requires h.H2?
    ensures Collapse([h], run) == [h] && Reread([h]) == [h]
  {
  }

  function NewSection(s: Section, secs: seq<Section>): Section {
    Section(s.header, Written(NewContent(s, secs)))
  }

  function NewSections(some: seq<Section>, secs: seq<Section>): (written: seq<Section>)
    ensures |written| == |some| && forall k | 0 <= k < |some| :: written[k] == NewSection(some[k], secs)
  {
    seq(|some|, k requires 0 <= k < |some| => NewSection(some[k], secs))
  }

  predicate SectionsOk(secs: seq<Section>) {
    forall s <- secs :: s.header.H2? && NoH2(s.content)
  }

  lemma {:induction false} SectionsOfOk(lines: seq<Line>)
    ensures SectionsOk(SectionsOf(lines))
  {
    if lines != [] {
      SectionsOfOk(lines[1..]);
      BodyNoH2(lines[1..]);
    }
  }

  lemma {:induction false} RebuiltSections(pre: seq<Line>, some: seq<Section>, secs: seq<Section>)
    requires NoH2(pre) && SectionsOk(some) && forall s <- some :: NoH2(NewContent(s, secs))
    ensures SectionsOf(Written(pre + Rebuilt(some, secs))) == NewSections(some, secs)
    ensures Body(Written(pre + Rebuilt(some, secs))) == Written(pre)
  {
    hide Written, SectionsOf, Body, NewContent;
    if some == [] {
      assert pre + Rebuilt(some, secs) == pre;
      WrittenNoH2(pre);
      BodyAll(Written(pre));
    } else {
      var n := |some| - 1;
      var s := some[n];
      RebuiltSections(pre, some[..n], secs);
      var before := pre + Rebuilt(some[..n], secs);
      assert pre + Rebuilt(some, secs) == before + [s.header] + NewContent(s, secs);
      WrittenConcat(before, s.header, NewContent(s, secs));
      WrittenNoH2(NewContent(s, secs));
      SectionsOfConcat(Written(before), s.header, Written(NewContent(s, secs)));
      BodyOfConcat(Written(before), s.header, Written(NewContent(s, secs)));
    }
  }

  // ---- the bullets of a written section ----

  function Solid(lines: seq<Line>): seq<Line> {
    if lines == [] then [] else (if IsBlank(lines[0]) then [] else [lines[0]]) + Solid(lines[1..])
  }

  /** A group up to blank lines. */
  function Norm(g: Group): Group {
    Group(g.bullet, Solid(g.more))
  }

  function Norms(gs: seq<Group>): (ns: seq<Group>)
    ensures |ns| == |gs| && forall k | 0 <= k < |gs| :: ns[k] == Norm(gs[k])
  {
    seq(|gs|, k requires 0 <= k < |gs| => Norm(gs[k]))
  }

  function Unmarked(ms: seq<Marked>): (gs: seq<Group>)
    ensures |gs| == |ms| && forall k | 0 <= k < |ms| :: gs[k] == ms[k].group
  {
    seq(|ms|, k requires 0 <= k < |ms| => ms[k].group)
  }

  predicate GroupOk(g: Group) {
    g.bullet.Bullet? && forall l <- g.more :: IsContinuation(l)
  }

  lemma {:induction false} GroupsAreOk(lines: seq<Line>)
    ensures forall g <- Groups(lines) :: GroupOk(g)
    decreases |lines|
  {
    if lines != [] {
      if lines[0].Bullet? { GroupsAreOk(lines[1 + |Continuations(lines[1..])|..]); } else { GroupsAreOk(lines[1..]); }
    }
  }

  lemma {:induction false} OthersAreOk(lines: seq<Line>)
    ensures forall l <- Others(lines) :: l in lines && !l.Bullet?
    decreases |lines|
  {
    if lines != [] {
      if lines[0].Bullet? { OthersAreOk(lines[1 + |Continuations(lines[1..])|..]); } else { OthersAreOk(lines[1..]); }
    }
  }

  lemma {:induction false} GroupsSkip(a: seq<Line>, b: seq<Line>)
    requires forall l <- a :: !l.Bullet?
    ensures Groups(a + b) == Groups(b)
  {
    if a == [] {
      assert a + b == b;
    } else {
      GroupsSkip(a[1..], b);
      assert (a + b)[1..] == a[1..] + b;
    }
  }

  predicate StartsNew(lines: seq<Line>) {
    lines == [] || !IsContinuation(lines[0])
  }

  lemma {:induction false} ContinuationsAre(more: seq<Line>, rest: seq<Line>)
    requires (forall l <- more :: IsContinuation(l)) && StartsNew(rest)
    ensures Continuations(more + rest) == more
  {
    if more == [] {
      assert more + rest == rest;
    } else {
      ContinuationsAre(more[1..], rest);
      assert (more + rest)[1..] == more[1..] + rest;
    }
  }

  lemma GroupsOne(bullet: Line, more: seq<Line>, rest: seq<Line>)
    requires GroupOk(Group(bullet, more)) && StartsNew(rest)
    ensures Groups([bullet] + more + rest) == [Group(bullet, more)] + Groups(rest)
  {
    var lines := [bullet] + more + rest;
    assert lines[1..] == more + rest;
    ContinuationsAre(more, rest);
    assert lines[1 + |more|..] == rest;
  }

  lemma {:induction false} CollapseSolid(lines: seq<Line>, run: bool)
    ensures Solid(Collapse(lines, run)) == Solid(lines)
  {
    if lines != [] {
      CollapseSolid(lines[1..], IsBlank(lines[0]));
      var c := Collapse(lines, run);
      if c != Collapse(lines[1..], IsBlank(lines[0])) { assert c[1..] == Collapse(lines[1..], IsBlank(lines[0])); }
    }
  }

  lemma {:induction false} RereadSame(lines: seq<Line>)
    requires forall l <- lines :: !l.Break?
    ensures Reread(lines) == lines
  {
    if lines != [] { RereadSame(lines[1..]); }
  }

  function BreakOf(m: Marked): seq<Line> {
    if m.brk.Some? then [Break(m.brk.value)] else []
  }

  lemma EmitFirst(ms: seq<Marked>)
    requires ms != []
    ensures Emit(ms) == BreakOf(ms[0]) + (([ms[0].group.bullet] + ms[0].group.more) + Emit(ms[1..]))
  {
    var brk, bullet, more, rest := BreakOf(ms[0]), [ms[0].group.bullet], ms[0].group.more, Emit(ms[1..]);
    assert Emit(ms) == ((brk + bullet) + more) + rest;
    hide Emit, BreakOf;
    Regroup(brk, bullet, more);
    Regroup(brk, bullet + more, rest);
  }

  lemma BreakStays(m: Marked, run: bool)
    ensures Collapse(BreakOf(m), run) == BreakOf(m)
    ensures NoneBullet(Reread(BreakOf(m))) && (BreakOf(m) != [] ==> StartsNew(Reread(BreakOf(m))) && Reread(BreakOf(m)) != [])
  {
  }

  predicate NoneBullet(lines: seq<Line>) {
    forall l <- lines :: !l.Bullet?
  }

  lemma GroupStays(g: Group, run: bool)
    requires GroupOk(g)
    ensures Collapse([g.bullet] + g.more, run) == [g.bullet] + Collapse(g.more, false)
    ensures RunAfter([g.bullet] + g.more, run) == RunAfter([g.bullet] + g.more, false)
    ensures Reread([g.bullet] + Collapse(g.more, false)) == [g.bullet] + Collapse(g.more, false)
    ensures GroupOk(Group(g.bullet, Collapse(g.more, false))) && Norm(Group(g.bullet, Collapse(g.more, false))) == Norm(g)
  {
    assert ([g.bullet] + g.more)[1..] == g.more;
    CollapseIs(g.more, false);
    CollapseSolid(g.more, false);
    RereadSame([g.bullet] + Collapse(g.more, false));
  }

  /** A group as it is written: without the second and later blank lines of a run. */
  function Shrink(g: Group): Group {
    Group(g.bullet, Collapse(g.more, false))
  }

  function Shrunk(gs: seq<Group>): (ss: seq<Group>)
    ensures |ss| == |gs| && forall k | 0 <= k < |gs| :: ss[k] == Shrink(gs[k])
  {
    seq(|gs|, k requires 0 <= k < |gs| => Shrink(gs[k]))
  }

  lemma ShrunkFirst(ms: seq<Marked>)
    requires ms != []
    ensures Shrunk(Unmarked(ms)) == [Shrink(ms[0].group)] + Shrunk(Unmarked(ms[1..]))
  {
    hide Collapse;
  }

  /** The written bullets read back as the groups that were written. */
  lemma {:induction false} EmittedShrunk(ms: seq<Marked>, run: bool)
    requires forall m <- ms :: GroupOk(m.group)
    ensures var out := Reread(Collapse(Emit(ms), run));
            StartsNew(out) && Groups(out) == Shrunk(Unmarked(ms))
  {
    if ms != [] {
      ShrunkFirst(ms);
      hide Groups, Solid, Collapse, Reread, Emit, Norm, Shrunk, Unmarked;
      var g := ms[0].group;
      var more := Collapse(g.more, false);
      var last := RunAfter([g.bullet] + g.more, false);
      EmittedShrunk(ms[1..], last);
      var rest := Reread(Collapse(Emit(ms[1..]), last));
      var head := Reread(BreakOf(ms[0]));
      assert Reread(Collapse(Emit(ms), run)) == head + (([g.bullet] + more) + rest) by { EmitOne(ms, run); }
      BreakStays(ms[0], run);
      GroupStays(g, false);
      if BreakOf(ms[0]) == [] { RereadEmpty(); }
      GroupsOne(g.bullet, more, rest);
      GroupsSkip(head, ([g.bullet] + more) + rest);
    }
  }

  /** ... which are the same up to blank lines. */
  lemma EmittedGroups(ms: seq<Marked>, run: bool)
    requires forall m <- ms :: GroupOk(m.group)
    ensures var out := Reread(Collapse(Emit(ms), run));
            StartsNew(out) && Norms(Groups(out)) == Norms(Unmarked(ms))
  {
    hide Groups, Solid, Collapse, Reread, Emit;
    EmittedShrunk(ms, run);
    forall k | 0 <= k < |ms| ensures Norm(Shrink(ms[k].group)) == Norm(ms[k].group) { CollapseSolid(ms[k].group.more, false); }
    assert Norms(Shrunk(Unmarked(ms))) == Norms(Unmarked(ms));
  }

  lemma RereadEmpty()
    ensures Reread([]) == []
  {
  }

  lemma EmitOne(ms: seq<Marked>, run: bool)
    requires ms != [] && GroupOk(ms[0].group)
    ensures var g, last := ms[0].group, RunAfter([ms[0].group.bullet] + ms[0].group.more, false);
            Reread(Collapse(Emit(ms), run))
              == Reread(BreakOf(ms[0])) + (([g.bullet] + Collapse(g.more, false)) + Reread(Collapse(Emit(ms[1..]), last)))
  {
    hide Collapse, Reread, Emit, RunAfter, Norm;
    var g := ms[0].group;
    var brk, here, tail := BreakOf(ms[0]), [g.bullet] + g.more, Emit(ms[1..]);
    var r := RunAfter(brk, run);
    EmitFirst(ms);
    CollapseConcat(brk, here + tail, run);
    CollapseConcat(here, tail, r);
    BreakStays(ms[0], run);
    GroupStays(g, r);
    RereadConcat(brk, Collapse(here, r) + Collapse(tail, RunAfter(here, r)));
    RereadConcat(Collapse(here, r), Collapse(tail, RunAfter(here, r)));
  }

  lemma {:induction false} WithoutHeadingsIs(lines: seq<Line>)
    ensures forall l <- WithoutHeadings(lines) :: l in lines
  {
    if lines != [] {
      WithoutHeadingsIs(lines[..|lines| - 1]);
      assert lines == lines[..|lines| - 1] + [lines[|lines| - 1]];
    }
  }

  lemma {:induction false} TextIs(secs: seq<Section>, c: char)
    requires SectionsOk(secs)
    ensures NoneBullet(Text(secs, c)) && NoH2(Text(secs, c))
  {
    if secs != [] {
      var n := |secs| - 1;
      assert secs[n] in secs;
      TextIs(secs[..n], c);
      OthersAreOk(secs[n].content);
      WithoutHeadingsIs(Others(secs[n].content));
    }
  }

  predicate GroupsOk(gs: seq<Group>) {
    forall g <- gs :: GroupOk(g) && NoH2(g.more)
  }

  lemma {:induction false} GroupsAreAllOk(lines: seq<Line>)
    ensures GroupsOk(Groups(lines))
  {
    GroupsAreOk(lines);
    forall g <- Groups(lines), l <- g.more ensures !l.H2? { assert IsContinuation(l); }
  }

  lemma {:induction false} TaggedIs(gs: seq<Group>, c: char)
    ensures |Tagged(gs, c)| == |gs| && forall k | 0 <= k < |gs| :: Tagged(gs, c)[k] == Item(gs[k], c)
  {
    if gs != [] { TaggedIs(gs[..|gs| - 1], c); }
  }

  /** Every item is a group of a lettered section, under that section's letter. */
  lemma {:induction false} ItemsAreOk(secs: seq<Section>)
    ensures forall it <- Items(secs) :: GroupsOk([it.group]) && HasLetter(secs, it.home)
  {
    if secs != [] {
      var n := |secs| - 1;
      var s := secs[n];
      ItemsAreOk(secs[..n]);
      assert s in secs;
      GroupsAreAllOk(s.content);
      if Lettered(s) { TaggedIs(Groups(s.content), s.header.letter.value); }
      forall it <- Items(secs) ensures GroupsOk([it.group]) && HasLetter(secs, it.home) {
        if it in Items(secs[..n]) {
          var x :| x in secs[..n] && Lettered(x) && x.header.letter.value == it.home;
          assert x in secs;
        } else {
          var k :| 0 <= k < |Groups(s.content)| && Tagged(Groups(s.content), s.header.letter.value)[k] == it;
          assert Groups(s.content)[k] in Groups(s.content);
        }
      }
    }
  }

  lemma {:induction false} ChosenIs(items: seq<Item>, secs: seq<Section>, c: char)
    ensures forall g <- Chosen(items, secs, c) :: exists it <- items :: it.group == g && Target(it, secs) == c
  {
    if items != [] {
      var n := |items| - 1;
      ChosenIs(items[..n], secs, c);
      assert items == items[..n] + [items[n]];
      assert items[n] in items;
      forall g <- Chosen(items, secs, c) ensures exists it <- items :: it.group == g && Target(it, secs) == c {
        if g in Chosen(items[..n], secs, c) {
          var it :| it in items[..n] && it.group == g && Target(it, secs) == c;
          assert it in items;
        }
      }
    }
  }

  lemma {:induction false} MarkIs(gs: seq<Group>, which: Option<nat>)
    ensures Unmarked(Mark(gs, which)) == gs
  {
    if gs != [] { MarkIs(gs[1..], None); }
  }

  lemma UnmarkedConcat(a: seq<Marked>, b: seq<Marked>)
    ensures Unmarked(a + b) == Unmarked(a) + Unmarked(b)
  {
  }

  /** The groups of the F section, bucket after bucket. */
  function BucketOrder(gs: seq<Group>): seq<Group> {
    Sort(OfBucket(gs, Arch)) + Sort(OfBucket(gs, Hardening)) + Sort(OfBucket(gs, Polish))
    + Sort(OfBucket(gs, Testing) + OfBucket(gs, Infra)) + OfBucket(gs, Untagged)
  }

  lemma InBucketsIs(gs: seq<Group>)
    ensures Unmarked(InBuckets(gs)) == BucketOrder(gs)
  {
    hide Mark, Sort, OfBucket;
    var a, b, c := Sort(OfBucket(gs, Arch)), Sort(OfBucket(gs, Hardening)), Sort(OfBucket(gs, Polish));
    var d, e := Sort(OfBucket(gs, Testing) + OfBucket(gs, Infra)), OfBucket(gs, Untagged);
    MarkIs(a, Some(0));
    MarkIs(b, Some(1));
    MarkIs(c, Some(2));
    MarkIs(d, Some(3));
    MarkIs(e, Some(4));
    UnmarkedConcat(Mark(a, Some(0)), Mark(b, Some(1)));
    UnmarkedConcat(Mark(a, Some(0)) + Mark(b, Some(1)), Mark(c, Some(2)));
    UnmarkedConcat(Mark(a, Some(0)) + Mark(b, Some(1)) + Mark(c, Some(2)), Mark(d, Some(3)));
    UnmarkedConcat(Mark(a, Some(0)) + Mark(b, Some(1)) + Mark(c, Some(2)) + Mark(d, Some(3)), Mark(e, Some(4)));
  }

  /** The order of a section's bullets after the pass. */
  function Ordered(gs: seq<Group>, c: char): seq<Group> {
    if c == 'F' then BucketOrder(Sort(gs)) else Sort(gs)
  }

  lemma PlacedIs(items: seq<Item>, secs: seq<Section>, c: char)
    ensures Unmarked(Placed(items, secs, c)) == Ordered(Chosen(items, secs, c), c)
  {
    hide Mark, Sort, OfBucket, BucketOrder, InBuckets, Chosen;
    var gs := Sort(Chosen(items, secs, c));
    InBucketsIs(gs);
    MarkIs(gs, None);
  }

  /** How many of a group the bucket holds: all of them in the group's own bucket, none in another. */
  lemma {:induction false} OfBucketCount(gs: seq<Group>, b: Bucket, g: Group)
    ensures multiset(OfBucket(gs, b))[g] == if BucketOf(g) == b then multiset(gs)[g] else 0
  {
    if gs != [] {
      OfBucketCount(gs[..|gs| - 1], b, g);
      assert gs == gs[..|gs| - 1] + [gs[|gs| - 1]];
    }
  }

  lemma BucketsCover(gs: seq<Group>)
    ensures multiset(gs) == multiset(OfBucket(gs, Arch)) + multiset(OfBucket(gs, Hardening)) + multiset(OfBucket(gs, Polish))
                            + multiset(OfBucket(gs, Testing)) + multiset(OfBucket(gs, Infra)) + multiset(OfBucket(gs, Untagged))
  {
    hide OfBucket;
    var a, h, p := multiset(OfBucket(gs, Arch)), multiset(OfBucket(gs, Hardening)), multiset(OfBucket(gs, Polish));
    var t, i, u := multiset(OfBucket(gs, Testing)), multiset(OfBucket(gs, Infra)), multiset(OfBucket(gs, Untagged));
    forall g ensures multiset(gs)[g] == a[g] + h[g] + p[g] + t[g] + i[g] + u[g] {
      OfBucketCount(gs, Arch, g);
      OfBucketCount(gs, Hardening, g);
      OfBucketCount(gs, Polish, g);
      OfBucketCount(gs, Testing, g);
      OfBucketCount(gs, Infra, g);
      OfBucketCount(gs, Untagged, g);
    }
  }

  lemma OrderedIsAll(gs: seq<Group>, c: char)
    ensures multiset(Ordered(gs, c)) == multiset(gs)
  {
    hide Sort, OfBucket;
    SortSorts(gs);
    if c == 'F' {
      var s := Sort(gs);
      BucketsCover(s);
      SortSorts(OfBucket(s, Arch));
      SortSorts(OfBucket(s, Hardening));
      SortSorts(OfBucket(s, Polish));
      SortSorts(OfBucket(s, Testing) + OfBucket(s, Infra));
    }
  }

  lemma PlacedAreOk(secs: seq<Section>, c: char)
    ensures forall m <- Placed(Items(secs), secs, c) :: GroupOk(m.group) && NoH2(m.group.more)
  {
    hide Placed, Items, Chosen, Ordered;
    var items := Items(secs);
    var ms := Placed(items, secs, c);
    ItemsAreOk(secs);
    ChosenIs(items, secs, c);
    PlacedIs(items, secs, c);
    OrderedIsAll(Chosen(items, secs, c), c);
    forall m <- ms ensures GroupOk(m.group) && NoH2(m.group.more) {
      var k :| 0 <= k < |ms| && ms[k] == m;
      assert m.group == Unmarked(ms)[k];
      assert m.group in multiset(Unmarked(ms));
      assert m.group in Chosen(items, secs, c);
      var it :| it in items && it.group == m.group;
      assert m.group in [it.group];
    }
  }

  lemma {:induction false} EmitNoH2(ms: seq<Marked>)
    requires forall m <- ms :: GroupOk(m.group) && NoH2(m.group.more)
    ensures NoH2(Emit(ms))
  {
    if ms != [] { EmitNoH2(ms[1..]); }
  }

  lemma NewContentNoH2(s: Section, secs: seq<Section>)
    requires SectionsOk(secs) && s in secs
    ensures NoH2(NewContent(s, secs))
  {
    hide Text, Placed, Emit;
    if Lettered(s) {
      TextIs(secs, s.header.letter.value);
      PlacedAreOk(secs, s.header.letter.value);
      EmitNoH2(Placed(Items(secs), secs, s.header.letter.value));
    }
  }

  lemma {:induction false} WrittenNoneBullet(lines: seq<Line>)
    requires NoneBullet(lines)
    ensures NoneBullet(Written(lines))
  {
    CollapseIs(lines, false);
    RereadNoneBullet(Collapse(lines, false));
  }

  lemma {:induction false} RereadNoneBullet(lines: seq<Line>)
    requires NoneBullet(lines)
    ensures NoneBullet(Reread(lines))
  {
    if lines != [] { RereadNoneBullet(lines[1..]); }
  }

  /** The bullets of a written section, up to blank lines: those whose section it is, in order. */
  lemma WrittenBullets(s: Section, secs: seq<Section>)
    requires SectionsOk(secs) && s in secs && Lettered(s)
    ensures var c := s.header.letter.value;
            Norms(Groups(Written(NewContent(s, secs)))) == Norms(Ordered(Chosen(Items(secs), secs, c), c))
  {
    hide Groups, Collapse, Reread, Emit, Text, Placed, Norms, Ordered, Chosen, Items;
    var c := s.header.letter.value;
    var text, ms := Text(secs, c), Placed(Items(secs), secs, c);
    TextIs(secs, c);
    PlacedAreOk(secs, c);
    CollapseConcat(text, Emit(ms), false);
    RereadConcat(Collapse(text, false), Collapse(Emit(ms), RunAfter(text, false)));
    WrittenNoneBullet(text);
    GroupsSkip(Written(text), Reread(Collapse(Emit(ms), RunAfter(text, false))));
    EmittedGroups(ms, RunAfter(text, false));
    PlacedIs(Items(secs), secs, c);
  }

  /** The pass writes the same sections: every header where it was, the Deferred and other sections
      with their lines (blank runs collapsed), every lettered one with its own bullets in order. */
  lemma PassKeepsSections(lines: seq<Line>)
    requires SectionsOf(lines) != []
    ensures var secs := SectionsOf(lines);
            var out := SectionsOf(Reread(RehomeAndSort(lines)));
            && out == NewSections(secs, secs)
            && Body(Reread(RehomeAndSort(lines))) == Written(Body(lines))
            && (forall k | 0 <= k < |secs| && Lettered(secs[k]) ::
                  var c := secs[k].header.letter.value;
                  Norms(Groups(out[k].content)) == Norms(Ordered(Chosen(Items(secs), secs, c), c)))
  {
    hide Ordered, Chosen, Items, NewContent, Rebuilt, Norms, Groups;
    var secs := SectionsOf(lines);
    SectionsOfOk(lines);
    BodyNoH2(lines);
    forall s <- secs ensures NoH2(NewContent(s, secs)) { NewContentNoH2(s, secs); }
    RebuiltSections(Body(lines), secs, secs);
    forall k | 0 <= k < |secs| && Lettered(secs[k])
      ensures var c := secs[k].header.letter.value;
              Norms(Groups(NewSections(secs, secs)[k].content)) == Norms(Ordered(Chosen(Items(secs), secs, c), c))
    {
      WrittenBullets(secs[k], secs);
    }
  }
}
