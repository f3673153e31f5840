/**
 Canonical references of views (pkg/view/ref.go): the updates are sorted, printed one after
 another, and hashed. Up to the hash, two views have the same reference exactly when they are
 equal, provided no address contains what the printing puts between two addresses. Without that
 proviso a view shares its text with another one exactly if it has two or more updates, or one
 whose address can be cut there.
 */
module ViewRefs {
  import opened Views
  import opened Addresses

  /** Update.Less: "+" sorts before "-", then by address. */
  predicate Less(a: Update, b: Update) {
    if a.kind == b.kind then StringLess(a.process.addr, b.process.addr) else a.kind == Join
  }

  lemma LessTotal(a: Update, b: Update)
    ensures !(Less(a, b) && Less(b, a)) && !Less(a, a)
    ensures a != b ==> Less(a, b) || Less(b, a)
  {
    StringLessTotal(a.process.addr, b.process.addr);
    StringLessTotal(a.process.addr, a.process.addr);
  }

  lemma LessTransitive(a: Update, b: Update, c: Update)
    requires Less(a, b) && Less(b, c)
    ensures Less(a, c)
  {
    if a.kind == b.kind == c.kind { StringLessTransitive(a.process.addr, b.process.addr, c.process.addr); }
  }

  predicate Sorted(s: seq<Update>) {
    forall i, j :: 0 <= i < j < |s| ==> Less(s[i], s[j])
  }

  /** Joins come before Leaves, and within a kind a smaller address, character by character. */
  ghost predicate InOrder(a: Update, b: Update) {
    || (a.kind == Join && b.kind == Leave)
    || (a.kind == b.kind && exists k: nat :: DiffersAt(a.process.addr, b.process.addr, k))
  }

  lemma SortedIsInOrder(s: seq<Update>)
    ensures Sorted(s) <==> forall i, j :: 0 <= i < j < |s| ==> InOrder(s[i], s[j])
  {
    forall i, j | 0 <= i < j < |s| ensures Less(s[i], s[j]) <==> InOrder(s[i], s[j]) {
      StringLessIsLexicographic(s[i].process.addr, s[j].process.addr);
    }
  }

  // ----- sorting in place -----

  lemma SwapKeeps(s: seq<Update>, i: nat, j: nat)
    requires i < |s| && j < |s| && Distinct(s)
    ensures var t := s[i := s[j]][j := s[i]]; AsSet(t) == AsSet(s) && Distinct(t)
  {
    var t := s[i := s[j]][j := s[i]];
    assert forall k | 0 <= k < |s| :: t[k] == s[if k == i then j else if k == j then i else k];
    forall u | u in s
      ensures u in t
    {
      var k :| 0 <= k < |s| && s[k] == u;
      assert t[if k == i then j else if k == j then i else k] == u;
    }
  }

  method Swap(a: array<Update>, i: nat, j: nat)
    requires i < a.Length && j < a.Length
    modifies a
    ensures a[..] == old(a[..])[i := old(a[j])][j := old(a[i])]
  {
    a[i], a[j] := a[j], a[i];
  }

  method IndexOfLeast(a: array<Update>, from: nat) returns (least: nat)
    requires from < a.Length && Distinct(a[..])
    ensures from <= least < a.Length
    ensures forall k | from <= k < a.Length && k != least :: Less(a[least], a[k])
  {
    least := from;
    for j := from + 1 to a.Length
      invariant from <= least < j
      invariant forall k | from <= k < j && k != least :: Less(a[least], a[k])
    {
      LessTotal(a[j], a[least]);
      assert a[..][j] != a[..][least];
      if Less(a[j], a[least]) {
        forall k | from <= k < j && k != least ensures Less(a[j], a[k]) { LessTransitive(a[j], a[least], a[k]); }
        least := j;
      }
    }
  }

  method SortUpdates(a: array<Update>)
    requires Distinct(a[..])
    modifies a
    ensures Sorted(a[..]) && AsSet(a[..]) == old(AsSet(a[..]))
  {
    for i := 0 to a.Length
      invariant Distinct(a[..]) && AsSet(a[..]) == old(AsSet(a[..]))
      invariant forall j, k | 0 <= j < i && j < k < a.Length :: Less(a[j], a[k])
    {
      var least := IndexOfLeast(a, i);
      SwapKeeps(a[..], i, least);
      Swap(a, i, least);
    }
  }

  // ----- one canonical list per view -----

  /** Two sorted lists of the same updates are the same list. */
  lemma {:induction false} SortedIsUnique(s: seq<Update>, t: seq<Update>)
    requires Sorted(s) && Sorted(t) && AsSet(s) == AsSet(t)
    ensures s == t
  {
    EmptyAsSet(s);
    EmptyAsSet(t);
    if s != [] {
      FirstIsLeast(s, t);
      FirstIsLeast(t, s);
      LessTotal(s[0], t[0]);
      RestSets(s);
      RestSets(t);
      SortedIsUnique(s[1..], t[1..]);
      assert s == [s[0]] + s[1..] && t == [t[0]] + t[1..];
    }
  }

  lemma EmptyAsSet(s: seq<Update>)
    ensures s == [] <==> AsSet(s) == {}
  {
    if s != [] { assert s[0] in AsSet(s); }
  }

  lemma FirstIsLeast(s: seq<Update>, t: seq<Update>)
    requires Sorted(s) && s != [] && t != [] && AsSet(s) == AsSet(t)
    ensures s[0] == t[0] || Less(s[0], t[0])
  {
    assert t[0] in AsSet(t);
    assert t[0] in s;
  }

  lemma RestSets(s: seq<Update>)
    requires Sorted(s) && s != []
    ensures AsSet(s[1..]) == AsSet(s) - {s[0]}
  {
    LessTotal(s[0], s[0]);
    assert s[0] !in s[1..];
    assert s == [s[0]] + s[1..];
  }

  // ----- printing -----

  function Sign(kind: UpdateType): char {
    if kind == Join then '+' else '-'
  }

  /** fmt.Fprintf("%v") of an update. */
  function Render(u: Update): string {
    ['{', Sign(u.kind), ' ', '{'] + u.process.addr + ['}', '}']
  }

  function Text(s: seq<Update>): string {
    if s == [] then [] else Render(s[0]) + Text(s[1..])
  }

  /** What stands between two addresses. */
  function Marker(kind: UpdateType): string {
    ['}', '}', '{', Sign(kind), ' ', '{']
  }

  /** The address contains what stands between two addresses. */
  ghost predicate Embeds(addr: string) {
    exists i, kind :: EmbedsAt(addr, i, kind)
  }

  predicate EmbedsAt(addr: string, i: int, kind: UpdateType) {
    0 <= i <= |addr| - 6 && addr[i..i + 6] == Marker(kind)
  }

  ghost predicate CleanUpdate(u: Update) {
    !Embeds(u.process.addr)
  }

  lemma RenderParts(u: Update, r: string)
    ensures Render(u) + r == ['{', Sign(u.kind), ' ', '{'] + (u.process.addr + (['}', '}'] + r))
  {
  }

  /** If an address is longer than where the other text has its closing braces, it embeds a marker. */
  lemma {:induction false} LongerEmbeds(x: string, rest: seq<Update>, y: string, t: string)
    requires x + (['}', '}'] + Text(rest)) == y + (['}', '}'] + t) && |x| < |y|
    ensures rest != [] && |y| >= |x| + 6
    ensures y == x + Marker(rest[0].kind) + y[|x| + 6..]
  {
    var a, b, z := x + (['}', '}'] + Text(rest)), y + (['}', '}'] + t), y[|x|..];
    assert y[..|x|] == b[..|x|] == a[..|x|] == x;
    assert y == x + z;
    DropPrefix(x, ['}', '}'] + Text(rest), y, ['}', '}'] + t);
    assert rest == [] ==> |['}', '}'] + Text(rest)| == 2;
    assert rest != [];
    var k := rest[0].kind;
    RenderParts(rest[0], Text(rest[1..]));
    var tail := rest[0].process.addr + (['}', '}'] + Text(rest[1..]));
    assert Text(rest) == ['{', Sign(k), ' ', '{'] + tail;
    assert ['}', '}'] + Text(rest) == Marker(k) + tail;
    MarkerFirst(k, tail, z, t);
    assert z[6..] == y[|x| + 6..];
  }

  lemma MarkerFirst(k: UpdateType, tail: string, z: string, t: string)
    requires Marker(k) + tail == z + (['}', '}'] + t) && z != []
    ensures |z| >= 6 && z == Marker(k) + z[6..]
  {
    var a, b := Marker(k) + tail, z + (['}', '}'] + t);
    assert a[2] == '{' && a[3] == Sign(k) && a[4] == ' ' && a[5] == '{';
    assert b[|z|] == '}' && b[|z| + 1] == '}';
    assert |z| >= 6;
    assert z[..6] == b[..6] == a[..6] == Marker(k);
  }

  lemma DropPrefix(x: string, z: string, addr: string, end: string)
    requires x + z == addr + end && |x| <= |addr|
    ensures z == addr[|x|..] + end
  {
    assert z == (x + z)[|x|..] && addr[|x|..] + end == (addr + end)[|x|..];
  }

  /** The first update and the rest can be read off the text. */
  lemma {:induction false} TextSplits(u: Update, rest: seq<Update>, v: Update, rest': seq<Update>)
    requires CleanUpdate(u) && CleanUpdate(v) && Render(u) + Text(rest) == Render(v) + Text(rest')
    ensures u == v && Text(rest) == Text(rest')
  {
    var x, y := u.process.addr, v.process.addr;
    var a, b := Render(u) + Text(rest), Render(v) + Text(rest');
    assert a[1] == Sign(u.kind) && b[1] == Sign(v.kind);
    RenderParts(u, Text(rest));
    RenderParts(v, Text(rest'));
    assert x + (['}', '}'] + Text(rest)) == a[4..] == b[4..] == y + (['}', '}'] + Text(rest'));
    if |x| < |y| {
      LongerEmbeds(x, rest, y, Text(rest'));
      assert EmbedsAt(y, |x|, rest[0].kind);
    } else if |y| < |x| {
      LongerEmbeds(y, rest', x, Text(rest));
      assert EmbedsAt(x, |y|, rest'[0].kind);
    } else {
      assert x == a[4..][..|x|] == b[4..][..|y|] == y;
      assert Text(rest) == a[4..][|x| + 2..] && Text(rest') == b[4..][|y| + 2..];
    }
  }

  /** If no address embeds a marker, the text determines the list. */
  lemma {:induction false} TextIsInjective(s: seq<Update>, t: seq<Update>)
    requires (forall u | u in s :: CleanUpdate(u)) && (forall u | u in t :: CleanUpdate(u))
    requires Text(s) == Text(t)
    ensures s == t
  {
    if s != [] && t != [] {
      TextSplits(s[0], s[1..], t[0], t[1..]);
      TextIsInjective(s[1..], t[1..]);
      assert s == [s[0]] + s[1..] && t == [t[0]] + t[1..];
    }
  }

  /** ViewToViewRef up to the hash. */
  method ViewText(v: View) returns (text: string)
    ensures IsTextOf(text, v)
  {
    var updates := GetUpdates(v);
    var a := new Update[|updates|](i requires 0 <= i < |updates| => updates[i]);
    assert a[..] == updates;
    SortUpdates(a);
    ghost var s := a[..];
    text := [];
    for i := 0 to a.Length
      invariant a[..] == s
      invariant text + Text(a[i..]) == Text(a[..])
    {
      assert a[i..][0] == a[i] && a[i..][1..] == a[i + 1..];
      text := text + Render(a[i]);
    }
    assert a[a.Length..] == [];
  }

  ghost predicate IsTextOf(text: string, v: View) {
    exists s :: Sorted(s) && AsSet(s) == v && text == Text(s)
  }

  /** Two views have the same canonical text if and only if they are equal. */
  lemma TextsAgreeWithViews(v: View, x: string, v': View, x': string)
    requires IsTextOf(x, v) && IsTextOf(x', v')
    requires (forall u | u in v :: CleanUpdate(u)) && (forall u | u in v' :: CleanUpdate(u))
    ensures x == x' <==> v == v'
  {
    var s :| Sorted(s) && AsSet(s) == v && x == Text(s);
    var t :| Sorted(t) && AsSet(t) == v' && x' == Text(t);
    forall u | u in s ensures CleanUpdate(u) { assert u in AsSet(s); }
    forall u | u in t ensures CleanUpdate(u) { assert u in AsSet(t); }
    if x == x' { TextIsInjective(s, t); }
    if v == v' { SortedIsUnique(s, t); }
  }

  /** So comparing references agrees with comparing views, unless the hash collides on them. */
  lemma RefsAgreeWithViews<D>(hash: string -> D, v: View, x: string, v': View, x': string)
    requires IsTextOf(x, v) && IsTextOf(x', v')
    requires (forall u | u in v :: CleanUpdate(u)) && (forall u | u in v' :: CleanUpdate(u))
    requires hash(x) == hash(x') ==> x == x'
    ensures hash(x) == hash(x') <==> v == v'
  {
    TextsAgreeWithViews(v, x, v', x');
  }

  // ----- which views share their text with another one -----

  ghost predicate SameText(v: View, v': View) {
    exists s, t :: Sorted(s) && AsSet(s) == v && Sorted(t) && AsSet(t) == v' && Text(s) == Text(t)
  }

  /** The address of u can be cut in two so that the printing of u is that of a sorted pair. */
  ghost predicate Cuts(u: Update, a: string, kind: UpdateType, b: string) {
    u.process.addr == a + Marker(kind) + b && Less(Update(u.kind, Process(a)), Update(kind, Process(b)))
  }

  lemma TextOfOne(u: Update)
    ensures Text([u]) == Render(u)
  {
    assert [u][1..] == [];
    assert Render(u) + [] == Render(u);
  }

  lemma TextOfTwo(u: Update, v: Update)
    ensures Text([u, v]) == Render(u) + Render(v)
  {
    assert [u, v][1..] == [v];
    TextOfOne(v);
  }

  /** Two updates print like one whose address holds both. */
  lemma RenderJoined(u: Update, v: Update)
    ensures Render(u) + Render(v) == Render(Update(u.kind, Process(u.process.addr + Marker(v.kind) + v.process.addr)))
  {
  }

  /** A cut yields a view of two updates with the same text. */
  lemma CutGivesTwin(u: Update, a: string, kind: UpdateType, b: string)
    requires Cuts(u, a, kind, b)
    ensures SameText({u}, {Update(u.kind, Process(a)), Update(kind, Process(b))})
    ensures {u} != {Update(u.kind, Process(a)), Update(kind, Process(b))}
  {
    var p, q := Update(u.kind, Process(a)), Update(kind, Process(b));
    LessTotal(p, q);
    TextOfOne(u);
    TextOfTwo(p, q);
    RenderJoined(p, q);
    assert Sorted([u]) && AsSet([u]) == {u} && Sorted([p, q]) && AsSet([p, q]) == {p, q};
    assert |p.process.addr| < |u.process.addr|;
  }

  lemma {:induction false} LessThanExtension(a: string, b: string, z: string)
    requires StringLess(a, b)
    ensures StringLess(a, b + z)
  {
    if a != [] && a[0] == b[0] {
      assert (b + z)[1..] == b[1..] + z;
      LessThanExtension(a[1..], b[1..], z);
    }
  }

  /** If the printing of one update is that of a longer sorted list, its address can be cut. */
  lemma TwinMeansCut(u: Update, t: seq<Update>) returns (a: string, kind: UpdateType, b: string)
    requires Sorted(t) && |t| >= 2 && Text(t) == Render(u)
    ensures Cuts(u, a, kind, b)
  {
    var v, rest := t[0], t[1..];
    a, kind := v.process.addr, rest[0].kind;
    var x, y := Render(v) + Text(rest), Render(u) + [];
    assert x == y && x[1] == Sign(v.kind) && y[1] == Sign(u.kind);
    RenderParts(v, Text(rest));
    RenderParts(u, []);
    assert a + (['}', '}'] + Text(rest)) == x[4..] == y[4..] == u.process.addr + (['}', '}'] + []);
    assert Text(rest) == Render(rest[0]) + Text(rest[1..]);
    LongerEmbeds(a, rest, u.process.addr, []);
    b := u.process.addr[|a| + 6..];
    assert Less(v, rest[0]);
    assert ['}', '}'] + [] == ['}', '}'];
    NextAddressIsPrefix(a, rest, u.process.addr);
    if u.kind == kind { LessThanExtension(a, rest[0].process.addr, b[|rest[0].process.addr|..]); }
  }

  lemma {:induction false} NextAddressIsPrefix(a: string, rest: seq<Update>, addr: string)
    requires rest != [] && a + (['}', '}'] + Text(rest)) == addr + ['}', '}']
    requires |addr| >= |a| + 6
    ensures var c := rest[0].process.addr;
            var b := addr[|a| + 6..];
            |c| <= |b| && b == c + b[|c|..]
  {
    var c, k := rest[0].process.addr, Marker(rest[0].kind);
    var z := c + (['}', '}'] + Text(rest[1..]));
    RenderParts(rest[0], Text(rest[1..]));
    assert Text(rest) == Render(rest[0]) + Text(rest[1..]);
    assert a + (['}', '}'] + Text(rest)) == (a + k) + z;
    DropPrefix(a + k, z, addr, ['}', '}']);
    PrefixOf(c, Text(rest[1..]), addr[|a| + 6..]);
  }

  lemma PrefixOf(c: string, t: string, b: string)
    requires c + (['}', '}'] + t) == b + ['}', '}']
    ensures |c| <= |b| && b == c + b[|c|..]
  {
    assert |c + (['}', '}'] + t)| == |c| + 2 + |t|;
    assert b[..|c|] == (b + ['}', '}'])[..|c|] == (c + (['}', '}'] + t))[..|c|] == c;
  }

  // ----- gluing a list together -----

  /** The address that prints like the whole list. */
  function Glue(s: seq<Update>): string
    requires s != []
  {
    if |s| == 1 then s[0].process.addr else s[0].process.addr + Marker(s[1].kind) + Glue(s[1..])
  }

  lemma {:induction false} GlueText(s: seq<Update>)
    requires s != []
    ensures Text(s) == Render(Update(s[0].kind, Process(Glue(s))))
  {
    if |s| == 1 {
      assert s == [s[0]];
      TextOfOne(s[0]);
    } else {
      GlueText(s[1..]);
      var rest := Update(s[1].kind, Process(Glue(s[1..])));
      assert Text(s) == Render(s[0]) + Render(rest);
      RenderJoined(s[0], rest);
    }
  }

  lemma {:induction false} LeastOf(v: View) returns (u: Update)
    requires v != {}
    ensures u in v && forall x | x in v && x != u :: Less(u, x)
    decreases |v|
  {
    u :| u in v;
    var rest := v - {u};
    if rest != {} {
      var w := LeastOf(rest);
      LessTotal(u, w);
      if Less(w, u) {
        u := w;
      } else {
        forall x | x in v && x != u ensures Less(u, x) { if x != w { LessTransitive(u, w, x); } }
      }
    }
  }

  lemma {:induction false} SortedListExists(v: View) returns (s: seq<Update>)
    ensures Sorted(s) && AsSet(s) == v && |s| == |v|
    decreases |v|
  {
    s := [];
    if v != {} {
      var u := LeastOf(v);
      var rest := SortedListExists(v - {u});
      s := [u] + rest;
      forall j | 0 < j < |s| ensures Less(s[0], s[j]) { assert rest[j - 1] in AsSet(rest); }
      assert AsSet(s) == {u} + AsSet(rest);
    }
  }

  /** Every view of two or more updates prints like a view of one. */
  lemma GlueGivesTwin(v: View) returns (u: Update)
    requires |v| >= 2
    ensures SameText(v, {u}) && v != {u}
  {
    var s := SortedListExists(v);
    u := Update(s[0].kind, Process(Glue(s)));
    GlueText(s);
    TextOfOne(u);
    assert Sorted([u]) && AsSet([u]) == {u};
  }

  /** A view shares its text with another one if and only if it has two or more updates, or one
      whose address can be cut. */
  lemma TwinIff(v: View)
    ensures (exists v' :: v' != v && SameText(v, v'))
            <==> |v| >= 2 || exists u, a, kind, b :: v == {u} && Cuts(u, a, kind, b)
  {
    if |v| >= 2 {
      var u := GlueGivesTwin(v);
    } else if u, a, kind, b :| v == {u} && Cuts(u, a, kind, b) {
      CutGivesTwin(u, a, kind, b);
    } else {
      forall v' | SameText(v, v') ensures v' == v { NoOtherTwin(v, v'); }
    }
  }

  lemma NoOtherTwin(v: View, v': View)
    requires |v| < 2 && SameText(v, v') && !exists u, a, kind, b :: v == {u} && Cuts(u, a, kind, b)
    ensures v' == v
  {
    var s, t :| Sorted(s) && AsSet(s) == v && Sorted(t) && AsSet(t) == v' && Text(s) == Text(t);
    SortedIsDistinct(s);
    if |s| == 1 {
      assert s == [s[0]] && v == {s[0]};
      TextOfOne(s[0]);
      if |t| >= 2 {
        var a, kind, b := TwinMeansCut(s[0], t);
        assert false;
      }
      assert t != [];
      assert t == [t[0]] && v' == {t[0]};
      TextOfOne(t[0]);
      RenderInjective(s[0], t[0]);
    } else {
      assert s == [];
      assert t != [] ==> |Text(t)| > 0;
    }
  }

  lemma SortedIsDistinct(s: seq<Update>)
    requires Sorted(s)
    ensures |AsSet(s)| == |s|
  {
    forall i, j | 0 <= i < j < |s| ensures s[i] != s[j] { LessTotal(s[i], s[j]); }
    DistinctCardinality(s);
  }

  lemma RenderInjective(u: Update, v: Update)
    requires Render(u) == Render(v)
    ensures u == v
  {
    assert Render(u)[1] == Sign(u.kind) && Render(v)[1] == Sign(v.kind);
    assert u.process.addr == Render(u)[4..|Render(u)| - 2] && v.process.addr == Render(v)[4..|Render(v)| - 2];
  }
}
