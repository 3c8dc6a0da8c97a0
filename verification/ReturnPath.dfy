/** Where the mission stacks lead: which mission is on top after a start, and to which one a mission that is
    closed returns. */
module ReturnPaths {
  import opened Options
  import opened Sequences
  import opened MissionStacks

  // The bundles of the missions from the bottom to the top, but for those in x.
  function Others(ms: seq<Mission>, x: set<string>): seq<string> {
    if ms == [] then [] else (if ms[0].bundle in x then [] else [ms[0].bundle]) + Others(ms[1..], x)
  }

  function Bundles(ms: seq<Mission>): seq<string> { Others(ms, {}) }

  // The page of the bundle that is shown when its mission is.
  function LastPage(s: Stacks, bundle: string): Option<Page> {
    var ps := PagesOf(s, bundle);
    if ps == [] then None else Some(ps[|ps| - 1])
  }

  function OtherStack(t: StackType): StackType { if t == LAUNCHER then DEFAULT else LAUNCHER }

  // ---------- order ----------

  lemma {:induction false} OthersConcat(a: seq<Mission>, b: seq<Mission>, x: set<string>)
    ensures Others(a + b, x) == Others(a, x) + Others(b, x)
  {
    if a == [] {
      assert a + b == b;
    } else {
      assert (a + b)[1..] == a[1..] + b;
      OthersConcat(a[1..], b, x);
    }
  }

  lemma {:induction false} OthersSame(ms: seq<Mission>, r: seq<Mission>, x: set<string>, y: set<string>)
    requires |r| == |ms|
    requires forall k :: 0 <= k < |ms| ==> r[k].bundle == ms[k].bundle && (ms[k].bundle in x <==> ms[k].bundle in y)
    ensures Others(r, y) == Others(ms, x)
  {
    if ms != [] { OthersSame(ms[1..], r[1..], x, y); }
  }

  // Leaving a mission out is leaving its bundle out.
  lemma OthersWithout(ms: seq<Mission>, i: nat, x: set<string>)
    requires i < |ms| && Distinct(ms)
    ensures Others(Drop(ms, i), x) == Others(ms, x + {ms[i].bundle})
  {
    hide Others;
    var b, a, c := ms[i].bundle, ms[..i], ms[i + 1..];
    OthersOne(ms[i], x + {b});
    OthersConcat(a, c, x);
    OthersConcat(a, [ms[i]] + c, x + {b});
    OthersConcat([ms[i]], c, x + {b});
    assert ms == a + ([ms[i]] + c);
    OthersSame(a, a, x, x + {b});
    OthersSame(c, c, x, x + {b});
  }

  lemma OthersOne(m: Mission, x: set<string>)
    ensures Others([m], x) == if m.bundle in x then [] else [m.bundle]
  {
    assert [m][1..] == [];
  }

  lemma RaisedOrder(ms: seq<Mission>, i: nat, x: set<string>)
    requires i < |ms| && Distinct(ms)
    ensures Others(ToTop(ms, i), x) == Others(ms, x + {ms[i].bundle}) + if ms[i].bundle in x then [] else [ms[i].bundle]
  {
    OthersConcat(Drop(ms, i), [ms[i]], x);
    OthersWithout(ms, i, x);
  }

  lemma DroppedOrder(ms: seq<Mission>, i: nat, x: set<string>)
    requires i < |ms| && Distinct(ms)
    ensures Others(Dropped(ms, i), x) == Others(ms, x + {ms[i].bundle})
  {
    OthersSame(Drop(ms, i), Dropped(ms, i), x, x);
    OthersWithout(ms, i, x);
  }

  // ---------- links ----------

  function LinkUnless(link: Option<string>, gone: string): Option<string> { if link == Some(gone) then None else link }

  lemma RaisedLinks(ms: seq<Mission>, i: nat, b: string)
    requires i < |ms| && Distinct(ms)
    ensures PrevOf(ToTop(ms, i), b) == PrevOf(ms, b)
  {
    IndexWithout(ms, i, b);
    IndexPush(Drop(ms, i), ms[i], b);
  }

  lemma DroppedLinks(ms: seq<Mission>, i: nat, b: string)
    requires i < |ms| && Distinct(ms) && b != ms[i].bundle
    ensures PrevOf(Dropped(ms, i), b) == LinkUnless(PrevOf(ms, b), ms[i].bundle)
  {
    IndexWithout(ms, i, b);
    SamePages(Drop(ms, i), Dropped(ms, i), b);
  }

  lemma ReplacedLinks(ms: seq<Mission>, i: nat, m: Mission, b: string)
    requires i < |ms| && Distinct(ms) && m.bundle == ms[i].bundle
    ensures PrevOf(ms[i := m], b) == if b == m.bundle then m.prev else PrevOf(ms, b)
  {
    IndexOfDistinct(ms, i);
    assert forall j :: 0 <= j < |ms| ==> ms[i := m][j].bundle == ms[j].bundle;
    IndexIs(ms[i := m], b, Index(ms, b));
  }

  // ---------- a mission closed ----------

  // The mission of the bundle, which returned to prev, is gone from ms; r is what is left.
  ghost predicate Closed(ms: seq<Mission>, r: seq<Mission>, bundle: string, prev: Option<string>) {
    && Bundles(r) == (match prev case Some(p) => Others(ms, {bundle, p}) + [p] case None => Others(ms, {bundle}))
    && forall b :: b != bundle ==> PrevOf(r, b) == LinkUnless(PrevOf(ms, b), bundle)
  }

  lemma ClosingReturns(ms: seq<Mission>, i: nat, t: StackType, tokens: nat)
    requires i < |ms| && GoodStack(ms, t, tokens)
    ensures Closed(ms, BackToTop(Dropped(ms, i), ms[i].prev), ms[i].bundle, ms[i].prev)
  {
    var b, d := ms[i].bundle, Dropped(ms, i);
    DroppedOrder(ms, i, {});
    assert {} + {b} == {b};
    forall c | c != b ensures PrevOf(BackToTop(d, ms[i].prev), c) == LinkUnless(PrevOf(ms, c), b) {
      DroppedLinks(ms, i, c);
      BackLinks(d, ms[i].prev, c) by { DroppedKeeps(ms, i, t, tokens); }
    }
    if ms[i].prev.Some? {
      var p := ms[i].prev.value;
      assert GoodLink(ms, ms[i]);
      DroppedKeeps(ms, i, t, tokens);
      HasIndex(d, p);
      RaisedOrder(d, Index(d, p), {});
      DroppedOrder(ms, i, {p});
      assert {} + {p} == {p} && {p} + {b} == {b, p};
    }
  }

  lemma BackLinks(ms: seq<Mission>, prev: Option<string>, b: string)
    requires Distinct(ms)
    ensures PrevOf(BackToTop(ms, prev), b) == PrevOf(ms, b)
  {
    if prev.Some? && Index(ms, prev.value) < |ms| { RaisedLinks(ms, Index(ms, prev.value), b); }
  }

  // The last page of a bundle goes: the mission it returns to is shown where it was shown, in front of the
  // others in their order; without one the launcher stack comes on top. Links to it are gone, all others stay.
  lemma RemovalReturns(s: Stacks, bundle: string, token: nat)
    requires WellFormed(s) && PagesOf(s, bundle) != [] && PagesOf(Removed(s, bundle, token), bundle) == []
    ensures var t, s' := StackFor(bundle), Removed(s, bundle, token);
            var prev := PrevOf(Of(s, t), bundle);
            && Closed(Of(s, t), Of(s', t), bundle, prev) && Of(s', OtherStack(t)) == Of(s, OtherStack(t))
            && s'.top == (if prev.Some? then s.top else Some(LAUNCHER))
            && (prev.Some? && s.top == Some(t) ==> Foreground(s').Some? && Foreground(s') == LastPage(s, prev.value))
  {
    var t, s' := StackFor(bundle), Removed(s, bundle, token);
    var ms := Of(s, t);
    var i := Index(ms, bundle);
    hide Foreground, LastPage;
    CutsAll(s, bundle, token);
    ClosingReturns(ms, i, t, s.tokens);
    if ms[i].prev.Some? && s.top == Some(t) {
      assert GoodLink(ms, ms[i]);
      assert WellFormed(s') by { RemovedKeeps(s, bundle, token); }
      RemovedPages(s, bundle, token, ms[i].prev.value);
      ReturnIsShown(s, s', t, Others(ms, {bundle, ms[i].prev.value}), ms[i].prev.value);
    }
  }

  // The mission that came on top shows the page it showed before.
  lemma ReturnIsShown(s: Stacks, s': Stacks, t: StackType, others: seq<string>, prev: string)
    requires WellFormed(s') && Bundles(Of(s', t)) == others + [prev] && s'.top == Some(t)
    requires PagesOf(s', prev) == PagesOf(s, prev)
    ensures Foreground(s').Some? && Foreground(s') == LastPage(s, prev)
  {
    LastIs(Of(s', t), others, prev);
    LastIsShown(s', t, prev);
  }

  lemma CutsAll(s: Stacks, bundle: string, token: nat)
    requires WellFormed(s) && PagesOf(s, bundle) != [] && PagesOf(Removed(s, bundle, token), bundle) == []
    ensures var ms := Of(s, StackFor(bundle));
            var i := Index(ms, bundle);
            && i < |ms| && ms[i].pages[..PageIndex(ms[i].pages, token)] == []
            && Of(Removed(s, bundle, token), StackFor(bundle)) == BackToTop(Dropped(ms, i), ms[i].prev)
  {
    RemovedPages(s, bundle, token, bundle);
  }

  lemma {:induction false} LastIs(ms: seq<Mission>, a: seq<string>, b: string)
    requires Bundles(ms) == a + [b]
    ensures ms != [] && ms[|ms| - 1].bundle == b
  {
    assert ms != [];
    var n := |ms| - 1;
    assert ms == ms[..n] + [ms[n]];
    OthersConcat(ms[..n], [ms[n]], {});
    OthersOne(ms[n], {});
    assert Bundles(ms)[|Bundles(ms)| - 1] == ms[n].bundle;
  }

  // The last mission of the stack on top shows its last page.
  lemma LastIsShown(s: Stacks, t: StackType, b: string)
    requires WellFormed(s) && Of(s, t) != [] && Of(s, t)[|Of(s, t)| - 1].bundle == b && s.top == Some(t)
    ensures Foreground(s).Some? && Foreground(s) == LastPage(s, b)
  {
    var ms := Of(s, t);
    assert GoodPages(ms[|ms| - 1].bundle, ms[|ms| - 1].pages, s.tokens);
    PagesAre(ms, |ms| - 1);
  }

  // As long as pages are left, nothing moves.
  lemma RemovalStays(s: Stacks, bundle: string, token: nat)
    requires WellFormed(s) && (PagesOf(s, bundle) == [] || PagesOf(Removed(s, bundle, token), bundle) != [])
    ensures var t, s' := StackFor(bundle), Removed(s, bundle, token);
            && Bundles(Of(s', t)) == Bundles(Of(s, t)) && Of(s', OtherStack(t)) == Of(s, OtherStack(t))
            && s'.top == s.top && forall b :: PrevOf(Of(s', t), b) == PrevOf(Of(s, t), b)
  {
    var ms := Of(s, StackFor(bundle));
    var i := Index(ms, bundle);
    if i < |ms| {
      assert GoodPages(ms[i].bundle, ms[i].pages, s.tokens);
      RemovedPages(s, bundle, token, bundle);
      var m := ms[i].(pages := ms[i].pages[..PageIndex(ms[i].pages, token)]);
      forall b ensures PrevOf(ms[i := m], b) == PrevOf(ms, b) {
        ReplacedLinks(ms, i, m, b);
        IndexOfDistinct(ms, i);
      }
      OthersSame(ms, ms[i := m], {}, {});
    }
  }

  // ---------- an application cleared ----------

  // All pages of a bundle go at once. The mission it returns to comes on top of its stack, whether or not the
  // bundle was shown; without one the launcher stack comes on top if it was.
  lemma ClearReturns(s: Stacks, bundle: string)
    requires WellFormed(s) && PagesOf(s, bundle) != []
    ensures var t, s' := StackFor(bundle), Cleared(s, bundle);
            var prev, shown := PrevOf(Of(s, t), bundle), Foreground(s).Some? && Foreground(s).value.bundle == bundle;
            && Closed(Of(s, t), Of(s', t), bundle, prev) && Of(s', OtherStack(t)) == Of(s, OtherStack(t))
            && s'.top == (if prev.None? && shown then Some(LAUNCHER) else s.top)
            && (prev.Some? && s.top == Some(t) ==> Foreground(s').Some? && Foreground(s') == LastPage(s, prev.value))
  {
    hide Cleared, ClearedMissions, Foreground, LastPage, GoodStack;
    var t, s' := StackFor(bundle), Cleared(s, bundle);
    var ms := Of(s, t);
    var prev := PrevOf(ms, bundle);
    ClearedStacks(s, bundle);
    ClearingReturns(ms, Index(ms, bundle), t, s.tokens);
    if prev.Some? && s.top == Some(t) {
      assert GoodLink(ms, ms[Index(ms, bundle)]) by { LinkIsGood(ms, Index(ms, bundle), t, s.tokens); }
      assert WellFormed(s') by { ClearedKeeps(s, bundle); }
      ClearedPages(s, bundle, prev.value);
      ReturnIsShown(s, s', t, Others(ms, {bundle, prev.value}), prev.value);
    }
  }

  lemma LinkIsGood(ms: seq<Mission>, i: nat, t: StackType, tokens: nat)
    requires i < |ms| && GoodStack(ms, t, tokens)
    ensures GoodLink(ms, ms[i])
  {
  }

  lemma ClearedStacks(s: Stacks, bundle: string)
    requires WellFormed(s) && PagesOf(s, bundle) != []
    ensures var t, s' := StackFor(bundle), Cleared(s, bundle);
            var prev, shown := PrevOf(Of(s, t), bundle), Foreground(s).Some? && Foreground(s).value.bundle == bundle;
            && Index(Of(s, t), bundle) < |Of(s, t)|
            && Of(s', t) == ClearedMissions(Of(s, t), bundle) && Of(s', OtherStack(t)) == Of(s, OtherStack(t))
            && s'.top == (if prev.None? && shown then Some(LAUNCHER) else s.top)
  {
    hide ClearedMissions, Foreground;
    ShownIs(s, bundle);
    ClearedIs(s, bundle);
  }

  lemma ShownIs(s: Stacks, bundle: string)
    requires WellFormed(s)
    ensures IsShown(s, bundle) <==> Foreground(s).Some? && Foreground(s).value.bundle == bundle
  {
    var ms := if s.top.Some? then Of(s, s.top.value) else [];
    if ms != [] { assert GoodPages(ms[|ms| - 1].bundle, ms[|ms| - 1].pages, s.tokens); }
  }

  lemma ClearingReturns(ms: seq<Mission>, i: nat, t: StackType, tokens: nat)
    requires i < |ms| && GoodStack(ms, t, tokens)
    ensures Closed(ms, ClearedMissions(ms, ms[i].bundle), ms[i].bundle, ms[i].prev)
  {
    hide Others, GoodPages;
    var b, back := ms[i].bundle, BackToTop(ms, ms[i].prev);
    IndexOfDistinct(ms, i);
    BackToTopKeeps(ms, ms[i].prev, t, tokens);
    HasIndex(back, b);
    var k := Index(back, b);
    assert ClearedMissions(ms, b) == Dropped(back, k);
    ClearingOrder(ms, i, back, k, t, tokens);
    forall c | c != b ensures PrevOf(Dropped(back, k), c) == LinkUnless(PrevOf(ms, c), b) {
      DroppedLinks(back, k, c);
      BackLinks(ms, ms[i].prev, c);
    }
  }

  lemma ClearingOrder(ms: seq<Mission>, i: nat, back: seq<Mission>, k: nat, t: StackType, tokens: nat)
    requires i < |ms| && GoodStack(ms, t, tokens) && back == BackToTop(ms, ms[i].prev)
    requires k < |back| && back[k].bundle == ms[i].bundle && Distinct(back)
    ensures Bundles(Dropped(back, k)) == match ms[i].prev
                                         case Some(p) => Others(ms, {ms[i].bundle, p}) + [p]
                                         case None => Others(ms, {ms[i].bundle})
  {
    hide Others, GoodPages;
    var b := ms[i].bundle;
    DroppedOrder(back, k, {});
    assert {} + {b} == {b};
    if ms[i].prev.Some? {
      var p := ms[i].prev.value;
      assert GoodLink(ms, ms[i]);
      HasIndex(ms, p);
      RaisedOrder(ms, Index(ms, p), {b});
      assert {b} + {p} == {b, p};
    }
  }

  // Clearing an application that is not shown switches to another one exactly if it returns to one other than
  // the one that is shown, on the stack that is.
  lemma HiddenClearSwitches(s: Stacks, bundle: string)
    requires WellFormed(s) && PagesOf(s, bundle) != []
    requires Foreground(s).Some? && Foreground(s).value.bundle != bundle
    ensures var prev := PrevOf(Of(s, StackFor(bundle)), bundle);
            Foreground(Cleared(s, bundle)) != Foreground(s)
            <==> s.top == Some(StackFor(bundle)) && prev.Some? && prev.value != Foreground(s).value.bundle
  {
    hide Cleared, Closed, GoodStack, Foreground;
    var t, s' := StackFor(bundle), Cleared(s, bundle);
    var prev, shown := PrevOf(Of(s, t), bundle), Foreground(s).value.bundle;
    ClearReturns(s, bundle);
    if s.top == Some(t) {
      ShownIsLast(s, t, shown);
      if prev.None? {
        StillLast(s, bundle, shown);
      } else {
        LastPageBundle(s, prev.value);
      }
    } else {
      SameForeground(s, s');
    }
  }

  lemma SameForeground(s: Stacks, s': Stacks)
    requires s'.top == s.top && (s.top.Some? ==> Of(s', s.top.value) == Of(s, s.top.value))
    ensures Foreground(s') == Foreground(s)
  {
  }

  lemma ShownIsLast(s: Stacks, t: StackType, shown: string)
    requires WellFormed(s) && s.top == Some(t) && Foreground(s).Some? && Foreground(s).value.bundle == shown
    ensures Of(s, t) != [] && Of(s, t)[|Of(s, t)| - 1].bundle == shown && Foreground(s) == LastPage(s, shown)
  {
    ForegroundIsLast(s);
    LastIsShown(s, t, shown);
  }

  lemma LastPageBundle(s: Stacks, bundle: string)
    requires WellFormed(s) && LastPage(s, bundle).Some?
    ensures LastPage(s, bundle).value.bundle == bundle
  {
    var ms := Of(s, StackFor(bundle));
    assert GoodPages(bundle, ms[Index(ms, bundle)].pages, s.tokens);
  }

  // Nothing comes in front of the mission that was last.
  lemma StillLast(s: Stacks, bundle: string, shown: string)
    requires WellFormed(s) && s.top == Some(StackFor(bundle)) && shown != bundle && PagesOf(s, bundle) != []
    requires var ms := Of(s, StackFor(bundle));
             ms != [] && ms[|ms| - 1].bundle == shown && PrevOf(ms, bundle).None? && Foreground(s) == LastPage(s, shown)
    requires Foreground(s).Some? && Foreground(s).value.bundle == shown
    ensures Foreground(Cleared(s, bundle)) == Foreground(s)
  {
    hide Cleared, GoodStack, Foreground, Others, LastPage;
    var t, s' := StackFor(bundle), Cleared(s, bundle);
    ClearReturns(s, bundle);
    var rest := OthersLast(Of(s, t), {bundle});
    assert WellFormed(s') by { ClearedKeeps(s, bundle); }
    ClearedPages(s, bundle, shown);
    ReturnIsShown(s, s', t, rest, shown);
  }

  lemma OthersLast(ms: seq<Mission>, x: set<string>) returns (rest: seq<string>)
    requires ms != [] && ms[|ms| - 1].bundle !in x
    ensures Others(ms, x) == rest + [ms[|ms| - 1].bundle]
  {
    var n := |ms| - 1;
    rest := Others(ms[..n], x);
    assert ms == ms[..n] + [ms[n]];
    OthersConcat(ms[..n], [ms[n]], x);
    OthersOne(ms[n], x);
  }

  lemma ClearOfNothing(s: Stacks, bundle: string)
    requires WellFormed(s) && PagesOf(s, bundle) == []
    ensures Cleared(s, bundle) == s
  {
    var ms := Of(s, StackFor(bundle));
    var i := Index(ms, bundle);
    assert i < |ms| ==> GoodPages(ms[i].bundle, ms[i].pages, s.tokens);
  }

  // ---------- a start ----------

  // Where the mission of a started page returns to: an application started from an application, to the one that
  // was on top; otherwise to where it returned before.
  function LinkAfterStart(ms: seq<Mission>, target: Target, topAbility: Option<Page>): Option<string> {
    if topAbility.Some? && topAbility.value.bundle != "com.huawei.launcher" && target.bundle != "com.huawei.launcher"
       && ms != [] && ms[|ms| - 1].bundle != target.bundle
    then Some(ms[|ms| - 1].bundle)
    else PrevOf(ms, target.bundle)
  }

  // The mission of the page comes on top, the others keep their order and their links.
  lemma StartRaises(s: Stacks, target: Target, want: Option<Element>, topAbility: Option<Page>)
    requires WellFormed(s) && target.name.Some?
    ensures var t, s' := StackFor(target.bundle), Generated(s, target, want, topAbility).0;
            var ms, r := Of(s, t), Of(s', t);
            && Bundles(r) == Others(ms, {target.bundle}) + [target.bundle]
            && s'.top == Some(t) && Of(s', OtherStack(t)) == Of(s, OtherStack(t))
            && forall b :: PrevOf(r, b) == if b == target.bundle then LinkAfterStart(ms, target, topAbility)
                                           else PrevOf(ms, b)
  {
    hide Started, LinkAfterStart;
    var ms := Of(s, StackFor(target.bundle));
    var reuse := Reuses(ms, target, want, topAbility);
    StartedIs(ms, target, Generated(s, target, want, topAbility).1.value, reuse, topAbility);
  }

  lemma StartedIs(ms: seq<Mission>, target: Target, page: Page, reuse: bool, topAbility: Option<Page>)
    requires Distinct(ms) && (reuse ==> Index(ms, target.bundle) < |ms|)
    ensures var r := Started(ms, target, page, reuse, Links(ms, target, topAbility));
            && Bundles(r) == Others(ms, {target.bundle}) + [target.bundle]
            && forall b :: PrevOf(r, b) == if b == target.bundle then LinkAfterStart(ms, target, topAbility)
                                           else PrevOf(ms, b)
  {
    hide Raised, Linked, Others, PrevOf;
    RaisedIs(ms, target, page, reuse);
    if Links(ms, target, topAbility) { LinkedIs(Raised(ms, target, page, reuse), ms[|ms| - 1].bundle); }
  }

  lemma LinkedIs(ms: seq<Mission>, prev: string)
    requires ms != [] && Distinct(ms)
    ensures Bundles(Linked(ms, prev)) == Bundles(ms)
    ensures forall b :: PrevOf(Linked(ms, prev), b) == if b == ms[|ms| - 1].bundle then Some(prev) else PrevOf(ms, b)
  {
    var m := ms[|ms| - 1].(prev := Some(prev));
    OthersSame(ms, Linked(ms, prev), {}, {});
    forall b { ReplacedLinks(ms, |ms| - 1, m, b); }
  }

  lemma RaisedIs(ms: seq<Mission>, target: Target, page: Page, reuse: bool)
    requires Distinct(ms) && (reuse ==> Index(ms, target.bundle) < |ms|)
    ensures var r := Raised(ms, target, page, reuse);
            && Bundles(r) == Others(ms, {target.bundle}) + [target.bundle] && Distinct(r)
            && r != [] && r[|r| - 1].bundle == target.bundle && forall b :: PrevOf(r, b) == PrevOf(ms, b)
  {
    var b, i := target.bundle, Index(ms, target.bundle);
    RaisedPages(ms, target, page, reuse, b);
    assert {} + {b} == {b};
    if i == |ms| {
      NewIs(ms, Mission(b, [page], None));
    } else if reuse {
      RaisedOrder(ms, i, {});
      forall c ensures PrevOf(ToTop(ms, i), c) == PrevOf(ms, c) { RaisedLinks(ms, i, c); }
    } else {
      var with := WithPage(ms, i, page);
      WithPagePages(ms, i, page, b);
      RaisedOrder(with, i, {});
      OthersSame(ms, with, {b}, {b});
      forall c ensures PrevOf(ToTop(with, i), c) == PrevOf(ms, c) {
        RaisedLinks(with, i, c);
        ReplacedLinks(ms, i, with[i], c);
      }
    }
  }

  lemma NewIs(ms: seq<Mission>, m: Mission)
    requires Index(ms, m.bundle) == |ms| && m.prev.None?
    ensures Bundles(ms + [m]) == Others(ms, {m.bundle}) + [m.bundle]
    ensures forall b :: PrevOf(ms + [m], b) == PrevOf(ms, b)
  {
    OthersConcat(ms, [m], {});
    OthersOne(m, {});
    OthersSame(ms, ms, {}, {m.bundle});
    forall b ensures PrevOf(ms + [m], b) == PrevOf(ms, b) { IndexPush(ms, m, b); }
  }

  // A start makes no new page exactly if the target has a mission and comes from nowhere, from the launcher
  // or to it, is the shared JS ability, or is wanted by the names of the page that mission shows.
  lemma ShowsAgain(s: Stacks, target: Target, want: Option<Element>, topAbility: Option<Page>)
    requires WellFormed(s) && target.name.Some?
    ensures var s', last := Generated(s, target, want, topAbility).0, LastPage(s, target.bundle);
            PagesOf(s', target.bundle) == PagesOf(s, target.bundle)
            <==> last.Some? && (|| topAbility == None || target.name == Some("AceAbility")
                                || (topAbility.value.bundle == "com.huawei.launcher"
                                    <==> target.bundle != "com.huawei.launcher")
                                || want == Some(Element(Some(target.bundle), Some(last.value.name))))
  {
    hide Generated, Reuses;
    GeneratedPages(s, target, want, topAbility, target.bundle);
    ReuseIs(s, target, want, topAbility);
  }

  lemma ReuseIs(s: Stacks, target: Target, want: Option<Element>, topAbility: Option<Page>)
    requires WellFormed(s)
    ensures var last := LastPage(s, target.bundle);
            Reuses(Of(s, StackFor(target.bundle)), target, want, topAbility)
            <==> last.Some? && (|| topAbility == None || target.name == Some("AceAbility")
                                || (topAbility.value.bundle == "com.huawei.launcher"
                                    <==> target.bundle != "com.huawei.launcher")
                                || want == Some(Element(Some(target.bundle), Some(last.value.name))))
  {
    var ms := Of(s, StackFor(target.bundle));
    var i := Index(ms, target.bundle);
    if i < |ms| { assert GoodPages(ms[i].bundle, ms[i].pages, s.tokens); }
  }
}
