/** Mission stacks of the small-system service: two stacks of per-bundle missions, each a stack of pages. */
module MissionStacks {
  import opened Options
  import opened Sequences

  const LAUNCHER_BUNDLE_NAME := "com.huawei.launcher"
  const ACE_ABILITY_NAME := "AceAbility"

  predicate IsLauncher(bundle: string) { bundle == LAUNCHER_BUNDLE_NAME }

  datatype Page = Page(token: nat, bundle: string, name: string)

  // prev is the bundle of the mission this one returns to.
  datatype Mission = Mission(bundle: string, pages: seq<Page>, prev: Option<string>)

  datatype StackType = LAUNCHER | DEFAULT

  // The last mission of a stack, and the last page of a mission, is the top one; tokens counts those generated.
  datatype Stacks = Stacks(launcher: seq<Mission>, default_: seq<Mission>, top: Option<StackType>, tokens: nat)

  function Of(s: Stacks, t: StackType): seq<Mission> { if t == LAUNCHER then s.launcher else s.default_ }

  function With(s: Stacks, t: StackType, ms: seq<Mission>): Stacks {
    if t == LAUNCHER then s.(launcher := ms) else s.(default_ := ms)
  }

  function StackFor(bundle: string): StackType { if IsLauncher(bundle) then LAUNCHER else DEFAULT }

  // ---------- one stack ----------

  function Index(ms: seq<Mission>, bundle: string): (r: nat)
    ensures r <= |ms| && (r < |ms| ==> ms[r].bundle == bundle)
    ensures forall j :: 0 <= j < r ==> ms[j].bundle != bundle
  {
    if ms == [] || ms[0].bundle == bundle then 0 else 1 + Index(ms[1..], bundle)
  }

  function PageIndex(ps: seq<Page>, token: nat): (r: nat)
    ensures r <= |ps| && (r < |ps| ==> ps[r].token == token)
    ensures forall j :: 0 <= j < r ==> ps[j].token != token
  {
    if ps == [] || ps[0].token == token then 0 else 1 + PageIndex(ps[1..], token)
  }

  // The mission of the page with this token, as a position or the length.
  function Holding(ms: seq<Mission>, token: nat): (r: nat)
    ensures r <= |ms| && (r < |ms| ==> PageIndex(ms[r].pages, token) < |ms[r].pages|)
    ensures forall j :: 0 <= j < r ==> PageIndex(ms[j].pages, token) == |ms[j].pages|
  {
    if ms == [] || PageIndex(ms[0].pages, token) < |ms[0].pages| then 0 else 1 + Holding(ms[1..], token)
  }

  // The bundle of the page with this token.
  function PageBundle(s: Stacks, token: nat): Option<string> {
    var d, l := Holding(s.default_, token), Holding(s.launcher, token);
    if d < |s.default_| then Some(s.default_[d].bundle)
    else if l < |s.launcher| then Some(s.launcher[l].bundle)
    else None
  }

  // The bundle has a mission.
  predicate ExistApp(s: Stacks, bundle: string) {
    var ms := Of(s, StackFor(bundle));
    Index(ms, bundle) < |ms|
  }

  function ToTop(ms: seq<Mission>, i: nat): seq<Mission>
    requires i < |ms|
  {
    Drop(ms, i) + [ms[i]]
  }

  // No link leads to bundle any more.
  function Unlink(ms: seq<Mission>, bundle: string): seq<Mission> {
    seq(|ms|, k requires 0 <= k < |ms| => if ms[k].prev == Some(bundle) then ms[k].(prev := None) else ms[k])
  }

  function Dropped(ms: seq<Mission>, i: nat): seq<Mission>
    requires i < |ms|
  {
    Unlink(Drop(ms, i), ms[i].bundle)
  }

  // ---------- well-formed stacks ----------

  ghost predicate Has(ms: seq<Mission>, bundle: string) {
    exists i :: 0 <= i < |ms| && ms[i].bundle == bundle
  }

  ghost predicate GoodPages(bundle: string, pages: seq<Page>, tokens: nat) {
    && pages != []
    && forall k :: 0 <= k < |pages| ==> pages[k].bundle == bundle && pages[k].token < tokens
  }

  ghost predicate GoodLink(ms: seq<Mission>, m: Mission) {
    m.prev.Some? ==> m.prev.value != m.bundle && Has(ms, m.prev.value)
  }

  ghost predicate GoodStack(ms: seq<Mission>, t: StackType, tokens: nat) {
    && (forall i, j :: 0 <= i < j < |ms| ==> ms[i].bundle != ms[j].bundle)
    && (forall i :: 0 <= i < |ms| ==> StackFor(ms[i].bundle) == t)
    && (forall i :: 0 <= i < |ms| ==> GoodPages(ms[i].bundle, ms[i].pages, tokens))
    && (forall i :: 0 <= i < |ms| ==> GoodLink(ms, ms[i]))
  }

  // One non-empty mission a bundle, the launcher's on the launcher stack and every other on the default one,
  // links only to other live missions of the same stack, and a default stack on top is not empty.
  ghost predicate WellFormed(s: Stacks) {
    && GoodStack(s.launcher, LAUNCHER, s.tokens)
    && GoodStack(s.default_, DEFAULT, s.tokens)
    && (s.top == Some(DEFAULT) ==> s.default_ != [])
  }

  const EMPTY := Stacks([], [], None, 0)

  lemma ToTopKeeps(ms: seq<Mission>, i: nat, t: StackType, tokens: nat)
    requires i < |ms| && GoodStack(ms, t, tokens)
    ensures GoodStack(ToTop(ms, i), t, tokens)
    ensures forall b :: Has(ToTop(ms, i), b) <==> Has(ms, b)
  {
    var r := ToTop(ms, i);
    forall b ensures Has(r, b) <==> Has(ms, b) {
      if Has(ms, b) {
        var k :| 0 <= k < |ms| && ms[k].bundle == b;
        assert r[if k < i then k else if k == i then |ms| - 1 else k - 1] == ms[k];
      }
    }
    assert forall k :: 0 <= k < |r| ==> r[k] == ms[if k == |ms| - 1 then i else if k < i then k else k + 1];
  }

  // Where a mission that stays was before the i-th one went.
  function Was(i: nat, k: nat): nat { if k < i then k else k + 1 }

  lemma DroppedHas(ms: seq<Mission>, i: nat, b: string)
    requires i < |ms| && forall j, k :: 0 <= j < k < |ms| ==> ms[j].bundle != ms[k].bundle
    ensures Has(Dropped(ms, i), b) <==> Has(ms, b) && b != ms[i].bundle
  {
    var r := Dropped(ms, i);
    assert forall k :: 0 <= k < |r| ==> r[k].bundle == ms[Was(i, k)].bundle;
    if Has(ms, b) && b != ms[i].bundle {
      var k :| 0 <= k < |ms| && ms[k].bundle == b;
      assert r[if k < i then k else k - 1].bundle == b;
    }
  }

  lemma DroppedKeeps(ms: seq<Mission>, i: nat, t: StackType, tokens: nat)
    requires i < |ms| && GoodStack(ms, t, tokens)
    ensures GoodStack(Dropped(ms, i), t, tokens)
    ensures forall b :: Has(Dropped(ms, i), b) <==> Has(ms, b) && b != ms[i].bundle
  {
    var r := Dropped(ms, i);
    forall b ensures Has(r, b) <==> Has(ms, b) && b != ms[i].bundle { DroppedHas(ms, i, b); }
    forall k | 0 <= k < |r|
      ensures r[k].bundle == ms[Was(i, k)].bundle && GoodPages(r[k].bundle, r[k].pages, tokens) && GoodLink(r, r[k])
    {
      assert GoodLink(ms, ms[Was(i, k)]) && GoodPages(ms[Was(i, k)].bundle, ms[Was(i, k)].pages, tokens);
    }
  }

  // A mission's pages and link may change, and a mission may come on top.
  lemma ReplaceKeeps(ms: seq<Mission>, i: nat, m: Mission, t: StackType, tokens: nat, tokens': nat)
    requires i < |ms| && GoodStack(ms, t, tokens) && tokens <= tokens'
    requires m.bundle == ms[i].bundle && GoodPages(m.bundle, m.pages, tokens') && GoodLink(ms, m)
    ensures GoodStack(ms[i := m], t, tokens')
    ensures forall b :: Has(ms[i := m], b) <==> Has(ms, b)
  {
    var r := ms[i := m];
    assert forall k :: 0 <= k < |ms| ==> r[k].bundle == ms[k].bundle;
    forall b ensures Has(r, b) <==> Has(ms, b) {
      if Has(ms, b) {
        var k :| 0 <= k < |ms| && ms[k].bundle == b;
        assert r[k].bundle == b;
      }
    }
    forall k | 0 <= k < |r|
      ensures GoodPages(r[k].bundle, r[k].pages, tokens') && GoodLink(r, r[k])
    {
      assert k != i ==> GoodLink(ms, ms[k]) && r[k] == ms[k];
    }
  }

  lemma PushKeeps(ms: seq<Mission>, m: Mission, t: StackType, tokens: nat, tokens': nat)
    requires GoodStack(ms, t, tokens) && tokens <= tokens' && !Has(ms, m.bundle)
    requires StackFor(m.bundle) == t && GoodPages(m.bundle, m.pages, tokens') && GoodLink(ms, m)
    ensures GoodStack(ms + [m], t, tokens')
    ensures forall b :: Has(ms + [m], b) <==> Has(ms, b) || b == m.bundle
  {
    var r := ms + [m];
    forall b ensures Has(r, b) <==> Has(ms, b) || b == m.bundle {
      if Has(ms, b) {
        var k :| 0 <= k < |ms| && ms[k].bundle == b;
        assert r[k].bundle == b;
      } else if b == m.bundle {
        assert r[|ms|].bundle == b;
      }
    }
    forall k | 0 <= k < |r|
      ensures GoodPages(r[k].bundle, r[k].pages, tokens') && GoodLink(r, r[k])
    {
      assert k < |ms| ==> GoodLink(ms, ms[k]) && r[k] == ms[k];
    }
  }

  lemma MoreTokens(ms: seq<Mission>, t: StackType, tokens: nat, tokens': nat)
    requires GoodStack(ms, t, tokens) && tokens <= tokens'
    ensures GoodStack(ms, t, tokens')
  {
    assert forall i :: 0 <= i < |ms| ==> GoodPages(ms[i].bundle, ms[i].pages, tokens);
  }

  // ---------- generate, remove, clear ----------

  // The ability to start, and the names its want asks for; None is a null pointer.
  datatype Target = Target(name: Option<string>, bundle: string)
  datatype Element = Element(bundle: Option<string>, ability: Option<string>)

  function TopPage(m: Mission): Page
    requires m.pages != []
  {
    m.pages[|m.pages| - 1]
  }

  // The page on top of the top stack.
  function Foreground(s: Stacks): Option<Page> {
    if s.top.None? then None
    else
      var ms := Of(s, s.top.value);
      if ms == [] || ms[|ms| - 1].pages == [] then None else Some(TopPage(ms[|ms| - 1]))
  }

  predicate IsAce(target: Target) { target.name == Some(ACE_ABILITY_NAME) }

  // From nowhere, from the launcher to an application or back, or the shared JS ability.
  predicate Crosses(target: Target, topAbility: Option<Page>) {
    topAbility.None? || IsAce(target) || IsLauncher(topAbility.value.bundle) != IsLauncher(target.bundle)
  }

  predicate SamePage(p: Page, want: Option<Element>) {
    want.Some? && want.value.bundle == Some(p.bundle) && want.value.ability == Some(p.name)
  }

  // The page on top of the target's mission is shown again instead of a new one.
  predicate Reuses(ms: seq<Mission>, target: Target, want: Option<Element>, topAbility: Option<Page>) {
    var i := Index(ms, target.bundle);
    i < |ms| && ms[i].pages != [] && (Crosses(target, topAbility) || SamePage(TopPage(ms[i]), want))
  }

  function WithPage(ms: seq<Mission>, i: nat, page: Page): (r: seq<Mission>)
    requires i < |ms|
    ensures |r| == |ms|
  {
    ms[i := ms[i].(pages := ms[i].pages + [page])]
  }

  // The target mission's list position after a start, with its pages, before its link is set.
  function Raised(ms: seq<Mission>, target: Target, page: Page, reuse: bool): seq<Mission> {
    var i := Index(ms, target.bundle);
    if i == |ms| then ms + [Mission(target.bundle, [page], None)]
    else if reuse then ToTop(ms, i)
    else ToTop(WithPage(ms, i, page), i)
  }

  // An application started from an application returns to the one that was on top.
  predicate Links(ms: seq<Mission>, target: Target, topAbility: Option<Page>) {
    && topAbility.Some? && !IsLauncher(topAbility.value.bundle) && !IsLauncher(target.bundle)
    && ms != [] && ms[|ms| - 1].bundle != target.bundle
  }

  function Linked(ms: seq<Mission>, prev: string): seq<Mission>
    requires ms != []
  {
    ms[|ms| - 1 := ms[|ms| - 1].(prev := Some(prev))]
  }

  // The stack a start leaves behind.
  function Started(ms: seq<Mission>, target: Target, page: Page, reuse: bool, links: bool): seq<Mission> {
    var raised := Raised(ms, target, page, reuse);
    if links && raised != [] && ms != [] then Linked(raised, ms[|ms| - 1].bundle) else raised
  }

  // What a start shows, once it is known whether that is the page already there.
  function Showing(s: Stacks, target: Target, page: Page, reuse: bool, topAbility: Option<Page>): Stacks {
    var t := StackFor(target.bundle);
    var ms := Of(s, t);
    With(s, t, Started(ms, target, page, reuse, Links(ms, target, topAbility))).(
      top := Some(t), tokens := if reuse then s.tokens else s.tokens + 1)
  }

  function Generated(s: Stacks, target: Target, want: Option<Element>, topAbility: Option<Page>)
    : (Stacks, Option<Page>)
  {
    if target.name.None? then (s, None)
    else
      var ms := Of(s, StackFor(target.bundle));
      var reuse := Reuses(ms, target, want, topAbility);
      var page := if reuse then TopPage(ms[Index(ms, target.bundle)])
                  else Page(s.tokens, target.bundle, target.name.value);
      (Showing(s, target, page, reuse, topAbility), Some(page))
  }

  function BackToTop(ms: seq<Mission>, prev: Option<string>): seq<Mission> {
    var back := if prev.Some? then Index(ms, prev.value) else |ms|;
    if back < |ms| then ToTop(ms, back) else ms
  }

  // The page with this token goes from the i-th mission with every page above it; an emptied mission goes too,
  // and the one it returns to comes on top.
  function Cut(ms: seq<Mission>, i: nat, token: nat): seq<Mission>
    requires i < |ms|
  {
    var kept := ms[i].pages[..PageIndex(ms[i].pages, token)];
    if kept != [] then ms[i := ms[i].(pages := kept)] else BackToTop(Dropped(ms, i), ms[i].prev)
  }

  // Nothing is left of the mission and it returns to none: the launcher stack is shown.
  predicate EndsAtLauncher(m: Mission, token: nat) { m.pages[..PageIndex(m.pages, token)] == [] && m.prev.None? }

  function Removed(s: Stacks, bundle: string, token: nat): Stacks {
    var t := StackFor(bundle);
    var ms := Of(s, t);
    var i := Index(ms, bundle);
    if i == |ms| then s
    else With(s, t, Cut(ms, i, token)).(top := if EndsAtLauncher(ms[i], token) then Some(LAUNCHER) else s.top)
  }

  function Forget(ms: seq<Mission>, bundle: string): seq<Mission> {
    var i := Index(ms, bundle);
    if i < |ms| then Dropped(ms, i) else ms
  }

  predicate IsShown(s: Stacks, bundle: string) {
    var ms := if s.top.Some? then Of(s, s.top.value) else [];
    ms != [] && ms[|ms| - 1].bundle == bundle
  }

  // Before a bundle's mission goes, the one it returns to comes on top.
  function PreviousRaised(s: Stacks, bundle: string): Stacks {
    var ms := Of(s, StackFor(bundle));
    var i := Index(ms, bundle);
    if i < |ms| then With(s, StackFor(bundle), BackToTop(ms, ms[i].prev)) else s
  }

  predicate ReturnsToNone(s: Stacks, bundle: string) {
    var ms := Of(s, StackFor(bundle));
    var i := Index(ms, bundle);
    i < |ms| && ms[i].prev.None?
  }

  // If there is none and the bundle is shown, the launcher stack is.
  function Clearing(s: Stacks, bundle: string): Stacks {
    if ReturnsToNone(s, bundle) && IsShown(s, bundle) then PreviousRaised(s, bundle).(top := Some(LAUNCHER))
    else PreviousRaised(s, bundle)
  }

  function Cleared(s: Stacks, bundle: string): Stacks {
    var s1 := Clearing(s, bundle);
    With(s1, StackFor(bundle), Forget(Of(s1, StackFor(bundle)), bundle))
  }

  lemma HasIndex(ms: seq<Mission>, bundle: string)
    ensures Has(ms, bundle) <==> Index(ms, bundle) < |ms|
  {
  }

  // At most one mission has the bundle, so Index finds it wherever it is.
  lemma IndexOfDistinct(ms: seq<Mission>, i: nat)
    requires i < |ms| && forall j, k :: 0 <= j < k < |ms| ==> ms[j].bundle != ms[k].bundle
    ensures Index(ms, ms[i].bundle) == i
  {
  }

  lemma RaisedKeeps(ms: seq<Mission>, t: StackType, target: Target, page: Page, reuse: bool, tokens: nat, tokens': nat)
    requires GoodStack(ms, t, tokens) && tokens <= tokens' && StackFor(target.bundle) == t
    requires page.bundle == target.bundle && page.token < tokens'
    ensures var r := Raised(ms, target, page, reuse);
            && GoodStack(r, t, tokens') && r != [] && r[|r| - 1].bundle == target.bundle
            && forall b :: Has(r, b) <==> Has(ms, b) || b == target.bundle
  {
    var i := Index(ms, target.bundle);
    HasIndex(ms, target.bundle);
    if i == |ms| {
      PushKeeps(ms, Mission(target.bundle, [page], None), t, tokens, tokens');
    } else if reuse {
      MoreTokens(ms, t, tokens, tokens');
      ToTopKeeps(ms, i, t, tokens');
    } else {
      var m := ms[i].(pages := ms[i].pages + [page]);
      assert GoodPages(ms[i].bundle, ms[i].pages, tokens) && GoodLink(ms, ms[i]);
      ReplaceKeeps(ms, i, m, t, tokens, tokens');
      ToTopKeeps(ms[i := m], i, t, tokens');
    }
  }

  lemma GeneratedKeeps(s: Stacks, target: Target, want: Option<Element>, topAbility: Option<Page>)
    requires WellFormed(s)
    ensures WellFormed(Generated(s, target, want, topAbility).0)
  {
    if target.name.Some? {
      var ms := Of(s, StackFor(target.bundle));
      var reuse, i := Reuses(ms, target, want, topAbility), Index(ms, target.bundle);
      assert reuse ==> GoodPages(ms[i].bundle, ms[i].pages, s.tokens);
      ShowingKeeps(s, target, Generated(s, target, want, topAbility).1.value, reuse, topAbility);
    }
  }

  lemma ShowingKeeps(s: Stacks, target: Target, page: Page, reuse: bool, topAbility: Option<Page>)
    requires WellFormed(s) && page.bundle == target.bundle && page.token < if reuse then s.tokens else s.tokens + 1
    ensures WellFormed(Showing(s, target, page, reuse, topAbility))
  {
    var t, tokens := StackFor(target.bundle), if reuse then s.tokens else s.tokens + 1;
    var links := Links(Of(s, t), target, topAbility);
    var started := Started(Of(s, t), target, page, reuse, links);
    assert GoodStack(started, t, tokens) && started != [] by {
      assert GoodStack(Of(s, t), t, s.tokens);
      StartedListKeeps(Of(s, t), t, target, page, reuse, links, s.tokens, tokens);
    }
    WithKeeps(s, t, started, tokens);
    assert Showing(s, target, page, reuse, topAbility) == With(s, t, started).(top := Some(t), tokens := tokens);
  }

  lemma StartedListKeeps(ms: seq<Mission>, t: StackType, target: Target, page: Page, reuse: bool, links: bool,
                         tokens: nat, tokens': nat)
    requires GoodStack(ms, t, tokens) && tokens <= tokens' && StackFor(target.bundle) == t
    requires page.bundle == target.bundle && page.token < tokens'
    requires links ==> ms != [] && ms[|ms| - 1].bundle != target.bundle
    ensures GoodStack(Started(ms, target, page, reuse, links), t, tokens')
            && Started(ms, target, page, reuse, links) != []
  {
    RaisedKeeps(ms, t, target, page, reuse, tokens, tokens');
    StartedKeeps(ms, t, target, page, reuse, links, tokens');
  }

  lemma WithKeeps(s: Stacks, t: StackType, ms: seq<Mission>, tokens: nat)
    requires WellFormed(s) && s.tokens <= tokens && GoodStack(ms, t, tokens) && ms != []
    ensures WellFormed(With(s, t, ms).(top := Some(t), tokens := tokens))
  {
    var other := if t == LAUNCHER then DEFAULT else LAUNCHER;
    MoreTokens(Of(s, other), other, s.tokens, tokens);
  }

  lemma StartedKeeps(ms: seq<Mission>, t: StackType, target: Target, page: Page, reuse: bool, links: bool, tokens: nat)
    requires var r := Raised(ms, target, page, reuse);
             && GoodStack(r, t, tokens) && r != [] && r[|r| - 1].bundle == target.bundle
             && forall b :: Has(r, b) <==> Has(ms, b) || b == target.bundle
    requires links ==> ms != [] && ms[|ms| - 1].bundle != target.bundle
    ensures var r := Started(ms, target, page, reuse, links);
            && GoodStack(r, t, tokens) && r != []
  {
    var r := Raised(ms, target, page, reuse);
    if links {
      assert Has(ms, ms[|ms| - 1].bundle);
      assert GoodPages(r[|r| - 1].bundle, r[|r| - 1].pages, tokens);
      ReplaceKeeps(r, |r| - 1, r[|r| - 1].(prev := Some(ms[|ms| - 1].bundle)), t, tokens, tokens);
    }
  }

  lemma RaisedShows(ms: seq<Mission>, target: Target, page: Page, reuse: bool)
    requires var i := Index(ms, target.bundle);
             reuse ==> i < |ms| && ms[i].pages != [] && page == TopPage(ms[i])
    ensures var r := Raised(ms, target, page, reuse);
            r != [] && r[|r| - 1].pages != [] && TopPage(r[|r| - 1]) == page
  {
  }

  lemma ShowingShows(s: Stacks, target: Target, page: Page, reuse: bool, topAbility: Option<Page>)
    requires var ms := Of(s, StackFor(target.bundle));
             var i := Index(ms, target.bundle);
             reuse ==> i < |ms| && ms[i].pages != [] && page == TopPage(ms[i])
    ensures Foreground(Showing(s, target, page, reuse, topAbility)) == Some(page)
  {
    RaisedShows(Of(s, StackFor(target.bundle)), target, page, reuse);
  }

  // The page it returns is the one in the foreground afterwards.
  lemma GeneratedIsForeground(s: Stacks, target: Target, want: Option<Element>, topAbility: Option<Page>)
    requires WellFormed(s) && target.name.Some?
    ensures var (s', page) := Generated(s, target, want, topAbility);
            page.Some? && page == Foreground(s') && page.value.bundle == target.bundle
  {
    var ms := Of(s, StackFor(target.bundle));
    var i := Index(ms, target.bundle);
    assert i < |ms| ==> GoodPages(ms[i].bundle, ms[i].pages, s.tokens);
    var page := Generated(s, target, want, topAbility).1.value;
    ShowingShows(s, target, page, Reuses(ms, target, want, topAbility), topAbility);
  }

  // The foreground page is the top one of the last mission of the top stack, its bundle's.
  lemma ForegroundIsLast(s: Stacks)
    requires WellFormed(s) && Foreground(s).Some?
    ensures var p, ms := Foreground(s).value, Of(s, s.top.value);
            && s.top == Some(StackFor(p.bundle)) && ms != [] && ms[|ms| - 1].bundle == p.bundle && p.token < s.tokens
            && ms[|ms| - 1].pages != [] && p == TopPage(ms[|ms| - 1])
  {
    var ms := Of(s, s.top.value);
    assert GoodPages(ms[|ms| - 1].bundle, ms[|ms| - 1].pages, s.tokens);
  }

  lemma CutKeeps(ms: seq<Mission>, i: nat, token: nat, t: StackType, tokens: nat)
    requires i < |ms| && GoodStack(ms, t, tokens)
    ensures GoodStack(Cut(ms, i, token), t, tokens)
    ensures !EndsAtLauncher(ms[i], token) ==> Cut(ms, i, token) != []
  {
    var kept := ms[i].pages[..PageIndex(ms[i].pages, token)];
    assert GoodPages(ms[i].bundle, ms[i].pages, tokens) && GoodLink(ms, ms[i]);
    if kept != [] {
      ReplaceKeeps(ms, i, ms[i].(pages := kept), t, tokens, tokens);
    } else {
      var rest := Dropped(ms, i);
      DroppedKeeps(ms, i, t, tokens);
      if ms[i].prev.Some? {
        HasIndex(rest, ms[i].prev.value);
        ToTopKeeps(rest, Index(rest, ms[i].prev.value), t, tokens);
      }
    }
  }

  lemma RemovedKeeps(s: Stacks, bundle: string, token: nat)
    requires WellFormed(s)
    ensures WellFormed(Removed(s, bundle, token))
  {
    var t := StackFor(bundle);
    var i := Index(Of(s, t), bundle);
    if i < |Of(s, t)| { CutKeeps(Of(s, t), i, token, t, s.tokens); }
  }

  lemma BackToTopKeeps(ms: seq<Mission>, prev: Option<string>, t: StackType, tokens: nat)
    requires GoodStack(ms, t, tokens)
    ensures GoodStack(BackToTop(ms, prev), t, tokens)
    ensures forall b :: Has(BackToTop(ms, prev), b) <==> Has(ms, b)
  {
    if prev.Some? && Index(ms, prev.value) < |ms| { ToTopKeeps(ms, Index(ms, prev.value), t, tokens); }
  }

  lemma ForgetKeeps(ms: seq<Mission>, bundle: string, t: StackType, tokens: nat)
    requires GoodStack(ms, t, tokens)
    ensures GoodStack(Forget(ms, bundle), t, tokens)
    ensures forall b :: Has(Forget(ms, bundle), b) <==> Has(ms, b) && b != bundle
  {
    HasIndex(ms, bundle);
    if Index(ms, bundle) < |ms| { DroppedKeeps(ms, Index(ms, bundle), t, tokens); }
  }

  function PrevOf(ms: seq<Mission>, bundle: string): Option<string> {
    var i := Index(ms, bundle);
    if i < |ms| then ms[i].prev else None
  }

  // A stack once the bundle's mission has gone.
  function ClearedMissions(ms: seq<Mission>, bundle: string): seq<Mission> {
    Forget(BackToTop(ms, PrevOf(ms, bundle)), bundle)
  }

  lemma ClearedIs(s: Stacks, bundle: string)
    ensures var t := StackFor(bundle);
            Cleared(s, bundle) == With(s, t, ClearedMissions(Of(s, t), bundle)).(top := Clearing(s, bundle).top)
  {
  }

  lemma ClearedMissionsKeep(ms: seq<Mission>, bundle: string, t: StackType, tokens: nat)
    requires GoodStack(ms, t, tokens)
    ensures GoodStack(ClearedMissions(ms, bundle), t, tokens)
    ensures forall b :: Has(ClearedMissions(ms, bundle), b) <==> Has(ms, b) && b != bundle
  {
    BackToTopKeeps(ms, PrevOf(ms, bundle), t, tokens);
    ForgetKeeps(BackToTop(ms, PrevOf(ms, bundle)), bundle, t, tokens);
  }

  lemma ClearedKeeps(s: Stacks, bundle: string)
    requires WellFormed(s)
    ensures WellFormed(Cleared(s, bundle))
  {
    var t := StackFor(bundle);
    ClearedIs(s, bundle);
    ClearedMissionsKeep(Of(s, t), bundle, t, s.tokens);
    if Clearing(s, bundle).top == Some(DEFAULT) && t == DEFAULT { LeftInFront(s, bundle); }
  }

  // If the default stack stays on top, a mission other than the one that goes is left.
  lemma LeftInFront(s: Stacks, bundle: string)
    requires WellFormed(s) && Clearing(s, bundle).top == Some(DEFAULT) && StackFor(bundle) == DEFAULT
    ensures ClearedMissions(s.default_, bundle) != []
  {
    ClearedMissionsKeep(s.default_, bundle, DEFAULT, s.tokens);
    var other := OtherIsLeft(s, bundle);
    assert Has(ClearedMissions(s.default_, bundle), other);
  }

  lemma OtherIsLeft(s: Stacks, bundle: string) returns (other: string)
    requires WellFormed(s) && Clearing(s, bundle).top == Some(DEFAULT) && StackFor(bundle) == DEFAULT
    ensures Has(s.default_, other) && other != bundle
  {
    var ms := s.default_;
    var i := Index(ms, bundle);
    if i < |ms| && ms[i].prev.Some? {
      other := ms[i].prev.value;
      assert GoodLink(ms, ms[i]);
    } else {
      other := ms[|ms| - 1].bundle;
      HasIndex(ms, bundle);
    }
  }

  // ---------- every run ----------

  datatype Op =
    | Generate(target: Target, want: Option<Element>, topAbility: Option<Page>)
    | RemovePage(bundle: string, token: nat)
    | Clear(bundle: string)
    | TokensUsed(count: nat)  // by service records, whose tokens come from the same counter

  function Step(s: Stacks, op: Op): Stacks {
    match op
    case Generate(target, want, topAbility) => Generated(s, target, want, topAbility).0
    case RemovePage(bundle, token) => Removed(s, bundle, token)
    case Clear(bundle) => Cleared(s, bundle)
    case TokensUsed(count) => s.(tokens := s.tokens + count)
  }

  function Run(ops: seq<Op>): Stacks {
    if ops == [] then EMPTY else Step(Run(ops[..|ops| - 1]), ops[|ops| - 1])
  }

  lemma StepKeeps(s: Stacks, op: Op)
    requires WellFormed(s)
    ensures WellFormed(Step(s, op)) && s.tokens <= Step(s, op).tokens
  {
    match op
    case Generate(target, want, topAbility) => GeneratedKeeps(s, target, want, topAbility);
    case RemovePage(bundle, token) => RemovedKeeps(s, bundle, token);
    case Clear(bundle) => ClearedKeeps(s, bundle);
    case TokensUsed(count) =>
      MoreTokens(s.launcher, LAUNCHER, s.tokens, s.tokens + count);
      MoreTokens(s.default_, DEFAULT, s.tokens, s.tokens + count);
  }

  lemma {:induction false} RunsStayWellFormed(ops: seq<Op>)
    ensures WellFormed(Run(ops))
  {
    if ops != [] {
      RunsStayWellFormed(ops[..|ops| - 1]);
      StepKeeps(Run(ops[..|ops| - 1]), ops[|ops| - 1]);
    }
  }

  // ---------- which pages each bundle has ----------

  function Tokens(ps: seq<Page>): (r: seq<nat>)
    ensures |r| == |ps|
  {
    seq(|ps|, k requires 0 <= k < |ps| => ps[k].token)
  }

  function Pages(ms: seq<Mission>, bundle: string): seq<Page> {
    var i := Index(ms, bundle);
    if i < |ms| then ms[i].pages else []
  }

  function PagesOf(s: Stacks, bundle: string): seq<Page> { Pages(Of(s, StackFor(bundle)), bundle) }

  ghost predicate Distinct(ms: seq<Mission>) {
    forall i, j :: 0 <= i < j < |ms| ==> ms[i].bundle != ms[j].bundle
  }

  lemma PagesAre(ms: seq<Mission>, i: nat)
    requires i < |ms| && Distinct(ms)
    ensures Pages(ms, ms[i].bundle) == ms[i].pages
  {
  }

  lemma IndexIs(ms: seq<Mission>, bundle: string, i: nat)
    requires i <= |ms| && (i < |ms| ==> ms[i].bundle == bundle) && forall j :: 0 <= j < i ==> ms[j].bundle != bundle
    ensures Index(ms, bundle) == i
  {
  }

  lemma IndexWithout(ms: seq<Mission>, i: nat, b: string)
    requires i < |ms| && Distinct(ms)
    ensures Distinct(Drop(ms, i))
    ensures var k := Index(ms, b);
            Index(Drop(ms, i), b) == if k < i then k else if b == ms[i].bundle then |ms| - 1 else k - 1
  {
    var r, k := Drop(ms, i), Index(ms, b);
    assert forall j :: 0 <= j < |r| ==> r[j].bundle == ms[Was(i, j)].bundle;
    IndexIs(r, b, if k < i then k else if b == ms[i].bundle then |ms| - 1 else k - 1);
  }

  lemma WithoutPages(ms: seq<Mission>, i: nat, b: string)
    requires i < |ms| && Distinct(ms)
    ensures var r := Drop(ms, i);
            Distinct(r) && Index(r, ms[i].bundle) == |r| && (b != ms[i].bundle ==> Pages(r, b) == Pages(ms, b))
  {
    IndexWithout(ms, i, b);
    IndexWithout(ms, i, ms[i].bundle);
    IndexOfDistinct(ms, i);
  }

  // Lists that agree on bundles and pages.
  lemma SamePages(ms: seq<Mission>, r: seq<Mission>, b: string)
    requires |r| == |ms| && forall j :: 0 <= j < |r| ==> r[j].bundle == ms[j].bundle && r[j].pages == ms[j].pages
    ensures Index(r, b) == Index(ms, b) && Pages(r, b) == Pages(ms, b)
  {
  }

  lemma {:induction false} IndexPush(ms: seq<Mission>, m: Mission, b: string)
    ensures Index(ms + [m], b) == if Index(ms, b) < |ms| then Index(ms, b) else if m.bundle == b then |ms| else |ms| + 1
  {
    if ms != [] {
      assert (ms + [m])[1..] == ms[1..] + [m];
      IndexPush(ms[1..], m, b);
    }
  }

  lemma PushPages(ms: seq<Mission>, m: Mission, b: string)
    requires Distinct(ms) && Index(ms, m.bundle) == |ms|
    ensures Distinct(ms + [m]) && Pages(ms + [m], b) == if b == m.bundle then m.pages else Pages(ms, b)
  {
    hide Has;
    IndexPush(ms, m, b);
  }

  lemma ToTopPages(ms: seq<Mission>, i: nat, b: string)
    requires i < |ms| && Distinct(ms)
    ensures Distinct(ToTop(ms, i)) && Pages(ToTop(ms, i), b) == Pages(ms, b)
  {
    WithoutPages(ms, i, b);
    PushPages(Drop(ms, i), ms[i], b);
    if b == ms[i].bundle { PagesAre(ms, i); }
  }

  lemma BackToTopPages(ms: seq<Mission>, prev: Option<string>, b: string)
    requires Distinct(ms)
    ensures Distinct(BackToTop(ms, prev)) && Pages(BackToTop(ms, prev), b) == Pages(ms, b)
  {
    if prev.Some? && Index(ms, prev.value) < |ms| { ToTopPages(ms, Index(ms, prev.value), b); }
  }

  lemma DroppedPages(ms: seq<Mission>, i: nat, b: string)
    requires i < |ms| && Distinct(ms)
    ensures Distinct(Dropped(ms, i)) && Pages(Dropped(ms, i), b) == if b == ms[i].bundle then [] else Pages(ms, b)
  {
    WithoutPages(ms, i, b);
    SamePages(Drop(ms, i), Dropped(ms, i), b);
  }

  lemma ForgetPages(ms: seq<Mission>, bundle: string, b: string)
    requires Distinct(ms)
    ensures Pages(Forget(ms, bundle), b) == if b == bundle then [] else Pages(ms, b)
  {
    if Index(ms, bundle) < |ms| { DroppedPages(ms, Index(ms, bundle), b); }
  }

  lemma ReplacePages(ms: seq<Mission>, i: nat, m: Mission, b: string)
    requires i < |ms| && Distinct(ms) && m.bundle == ms[i].bundle
    ensures Distinct(ms[i := m]) && Pages(ms[i := m], b) == if b == m.bundle then m.pages else Pages(ms, b)
  {
    var r, k := ms[i := m], Index(ms, b);
    assert forall j :: 0 <= j < |r| ==> r[j].bundle == ms[j].bundle;
    if k < |ms| { PagesAre(r, k); }
  }

  lemma HeldPages(s: Stacks, token: nat)
    requires WellFormed(s) && PageBundle(s, token).Some?
    ensures var pages := PagesOf(s, PageBundle(s, token).value);
            PageIndex(pages, token) < |pages|
  {
    var d, l := Holding(s.default_, token), Holding(s.launcher, token);
    if d < |s.default_| {
      PagesAre(s.default_, d);
    } else {
      PagesAre(s.launcher, l);
    }
  }

  lemma PageIsHeld(s: Stacks, b: string, token: nat)
    requires PageIndex(PagesOf(s, b), token) < |PagesOf(s, b)|
    ensures PageBundle(s, token).Some?
  {
  }

  // What each step does to the pages of every bundle: a start adds a page to its own bundle or shows the top
  // one again, a removal cuts its bundle's pages at the one removed, a clear takes them all.
  function PagesAfter(s: Stacks, op: Op, b: string): seq<Page> {
    var before := PagesOf(s, b);
    match op
    case Generate(target, want, topAbility) =>
      if target.name.None? || b != target.bundle || Reuses(Of(s, StackFor(b)), target, want, topAbility) then before
      else before + [Page(s.tokens, target.bundle, target.name.value)]
    case RemovePage(bundle, token) => if b == bundle then before[..PageIndex(before, token)] else before
    case Clear(bundle) => if b == bundle then [] else before
    case TokensUsed(_) => before
  }

  lemma StepPages(s: Stacks, op: Op, b: string)
    requires WellFormed(s)
    ensures PagesOf(Step(s, op), b) == PagesAfter(s, op, b)
  {
    match op
    case Generate(target, want, topAbility) => if target.name.Some? { GeneratedPages(s, target, want, topAbility, b); }
    case RemovePage(bundle, token) => RemovedPages(s, bundle, token, b);
    case Clear(bundle) => ClearedPages(s, bundle, b);
    case TokensUsed(_) =>
  }

  lemma GeneratedPages(s: Stacks, target: Target, want: Option<Element>, topAbility: Option<Page>, b: string)
    requires WellFormed(s) && target.name.Some?
    ensures PagesOf(Generated(s, target, want, topAbility).0, b) == PagesAfter(s, Generate(target, want, topAbility), b)
  {
    var ms := Of(s, StackFor(target.bundle));
    var i, reuse := Index(ms, target.bundle), Reuses(ms, target, want, topAbility);
    var page := Generated(s, target, want, topAbility).1.value;
    StartedPages(ms, target, page, reuse, Links(ms, target, topAbility), b);
  }

  lemma StartedPages(ms: seq<Mission>, target: Target, page: Page, reuse: bool, links: bool, b: string)
    requires Distinct(ms) && (reuse ==> Index(ms, target.bundle) < |ms|)
    ensures Pages(Started(ms, target, page, reuse, links), b)
         == Pages(ms, b) + if reuse || b != target.bundle then [] else [page]
  {
    RaisedPages(ms, target, page, reuse, b);
    var r := Raised(ms, target, page, reuse);
    if links && ms != [] {
      LinkedPages(r, ms[|ms| - 1].bundle, b);
    }
  }

  lemma RaisedPages(ms: seq<Mission>, target: Target, page: Page, reuse: bool, b: string)
    requires Distinct(ms) && (reuse ==> Index(ms, target.bundle) < |ms|)
    ensures var r := Raised(ms, target, page, reuse);
            && Distinct(r) && r != []
            && Pages(r, b) == Pages(ms, b) + if reuse || b != target.bundle then [] else [page]
  {
    var i := Index(ms, target.bundle);
    if i == |ms| {
      PushPages(ms, Mission(target.bundle, [page], None), b);
    } else if reuse {
      ToTopPages(ms, i, b);
    } else {
      WithPagePages(ms, i, page, b);
      ToTopPages(WithPage(ms, i, page), i, b);
    }
  }

  lemma WithPagePages(ms: seq<Mission>, i: nat, page: Page, b: string)
    requires i < |ms| && Distinct(ms)
    ensures Distinct(WithPage(ms, i, page))
    ensures Pages(WithPage(ms, i, page), b) == Pages(ms, b) + if b == ms[i].bundle then [page] else []
  {
    ReplacePages(ms, i, WithPage(ms, i, page)[i], b);
    PagesAre(ms, i);
  }

  lemma LinkedPages(ms: seq<Mission>, prev: string, b: string)
    requires ms != []
    ensures Pages(Linked(ms, prev), b) == Pages(ms, b)
  {
    SamePages(ms, Linked(ms, prev), b);
  }

  lemma CutPages(ms: seq<Mission>, i: nat, token: nat, b: string)
    requires i < |ms| && Distinct(ms)
    ensures var before := Pages(ms, b);
            Pages(Cut(ms, i, token), b) == if b == ms[i].bundle then before[..PageIndex(before, token)] else before
  {
    PagesAre(ms, i);
    var kept := ms[i].pages[..PageIndex(ms[i].pages, token)];
    if kept != [] {
      ReplacePages(ms, i, ms[i].(pages := kept), b);
    } else {
      DroppedPages(ms, i, b);
      BackToTopPages(Dropped(ms, i), ms[i].prev, b);
    }
  }

  lemma RemovedPages(s: Stacks, bundle: string, token: nat, b: string)
    requires WellFormed(s)
    ensures PagesOf(Removed(s, bundle, token), b) == PagesAfter(s, RemovePage(bundle, token), b)
  {
    var ms := Of(s, StackFor(bundle));
    var i := Index(ms, bundle);
    if i < |ms| { CutPages(ms, i, token, b); }
  }

  lemma ClearedMissionsPages(ms: seq<Mission>, bundle: string, b: string)
    requires Distinct(ms)
    ensures Pages(ClearedMissions(ms, bundle), b) == if b == bundle then [] else Pages(ms, b)
  {
    BackToTopPages(ms, PrevOf(ms, bundle), b);
    ForgetPages(BackToTop(ms, PrevOf(ms, bundle)), bundle, b);
  }

  lemma ClearedPages(s: Stacks, bundle: string, b: string)
    requires WellFormed(s)
    ensures PagesOf(Cleared(s, bundle), b) == PagesAfter(s, Clear(bundle), b)
  {
    ClearedIs(s, bundle);
    ClearedMissionsPages(Of(s, StackFor(bundle)), bundle, b);
  }

  // A page that was not there before has the next token of the counter.
  lemma NewPageToken(s: Stacks, op: Op, token: nat)
    requires WellFormed(s) && PageBundle(Step(s, op), token).Some?
    ensures PageBundle(s, token).Some? || token == s.tokens
  {
    var s' := Step(s, op);
    StepKeeps(s, op);
    hide *;
    PageHeld(s', token);
    var b := PageBundle(s', token).value;
    StepPages(s, op, b);
    OldOrNext(s, op, b, token);
  }

  lemma OldOrNext(s: Stacks, op: Op, b: string, token: nat)
    requires PageIndex(PagesAfter(s, op, b), token) < |PagesAfter(s, op, b)|
    ensures PageBundle(s, token).Some? || token == s.tokens
  {
    hide Reuses;
    var k := PageIndex(PagesAfter(s, op, b), token);
    if k < |PagesOf(s, b)| && PagesOf(s, b)[k].token == token { PageIsHeld(s, b, token); }
  }

  // The page is on its bundle's mission, and its token has been handed out.
  lemma PageHeld(s: Stacks, token: nat)
    requires WellFormed(s) && PageBundle(s, token).Some?
    ensures var pages := PagesOf(s, PageBundle(s, token).value); PageIndex(pages, token) < |pages|
    ensures token < s.tokens
  {
    HeldPages(s, token);
    var ms := Of(s, StackFor(PageBundle(s, token).value));
    var i := Index(ms, PageBundle(s, token).value);
    assert GoodPages(ms[i].bundle, ms[i].pages, s.tokens);
  }

  // ---------- a token names one page ----------

  // The k-th page of the bundle has this token.
  ghost predicate PageAt(s: Stacks, b: string, k: nat, token: nat) {
    k < |PagesOf(s, b)| && PagesOf(s, b)[k].token == token
  }

  ghost predicate TokensDiffer(s: Stacks) {
    forall b, j: nat, c, k: nat, token: nat :: PageAt(s, b, j, token) && PageAt(s, c, k, token) ==> b == c && j == k
  }

  // A page of a bundle has a token that was handed out.
  lemma PageTokenUsed(s: Stacks, b: string, k: nat, token: nat)
    requires WellFormed(s) && PageAt(s, b, k, token)
    ensures token < s.tokens
  {
    var ms := Of(s, StackFor(b));
    assert GoodPages(ms[Index(ms, b)].bundle, ms[Index(ms, b)].pages, s.tokens);
  }

  // After a step a page is where it was, or it is the new one on top of its bundle's.
  lemma PageWasAt(s: Stacks, op: Op, b: string, k: nat, token: nat)
    requires WellFormed(s) && PageAt(Step(s, op), b, k, token)
    ensures PageAt(s, b, k, token)
            || (op.Generate? && b == op.target.bundle && token == s.tokens && k == |PagesOf(s, b)|)
  {
    StepPages(s, op, b);
    hide Reuses, Step;
  }

  lemma StepDiffers(s: Stacks, op: Op)
    requires WellFormed(s) && TokensDiffer(s)
    ensures TokensDiffer(Step(s, op))
  {
    hide WellFormed, Step;
    var s' := Step(s, op);
    forall b, j: nat, c, k: nat, token: nat | PageAt(s', b, j, token) && PageAt(s', c, k, token)
      ensures b == c && j == k
    {
      PageWasAt(s, op, b, j, token);
      PageWasAt(s, op, c, k, token);
      if PageAt(s, b, j, token) { PageTokenUsed(s, b, j, token); }
      if PageAt(s, c, k, token) { PageTokenUsed(s, c, k, token); }
    }
  }

  lemma {:induction false} RunsKeepTokensApart(ops: seq<Op>)
    ensures TokensDiffer(Run(ops))
  {
    if ops != [] {
      RunsStayWellFormed(ops[..|ops| - 1]);
      RunsKeepTokensApart(ops[..|ops| - 1]);
      StepDiffers(Run(ops[..|ops| - 1]), ops[|ops| - 1]);
    }
  }

  // Tokens used elsewhere change nothing here.
  lemma CounterRaised(s: Stacks, n: nat)
    requires WellFormed(s) && TokensDiffer(s) && s.tokens <= n
    ensures WellFormed(s.(tokens := n)) && TokensDiffer(s.(tokens := n))
    ensures forall token :: PageBundle(s.(tokens := n), token) == PageBundle(s, token)
  {
    var op := TokensUsed(n - s.tokens);
    assert Step(s, op) == s.(tokens := n);
    StepKeeps(s, op);
    StepDiffers(s, op);
  }
}
