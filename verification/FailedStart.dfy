/** What a page start that fails at inactivating the top ability leaves behind. */
module FailedStarts {
  import opened Options
  import opened Sequences
  import opened MissionStacks

  // The start changes nothing and ends there: no ability record, or the one already in the foreground.
  predicate Refused(s: Stacks, target: Target, want: Option<Element>) {
    var page := Generated(s, target, want, Foreground(s)).1;
    page.None? || page == Foreground(s)
  }

  // Generate, then remove the generated page again.
  function Undone(s: Stacks, target: Target, want: Option<Element>): Stacks {
    var (s', page) := Generated(s, target, want, Foreground(s));
    if page.None? then s' else Removed(s', target.bundle, page.value.token)
  }

  // Same stacks, same links, same top stack; a token has been used up.
  predicate SameStacks(s: Stacks, s': Stacks) { s' == s.(tokens := s'.tokens) }

  // A start makes a new page either on the mission that is already on top of its stack, or on a new mission
  // while the launcher stack is shown or, for an application, while the default stack is.
  predicate UndoIsExact(s: Stacks, target: Target, want: Option<Element>) {
    var t := StackFor(target.bundle);
    var ms := Of(s, t);
    var i := Index(ms, target.bundle);
    && !Reuses(ms, target, want, Foreground(s))
    && if i == |ms| then s.top == Some(LAUNCHER) || (s.top == Some(DEFAULT) && t == DEFAULT) else i == |ms| - 1
  }

  lemma ToTopOfLast(ms: seq<Mission>)
    requires ms != []
    ensures ToTop(ms, |ms| - 1) == ms
  {
  }

  lemma NothingToUnlink(ms: seq<Mission>, bundle: string, t: StackType, tokens: nat)
    requires GoodStack(ms, t, tokens) && Index(ms, bundle) == |ms|
    ensures Unlink(ms, bundle) == ms
  {
    forall k | 0 <= k < |ms| ensures ms[k].prev != Some(bundle) {
      assert GoodLink(ms, ms[k]);
    }
  }

  lemma DefaultShowsApplication(s: Stacks)
    requires WellFormed(s) && s.top == Some(DEFAULT)
    ensures Foreground(s).Some? && !IsLauncher(Foreground(s).value.bundle)
  {
    var ms := s.default_;
    assert GoodPages(ms[|ms| - 1].bundle, ms[|ms| - 1].pages, s.tokens);
  }

  lemma RefusedStartChangesNothing(s: Stacks, target: Target, want: Option<Element>)
    requires WellFormed(s) && Refused(s, target, want)
    ensures Generated(s, target, want, Foreground(s)).0 == s
  {
    if target.name.Some? {
      var ms := Of(s, StackFor(target.bundle));
      ForegroundIsLast(s);
      assert Reuses(ms, target, want, Foreground(s));
      GeneratedIsForeground(s, target, want, Foreground(s));
      IndexOfDistinct(ms, |ms| - 1);
      ToTopOfLast(ms);
    }
  }

  // ---------- a new mission ----------

  // Taking the last mission away again.
  lemma DropNew(ms: seq<Mission>, m: Mission, t: StackType, tokens: nat)
    requires GoodStack(ms, t, tokens) && Index(ms, m.bundle) == |ms|
    ensures Index(ms + [m], m.bundle) == |ms| && Dropped(ms + [m], |ms|) == ms
  {
    NothingToUnlink(ms, m.bundle, t, tokens);
    assert Drop(ms + [m], |ms|) == ms;
    assert forall j :: 0 <= j < |ms| ==> (ms + [m])[j].bundle != m.bundle;
    IndexIsLast(ms + [m]);
  }

  lemma IndexIsLast(ms: seq<Mission>)
    requires ms != [] && forall j :: 0 <= j < |ms| - 1 ==> ms[j].bundle != ms[|ms| - 1].bundle
    ensures Index(ms, ms[|ms| - 1].bundle) == |ms| - 1
  {
  }

  // Removing the only page of a mission just put on top.
  lemma RemoveNew(s: Stacks, ms: seq<Mission>, m: Mission)
    requires var t := StackFor(m.bundle); GoodStack(ms, t, s.tokens) && Of(s, t) == ms + [m]
    requires |m.pages| == 1 && Index(ms, m.bundle) == |ms|
    requires m.prev.Some? ==> ms != [] && m.prev.value == ms[|ms| - 1].bundle
    ensures var s' := With(s, StackFor(m.bundle), ms);
            Removed(s, m.bundle, m.pages[0].token) == if m.prev.Some? then s' else s'.(top := Some(LAUNCHER))
  {
    DropNew(ms, m, StackFor(m.bundle), s.tokens);
    if m.prev.Some? {
      IndexIsLast(ms);
      ToTopOfLast(ms);
    }
  }

  lemma NewMissionGone(s: Stacks, target: Target, want: Option<Element>)
    requires WellFormed(s) && target.name.Some?
    requires Index(Of(s, StackFor(target.bundle)), target.bundle) == |Of(s, StackFor(target.bundle))|
    ensures var links := Links(Of(s, StackFor(target.bundle)), target, Foreground(s));
            Undone(s, target, want)
            == s.(tokens := s.tokens + 1, top := Some(if links then StackFor(target.bundle) else LAUNCHER))
  {
    hide Removed, Foreground, GoodLink, GoodPages;
    var t := StackFor(target.bundle);
    var ms, topAbility := Of(s, t), Foreground(s);
    var page := Page(s.tokens, target.bundle, target.name.value);
    var links := Links(ms, target, topAbility);
    var m := Mission(target.bundle, [page], if links then Some(ms[|ms| - 1].bundle) else None);
    var s1 := Generated(s, target, want, topAbility).0;
    assert Started(ms, target, page, false, links) == ms + [m];
    MoreTokens(ms, t, s.tokens, s1.tokens);
    RemoveNew(s1, ms, m);
  }

  lemma UndoNewMission(s: Stacks, target: Target, want: Option<Element>)
    requires WellFormed(s) && target.name.Some?
    requires Index(Of(s, StackFor(target.bundle)), target.bundle) == |Of(s, StackFor(target.bundle))|
    ensures SameStacks(s, Undone(s, target, want)) <==> UndoIsExact(s, target, want)
  {
    NewMissionGone(s, target, want);
    var u := Undone(s, target, want);
    assert SameStacks(s, u) <==> u.top == s.top;
    if s.top == Some(DEFAULT) { DefaultShowsApplication(s); }
    if Foreground(s).Some? { ForegroundIsLast(s); }
  }

  // ---------- a mission that was there ----------

  lemma UndoReuse(s: Stacks, target: Target, want: Option<Element>)
    requires WellFormed(s) && target.name.Some?
    requires Reuses(Of(s, StackFor(target.bundle)), target, want, Foreground(s))
    ensures !SameStacks(s, Undone(s, target, want))
  {
    var b := target.bundle;
    var (s1, page) := Generated(s, target, want, Foreground(s));
    GeneratedKeeps(s, target, want, Foreground(s));
    GeneratedPages(s, target, want, Foreground(s), b);
    RemovedPages(s1, b, page.value.token, b);
    var pages := PagesOf(s, b);
    assert pages[|pages| - 1].token == page.value.token;
    assert |PagesOf(Undone(s, target, want), b)| < |pages|;
  }

  // The page a start added is the only one with its token.
  lemma CutAddedPage(pages: seq<Page>, page: Page)
    requires forall k :: 0 <= k < |pages| ==> pages[k].token < page.token
    ensures (pages + [page])[..PageIndex(pages + [page], page.token)] == pages
  {
    var all := pages + [page];
    assert all[|pages|].token == page.token;
    assert forall k :: 0 <= k < |pages| ==> all[k].token != page.token;
  }

  // The page a start adds is on the last mission; one that was last already is still where it was.
  lemma AddedPageIsLast(ms: seq<Mission>, target: Target, page: Page, links: bool)
    requires Index(ms, target.bundle) < |ms| && (links ==> ms[|ms| - 1].bundle != target.bundle)
    ensures var i, started := Index(ms, target.bundle), Started(ms, target, page, false, links);
            && |started| == |ms| && started[|ms| - 1].bundle == target.bundle
            && started[|ms| - 1].pages == ms[i].pages + [page]
            && (i == |ms| - 1 ==> started == WithPage(ms, i, page))
  {
    var i := Index(ms, target.bundle);
    if i == |ms| - 1 { ToTopOfLast(WithPage(ms, i, page)); }
  }

  // Once cut again, it leaves the mission on top.
  lemma AddedPageGone(ms: seq<Mission>, target: Target, page: Page, links: bool, t: StackType, tokens: nat)
    requires var i := Index(ms, target.bundle); GoodStack(ms, t, tokens) && i < |ms| && page.token == tokens
    requires links ==> ms[|ms| - 1].bundle != target.bundle
    ensures var started := Started(ms, target, page, false, links);
            var last := started[|started| - 1];
            var pages := last.pages[..PageIndex(last.pages, page.token)];
            && |started| == |ms| && last.bundle == target.bundle && pages == ms[Index(ms, target.bundle)].pages
            && (started[|ms| - 1 := last.(pages := pages)] == ms <==> Index(ms, target.bundle) == |ms| - 1)
  {
    hide Started, PageIndex, GoodLink;
    var i := Index(ms, target.bundle);
    assert GoodPages(ms[i].bundle, ms[i].pages, tokens);
    CutAddedPage(ms[i].pages, page);
    AddedPageIsLast(ms, target, page, links);
    var started := Started(ms, target, page, false, links);
    var last := started[|started| - 1];
    if i == |ms| - 1 {
      assert started[|ms| - 1 := ms[i]] == ms;
    } else {
      assert started[|ms| - 1 := last.(pages := ms[i].pages)][|ms| - 1].bundle != ms[|ms| - 1].bundle;
    }
  }

  lemma UndoAddedPage(s: Stacks, target: Target, want: Option<Element>)
    requires WellFormed(s) && target.name.Some?
    requires var ms := Of(s, StackFor(target.bundle));
             Index(ms, target.bundle) < |ms| && !Reuses(ms, target, want, Foreground(s))
    ensures SameStacks(s, Undone(s, target, want)) <==> UndoIsExact(s, target, want)
  {
    hide Drop;
    var b, t, topAbility := target.bundle, StackFor(target.bundle), Foreground(s);
    var ms := Of(s, t);
    var i, page := Index(ms, b), Page(s.tokens, b, target.name.value);
    assert GoodPages(ms[i].bundle, ms[i].pages, s.tokens);
    ForegroundIsLast(s);
    var links := Links(ms, target, topAbility);
    var started := Started(ms, target, page, false, links);
    var s1 := Generated(s, target, want, topAbility).0;
    AddedPageGone(ms, target, page, links, t, s.tokens);
    GeneratedKeeps(s, target, want, topAbility);
    RemoveCut(s1, started);
    assert s.top == Some(t);
  }

  // Removing a page that is not the bottom one of the mission on top of its stack.
  lemma RemoveCut(s: Stacks, ms: seq<Mission>)
    requires ms != [] && WellFormed(s) && Of(s, StackFor(ms[|ms| - 1].bundle)) == ms
    ensures var last := ms[|ms| - 1];
            forall token :: PageIndex(last.pages, token) > 0 ==>
              (var cut := last.(pages := last.pages[..PageIndex(last.pages, token)]);
               Removed(s, last.bundle, token) == With(s, StackFor(last.bundle), ms[|ms| - 1 := cut]))
  {
    IndexOfDistinct(ms, |ms| - 1);
  }

  // A start that is not refused and fails is undone exactly under the condition above.
  lemma FailedStartIsExactUndo(s: Stacks, target: Target, want: Option<Element>)
    requires WellFormed(s) && !Refused(s, target, want)
    ensures SameStacks(s, Undone(s, target, want)) <==> UndoIsExact(s, target, want)
  {
    var ms := Of(s, StackFor(target.bundle));
    if Index(ms, target.bundle) == |ms| {
      UndoNewMission(s, target, want);
    } else if Reuses(ms, target, want, Foreground(s)) {
      UndoReuse(s, target, want);
    } else {
      UndoAddedPage(s, target, want);
    }
  }

  // From the launcher, or from a running application, to an application without a mission.
  lemma FailedApplicationStart(s: Stacks, target: Target, want: Option<Element>)
    requires WellFormed(s) && Foreground(s).Some? && target.name.Some? && !IsLauncher(target.bundle)
    requires !Has(s.default_, target.bundle)
    ensures !Refused(s, target, want) && SameStacks(s, Undone(s, target, want))
  {
    HasIndex(s.default_, target.bundle);
    ForegroundIsLast(s);
    FailedStartIsExactUndo(s, target, want);
  }

  // From a running application to the launcher without a mission, the launcher stack stays on top.
  lemma FailedLauncherStart(s: Stacks, name: string, want: Option<Element>)
    requires WellFormed(s) && s.top == Some(DEFAULT) && s.launcher == []
    ensures var target := Target(Some(name), LAUNCHER_BUNDLE_NAME);
            !Refused(s, target, want) && Undone(s, target, want).top == Some(LAUNCHER)
  {
    var target := Target(Some(name), LAUNCHER_BUNDLE_NAME);
    DefaultShowsApplication(s);
    ForegroundIsLast(s);
    var page := Page(s.tokens, LAUNCHER_BUNDLE_NAME, name);
    RemoveNew(Generated(s, target, want, Foreground(s)).0, [], Mission(LAUNCHER_BUNDLE_NAME, [page], None));
  }

  // The pages after a start task.
  function StartedPage(s: Stacks, target: Target, want: Option<Element>, started: bool): Stacks {
    if started || Refused(s, target, want) then Generated(s, target, want, Foreground(s)).0
    else Undone(s, target, want)
  }

  lemma StartedPageIs(s: Stacks, target: Target, want: Option<Element>, started: bool)
    ensures var (s', page) := Generated(s, target, want, Foreground(s));
            && Refused(s, target, want) == (page.None? || page == Foreground(s))
            && StartedPage(s, target, want, started)
               == (if started || Refused(s, target, want) then s'
                   else Removed(s', target.bundle, page.value.token))
  {
  }
}
