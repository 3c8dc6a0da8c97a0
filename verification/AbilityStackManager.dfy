/** Page starts, stops and clears of the small-system service, over the records updated in place. */
module AbilityStackManagers {
  import opened Options
  import opened MissionStacks
  import opened AbilityMissionStacks

  class AbilityMgrContext {
    const launcherMissionStacks: AbilityMissionStack
    const defaultMissionStacks: AbilityMissionStack
    var topMissionStacks: AbilityMissionStack?
    var tokens: nat   // the counter of TokenGenerate

    ghost predicate Valid()
      reads this, launcherMissionStacks, defaultMissionStacks, launcherMissionStacks.Repr, defaultMissionStacks.Repr
    {
      && launcherMissionStacks.Valid() && defaultMissionStacks.Valid()
      && launcherMissionStacks.stackType == LAUNCHER && defaultMissionStacks.stackType == DEFAULT
      && launcherMissionStacks.Repr !! defaultMissionStacks.Repr
      && this !in launcherMissionStacks.Repr && this !in defaultMissionStacks.Repr
      && topMissionStacks in {null, launcherMissionStacks, defaultMissionStacks}
    }

    ghost function Footprint(): set<object>
      reads this, launcherMissionStacks, defaultMissionStacks
    {
      {this} + launcherMissionStacks.Repr + defaultMissionStacks.Repr
    }

    ghost function State(): Stacks
      reads this, launcherMissionStacks, defaultMissionStacks
    {
      Stacks(launcherMissionStacks.view, defaultMissionStacks.view,
             if topMissionStacks == null then None else Some(topMissionStacks.stackType), tokens)
    }

    constructor ()
      ensures Valid() && fresh(Footprint()) && State() == EMPTY
    {
      launcherMissionStacks := new AbilityMissionStack(LAUNCHER);
      defaultMissionStacks := new AbilityMissionStack(DEFAULT);
      topMissionStacks, tokens := null, 0;
    }

    ghost function Stack(t: StackType): AbilityMissionStack {
      if t == LAUNCHER then launcherMissionStacks else defaultMissionStacks
    }

    method GetTargetMissionStack(bundleName: string) returns (stack: AbilityMissionStack)
      ensures stack == Stack(StackFor(bundleName))
    {
      if IsLauncher(bundleName) { return launcherMissionStacks; }
      return defaultMissionStacks;
    }

    // The page on top of the top stack.
    method GetTopPageAbility() returns (page: PageAbilityRecord?)
      requires Valid()
      ensures OptionalPage(page) == Foreground(State())
    {
      if topMissionStacks == null { return null; }
      if |topMissionStacks.missionRecords| == 0 { return null; }
      page := topMissionStacks.missionRecords[|topMissionStacks.missionRecords| - 1].GetTopPageAbility();
    }

    // Shows the page on the stack, which becomes the top one.
    method StartOn(stack: AbilityMissionStack, target: Target, page: PageAbilityRecord, reuse: bool,
                   topAbility: PageAbilityRecord?)
      requires Valid() && stack == Stack(StackFor(target.bundle)) && page.bundleName == target.bundle
      requires if reuse
               then Index(stack.view, target.bundle) < |stack.view| && page in stack.Repr && stack.OnStack(page)
               else page !in Footprint()
      modifies this`topMissionStacks, stack.Repr, page
      ensures Valid() && fresh(stack.Repr - old(stack.Repr) - {page}) && stack.OnStack(page)
      ensures State() == Showing(old(State()), target, page.Shown(), reuse, OptionalPage(topAbility)).(tokens := tokens)
    {
      stack.Start(target, page, reuse, topAbility);
      topMissionStacks := stack;
    }

    // Shows the page given, or a new one.
    method ShowPage(stack: AbilityMissionStack, target: Target, reused: PageAbilityRecord?,
                    topAbility: PageAbilityRecord?)
      returns (page: PageAbilityRecord)
      requires Valid() && stack == Stack(StackFor(target.bundle)) && target.name.Some?
      requires reused != null ==> Index(stack.view, target.bundle) < |stack.view| && reused.bundleName == target.bundle
                                  && reused in stack.Repr && stack.OnStack(reused)
      modifies Footprint()
      ensures Valid() && fresh(Footprint() - old(Footprint())) && stack.OnStack(page)
      ensures reused != null ==> page == reused
      ensures reused == null ==> page.Shown() == Page(old(tokens), target.bundle, target.name.value)
      ensures State() == Showing(old(State()), target, page.Shown(), reused != null, OptionalPage(topAbility))
    {
      if reused != null {
        page := reused;
        StartOn(stack, target, page, true, topAbility);
      } else {
        page := ShowNew(stack, target, topAbility);
      }
    }

    method ShowNew(stack: AbilityMissionStack, target: Target, topAbility: PageAbilityRecord?)
      returns (page: PageAbilityRecord)
      requires Valid() && stack == Stack(StackFor(target.bundle)) && target.name.Some?
      modifies Footprint()
      ensures Valid() && fresh(Footprint() - old(Footprint())) && stack.OnStack(page)
      ensures page.Shown() == Page(old(tokens), target.bundle, target.name.value)
      ensures State() == Showing(old(State()), target, page.Shown(), false, OptionalPage(topAbility))
    {
      hide Started;
      page := NewPage(target);
      StartOn(stack, target, page, false, topAbility);
    }

    method NewPage(target: Target) returns (page: PageAbilityRecord)
      requires Valid() && target.name.Some?
      modifies this`tokens
      ensures Valid() && fresh(page) && page.Shown() == Page(old(tokens), target.bundle, target.name.value)
      ensures State() == old(State()).(tokens := old(tokens) + 1)
    {
      page := new PageAbilityRecord(tokens, target.bundle, target.name.value);
      tokens := tokens + 1;
    }

    method GeneratePageAbility(target: Target, want: Option<Element>, topAbility: PageAbilityRecord?)
      returns (page: PageAbilityRecord?)
      requires Valid()
      modifies Footprint()
      ensures Valid() && fresh(Footprint() - old(Footprint()))
      ensures (State(), OptionalPage(page)) == Generated(old(State()), target, want, OptionalPage(topAbility))
      ensures page != null ==> page.bundleName == target.bundle && Stack(StackFor(target.bundle)).OnStack(page)
    {
      hide Showing, Reuses;
      if target.name.None? { return null; }
      ghost var s := State();
      var stack := GetTargetMissionStack(target.bundle);
      var reused := stack.ReusedPage(target, want, topAbility);
      page := ShowPage(stack, target, reused, topAbility);
      GeneratedIs(s, target, want, OptionalPage(topAbility));
    }

    // The page is on a mission of one of the stacks, or on none.
    method RemovePageAbility(target: PageAbilityRecord)
      requires Valid()
      requires target.missionRecord != null ==> Stack(StackFor(target.missionRecord.bundleName)).OnStack(target)
      modifies Footprint()
      ensures Valid() && fresh(Footprint() - old(Footprint()))
      ensures State() == if old(target.missionRecord) == null then old(State())
                         else Removed(old(State()), old(target.missionRecord).bundleName, target.token)
    {
      if target.missionRecord == null { return; }
      RemoveFrom(target.missionRecord, target);
    }

    method RemoveFrom(missionRecord: AbilityMissionRecord, target: PageAbilityRecord)
      requires Valid() && missionRecord in Stack(StackFor(missionRecord.bundleName)).missionRecords
      modifies Footprint()
      ensures Valid() && fresh(Footprint() - old(Footprint()))
      ensures State() == Removed(old(State()), missionRecord.bundleName, target.token)
    {
      hide Cut, Index;
      var stack := missionRecord.abilityMissionStack;
      var toLauncher := stack.RemovePageAbility(missionRecord, target);
      if toLauncher { topMissionStacks := launcherMissionStacks; }
    }

    // Among the pages of both stacks.
    method FindPageAbility(token: nat) returns (page: PageAbilityRecord?)
      requires Valid() && WellFormed(State())
      ensures (if page == null then None else Some(page.bundleName)) == PageBundle(State(), token)
      ensures page != null ==> page.token == token && Stack(StackFor(page.bundleName)).OnStack(page)
    {
      page := defaultMissionStacks.FindPageAbility(token);
      if page != null { return; }
      page := launcherMissionStacks.FindPageAbility(token);
    }

    method IsBottomPageAbility(page: PageAbilityRecord) returns (bottom: bool)
      requires Valid() && (page.missionRecord != null ==> Stack(StackFor(page.bundleName)).OnStack(page))
      ensures var pages := if page.missionRecord == null then [] else PagesOf(State(), page.bundleName);
              bottom == (pages != [] && PageIndex(pages, page.token) == 0)
    {
      var stack := GetTargetMissionStack(page.bundleName);
      bottom := stack.IsBottomPageAbility(page);
    }

    method ExistAppInStack(bundleName: string) returns (exists_: bool)
      requires Valid()
      ensures exists_ == ExistApp(State(), bundleName)
    {
      var stack := GetTargetMissionStack(bundleName);
      var i := stack.GetTargetMissionRecord(bundleName);
      return i < |stack.missionRecords|;
    }

    // The tokens of the bundle's pages, from the bottom.
    method PageTokens(bundleName: string) returns (tokens: seq<nat>)
      requires Valid()
      ensures tokens == Tokens(PagesOf(State(), bundleName))
    {
      var stack := GetTargetMissionStack(bundleName);
      var i := stack.GetTargetMissionRecord(bundleName);
      if i == |stack.missionRecords| { return []; }
      tokens := stack.missionRecords[i].PageTokens();
    }

    method RemoveGenerated(page: PageAbilityRecord)
      requires Valid() && Stack(StackFor(page.bundleName)).OnStack(page)
      modifies Footprint()
      ensures Valid() && fresh(Footprint() - old(Footprint()))
      ensures State() == Removed(old(State()), page.bundleName, page.token)
    {
      RemovePageAbility(page);
    }

    method Shows(bundleName: string) returns (isTop: bool)
      requires Valid()
      ensures isTop == IsShown(State(), bundleName)
    {
      if topMissionStacks == null { return false; }
      isTop := topMissionStacks.IsTopMissionRecord(bundleName);
    }

    method MovePrevious(stack: AbilityMissionStack, bundleName: string) returns (orphan: bool)
      requires Valid() && stack == Stack(StackFor(bundleName))
      modifies stack`missionRecords, stack`view
      ensures Valid()
      ensures State() == PreviousRaised(old(State()), bundleName) && orphan == ReturnsToNone(old(State()), bundleName)
    {
      orphan := stack.PreviousToTop(bundleName);
    }

    // Before the bundle's mission goes: the one it returns to comes on top, or the launcher stack is shown.
    method ShowPrevious(stack: AbilityMissionStack, bundleName: string)
      requires Valid() && stack == Stack(StackFor(bundleName))
      modifies this`topMissionStacks, stack`missionRecords, stack`view
      ensures Valid()
      ensures State() == Clearing(old(State()), bundleName)
    {
      var isTop := Shows(bundleName);
      var orphan := MovePrevious(stack, bundleName);
      if orphan && isTop { topMissionStacks := launcherMissionStacks; }
    }

    method ClearAbilityStack(bundleName: string)
      requires Valid()
      modifies Footprint()
      ensures Valid() && fresh(Footprint() - old(Footprint())) && State() == Cleared(old(State()), bundleName)
    {
      var stack := GetTargetMissionStack(bundleName);
      ShowPrevious(stack, bundleName);
      stack.RemoveMissionOf(bundleName);
    }

    // One operation, whatever it is. It names pages by value; a record made for the purpose stands for one
    // that is only asked for what it shows.
    method Perform(op: Op)
      requires Valid()
      modifies Footprint()
      ensures Valid() && fresh(Footprint() - old(Footprint())) && State() == Step(old(State()), op)
    {
      match op {
        case Generate(target, want, topAbility) => GenerateOver(target, want, topAbility);
        case RemovePage(bundle, token) => RemoveByToken(bundle, token);
        case Clear(bundle) => ClearAbilityStack(bundle);
        case TokensUsed(count) => SetTokens(tokens + count);
      }
    }

    method GenerateOver(target: Target, want: Option<Element>, topAbility: Option<Page>)
      requires Valid()
      modifies Footprint()
      ensures Valid() && fresh(Footprint() - old(Footprint()))
      ensures State() == Generated(old(State()), target, want, topAbility).0
    {
      hide Generated;
      var topRecord: PageAbilityRecord? := null;
      if topAbility.Some? {
        topRecord := new PageAbilityRecord(topAbility.value.token, topAbility.value.bundle, topAbility.value.name);
      }
      var page := GeneratePageAbility(target, want, topRecord);
    }

    method RemoveByToken(bundleName: string, token: nat)
      requires Valid()
      modifies Footprint()
      ensures Valid() && fresh(Footprint() - old(Footprint()))
      ensures State() == Removed(old(State()), bundleName, token)
    {
      hide Removed;
      var missionRecord := MissionOf(bundleName);
      if missionRecord == null { return; }
      var page := new PageAbilityRecord(token, bundleName, "");
      RemoveFrom(missionRecord, page);
    }

    method MissionOf(bundleName: string) returns (missionRecord: AbilityMissionRecord?)
      requires Valid()
      ensures missionRecord == null ==> forall token :: Removed(State(), bundleName, token) == State()
      ensures missionRecord != null ==>
                missionRecord.bundleName == bundleName && missionRecord in Stack(StackFor(bundleName)).missionRecords
    {
      hide Cut, EndsAtLauncher;
      var stack := GetTargetMissionStack(bundleName);
      var i := stack.GetTargetMissionRecord(bundleName);
      missionRecord := if i == |stack.missionRecords| then null else stack.missionRecords[i];
    }

    // The counter is shared: others have drawn tokens from it.
    method SetTokens(n: nat)
      requires Valid()
      modifies this`tokens
      ensures Valid() && State() == old(State()).(tokens := n)
    {
      tokens := n;
    }
  }

  lemma GeneratedIs(s: Stacks, target: Target, want: Option<Element>, topAbility: Option<Page>)
    requires target.name.Some?
    ensures var ms := Of(s, StackFor(target.bundle));
            var reuse := Reuses(ms, target, want, topAbility);
            var page := if reuse then TopPage(ms[Index(ms, target.bundle)])
                        else Page(s.tokens, target.bundle, target.name.value);
            Generated(s, target, want, topAbility) == (Showing(s, target, page, reuse, topAbility), Some(page))
  {
  }
}
