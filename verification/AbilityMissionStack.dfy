/** Page records, missions and mission stacks, updated in place. */
module AbilityMissionStacks {
  import opened Options
  import opened Sequences
  import opened MissionStacks

  class PageAbilityRecord {
    const token: nat
    const bundleName: string
    const name: string
    var missionRecord: AbilityMissionRecord?

    constructor (token: nat, bundleName: string, name: string)
      ensures Shown() == Page(token, bundleName, name) && missionRecord == null
    {
      this.token, this.bundleName, this.name := token, bundleName, name;
      missionRecord := null;
    }

    function Shown(): Page { Page(token, bundleName, name) }

    method IsSamePageAbility(want: Option<Element>) returns (same: bool)
      ensures same == SamePage(Shown(), want)
    {
      if want.None? || want.value.bundle.None? || want.value.ability.None? { return false; }
      return bundleName == want.value.bundle.value && name == want.value.ability.value;
    }
  }

  function OptionalPage(page: PageAbilityRecord?): Option<Page> {
    if page == null then None else Some(page.Shown())
  }

  ghost function ShownPages(ps: seq<PageAbilityRecord>): (r: seq<Page>)
    ensures |r| == |ps|
  {
    seq(|ps|, k requires 0 <= k < |ps| => ps[k].Shown())
  }

  class AbilityMissionRecord {
    const bundleName: string
    var abilityMissionStack: AbilityMissionStack?
    var pageAbilityRecords: seq<PageAbilityRecord>
    var prevMissionRecord: AbilityMissionRecord?

    constructor (stack: AbilityMissionStack, bundleName: string)
      ensures Shown() == Mission(bundleName, [], None) && abilityMissionStack == stack
      ensures pageAbilityRecords == [] && prevMissionRecord == null && this.bundleName == bundleName
    {
      this.bundleName, abilityMissionStack := bundleName, stack;
      pageAbilityRecords, prevMissionRecord := [], null;
    }

    ghost function Shown(): Mission
      reads this
    {
      Mission(bundleName, ShownPages(pageAbilityRecords),
              if prevMissionRecord == null then None else Some(prevMissionRecord.bundleName))
    }

    method GetTopPageAbility() returns (page: PageAbilityRecord?)
      ensures page == if pageAbilityRecords == [] then null else pageAbilityRecords[|pageAbilityRecords| - 1]
    {
      if |pageAbilityRecords| == 0 { return null; }
      return pageAbilityRecords[|pageAbilityRecords| - 1];
    }

    method FindPageAbility(token: nat) returns (i: nat)
      ensures i == PageIndex(Shown().pages, token)
    {
      i := 0;
      while i < |pageAbilityRecords| && pageAbilityRecords[i].token != token
        invariant i <= |pageAbilityRecords| && forall j :: 0 <= j < i ==> Shown().pages[j].token != token
      {
        i := i + 1;
      }
      PageIndexIs(Shown().pages, token, i);
    }

    method PageTokens() returns (tokens: seq<nat>)
      ensures tokens == Tokens(Shown().pages)
    {
      tokens := [];
      for k := 0 to |pageAbilityRecords|
        invariant |tokens| == k && forall j :: 0 <= j < k ==> tokens[j] == pageAbilityRecords[j].token
      {
        tokens := tokens + [pageAbilityRecords[k].token];
      }
    }

    method PushPageAbility(abilityRecord: PageAbilityRecord)
      modifies this`pageAbilityRecords, abilityRecord`missionRecord
      ensures pageAbilityRecords == old(pageAbilityRecords) + [abilityRecord] && abilityRecord.missionRecord == this
      ensures Shown() == old(Shown()).(pages := old(Shown()).pages + [abilityRecord.Shown()])
    {
      abilityRecord.missionRecord := this;
      pageAbilityRecords := pageAbilityRecords + [abilityRecord];
    }

    // The target goes with every page above it.
    method RemovePageAbility(target: PageAbilityRecord)
      modifies this`pageAbilityRecords
      ensures pageAbilityRecords <= old(pageAbilityRecords)
      ensures Shown() == old(Shown()).(pages := old(Shown()).pages[..PageIndex(old(Shown()).pages, target.token)])
    {
      var i := FindPageAbility(target.token);
      ghost var before := pageAbilityRecords;
      while i < |pageAbilityRecords|
        invariant i <= |pageAbilityRecords| <= |before|
        invariant pageAbilityRecords[..i] == before[..i]
        decreases |pageAbilityRecords|
      {
        pageAbilityRecords := pageAbilityRecords[..i] + pageAbilityRecords[i + 1..];
      }
      assert pageAbilityRecords == before[..i];
    }

    method ClearPageAbility()
      modifies this`pageAbilityRecords
      ensures pageAbilityRecords == []
    {
      while |pageAbilityRecords| > 0
        decreases |pageAbilityRecords|
      {
        pageAbilityRecords := pageAbilityRecords[1..];
      }
    }

    method SetPrevMissionRecord(record: AbilityMissionRecord?)
      modifies this`prevMissionRecord
      ensures prevMissionRecord == record
      ensures Shown() == old(Shown()).(prev := if record == null then None else Some(record.bundleName))
    {
      prevMissionRecord := record;
    }
  }

  class AbilityMissionStack {
    const stackType: StackType
    var missionRecords: seq<AbilityMissionRecord>
    ghost var view: seq<Mission>   // what the mission records hold
    ghost var Repr: set<object>

    // Back pointers lead where they should, links stay on the stack, and no bundle has two missions.
    ghost predicate Valid()
      reads this, Repr
    {
      ValidBut(null)
    }

    // The same while links may still lead to a mission just taken off.
    ghost predicate ValidBut(gone: AbilityMissionRecord?)
      reads this, Repr
    {
      && this in Repr && |view| == |missionRecords|
      && (forall k :: 0 <= k < |missionRecords| ==>
            var m := missionRecords[k];
            m in Repr && m.abilityMissionStack == this && m.Shown() == view[k] && m.prevMissionRecord != m
            && (m.prevMissionRecord != null && m.prevMissionRecord != gone ==> m.prevMissionRecord in missionRecords))
      && (forall k, j :: 0 <= k < |missionRecords| && 0 <= j < |missionRecords[k].pageAbilityRecords| ==>
            var p := missionRecords[k].pageAbilityRecords[j];
            p in Repr && p.missionRecord == missionRecords[k] && p.bundleName == missionRecords[k].bundleName)
      && (forall j, k :: 0 <= j < k < |missionRecords| ==> missionRecords[j].bundleName != missionRecords[k].bundleName)
    }

    constructor (stackType: StackType)
      ensures Valid() && fresh(Repr) && view == [] && this.stackType == stackType
    {
      this.stackType := stackType;
      missionRecords, view, Repr := [], [], {this};
    }

    // The page is on a mission of this stack.
    ghost predicate OnStack(page: PageAbilityRecord)
      reads this, page
    {
      page.missionRecord in missionRecords && page.missionRecord.bundleName == page.bundleName
    }

    method GetTargetMissionRecord(bundleName: string) returns (i: nat)
      requires Valid()
      ensures i == Index(view, bundleName)
    {
      i := 0;
      while i < |missionRecords| && missionRecords[i].bundleName != bundleName
        invariant i <= |missionRecords| && forall j :: 0 <= j < i ==> view[j].bundle != bundleName
      {
        i := i + 1;
      }
      IndexIs(view, bundleName, i);
    }

    method FindPageAbility(token: nat) returns (page: PageAbilityRecord?)
      requires Valid()
      ensures (page == null) == (Holding(view, token) == |view|)
      ensures page != null ==>
              OnStack(page) && page.token == token && page.bundleName == view[Holding(view, token)].bundle
    {
      for i := 0 to |missionRecords|
        invariant forall j :: 0 <= j < i ==> PageIndex(view[j].pages, token) == |view[j].pages|
      {
        var k := missionRecords[i].FindPageAbility(token);
        if k < |missionRecords[i].pageAbilityRecords| {
          HoldingIs(view, token, i);
          return missionRecords[i].pageAbilityRecords[k];
        }
      }
      HoldingIs(view, token, |view|);
      return null;
    }

    // A page on no mission is not at the bottom of one.
    method IsBottomPageAbility(page: PageAbilityRecord) returns (bottom: bool)
      requires Valid() && (page.missionRecord != null ==> OnStack(page))
      ensures var pages := if page.missionRecord == null then [] else Pages(view, page.bundleName);
              bottom == (pages != [] && PageIndex(pages, page.token) == 0)
    {
      if page.missionRecord == null { return false; }
      ghost var k :| 0 <= k < |missionRecords| && missionRecords[k] == page.missionRecord;
      IndexIs(view, page.bundleName, k);
      return |page.missionRecord.pageAbilityRecords| > 0
             && page.missionRecord.pageAbilityRecords[0].token == page.token;
    }

    method PushTopMissionRecord(m: AbilityMissionRecord)
      requires Valid() && Index(view, m.bundleName) == |view| && m.prevMissionRecord == null
      requires forall p :: p in m.pageAbilityRecords ==> p.missionRecord == m && p.bundleName == m.bundleName
      modifies this`missionRecords, this`view, this`Repr, m`abilityMissionStack
      ensures Valid() && view == old(view) + [m.Shown()] && missionRecords == old(missionRecords) + [m]
      ensures Repr == old(Repr) + {m} + set p | p in m.pageAbilityRecords
    {
      hide Index;
      m.abilityMissionStack := this;
      missionRecords := missionRecords + [m];
      view := view + [m.Shown()];
      Repr := Repr + {m} + set p | p in m.pageAbilityRecords;
    }

    method RemoveAt(i: nat)
      requires Valid() && i < |missionRecords|
      modifies this`missionRecords, this`view
      ensures ValidBut(old(missionRecords[i])) && view == Drop(old(view), i)
      ensures missionRecords == old(missionRecords[..i]) + old(missionRecords[i + 1..])
    {
      WithoutMembers(missionRecords, i);
      missionRecords := missionRecords[..i] + missionRecords[i + 1..];
      view := view[..i] + view[i + 1..];
    }

    method MoveMissionRecordToTop(i: nat)
      requires Valid() && i < |missionRecords|
      modifies this`missionRecords, this`view
      ensures Valid() && view == ToTop(old(view), i)
      ensures missionRecords == old(missionRecords[..i]) + old(missionRecords[i + 1..]) + [old(missionRecords[i])]
    {
      var m := missionRecords[i];
      if missionRecords[|missionRecords| - 1] != m {
        WithoutMembers(missionRecords, i);
        RemoveAt(i);
        PushBack(m);
      } else {
        assert i == |view| - 1;
      }
    }

    // The mission taken off comes back on top.
    method PushBack(m: AbilityMissionRecord)
      requires ValidBut(m) && m in Repr && m.abilityMissionStack == this && m.prevMissionRecord != m
      requires m.prevMissionRecord != null ==> m.prevMissionRecord in missionRecords
      requires forall p :: p in m.pageAbilityRecords ==>
               p in Repr && p.missionRecord == m && p.bundleName == m.bundleName
      requires forall k :: 0 <= k < |missionRecords| ==> missionRecords[k].bundleName != m.bundleName
      modifies this`missionRecords, this`view
      ensures Valid() && view == old(view) + [m.Shown()] && missionRecords == old(missionRecords) + [m]
    {
      missionRecords, view := missionRecords + [m], view + [m.Shown()];
    }

    method RemoveMissionRecord(i: nat)
      requires Valid() && i < |missionRecords|
      modifies Repr
      ensures Valid() && Repr == old(Repr) && view == Dropped(old(view), i)
      ensures missionRecords == old(missionRecords[..i]) + old(missionRecords[i + 1..])
      ensures old(missionRecords[i]).Shown() == old(missionRecords[i].Shown())
      ensures unchanged(old(missionRecords[i]))
    {
      var gone := missionRecords[i];
      RemoveAt(i);
      ClearLinks(gone);
    }

    // No mission returns to the one that is gone.
    method ClearLinks(gone: AbilityMissionRecord)
      requires ValidBut(gone) && gone !in missionRecords
      requires forall k :: 0 <= k < |missionRecords| ==> missionRecords[k].bundleName != gone.bundleName
      modifies this`view, missionRecords
      ensures Valid() && view == Unlink(old(view), gone.bundleName)
    {
      ghost var before := view;
      for k := 0 to |missionRecords|
        invariant ValidBut(gone) && unchanged(gone) && |view| == |before|
        invariant forall j :: 0 <= j < k ==> missionRecords[j].prevMissionRecord != gone
        invariant forall j :: 0 <= j < |view| ==>
                  view[j] == if j < k then Unlink(before, gone.bundleName)[j] else before[j]
      {
        if missionRecords[k].prevMissionRecord == gone {
          SetPrev(k, missionRecords[k], null);
        }
      }
      assert view == Unlink(before, gone.bundleName);
    }

    // Links the i-th mission to another of this stack, or to none.
    method SetPrev(i: nat, m: AbilityMissionRecord, prev: AbilityMissionRecord?)
      requires i < |missionRecords| && missionRecords[i] == m && |view| == |missionRecords| && m.Shown() == view[i]
      modifies this`view, m`prevMissionRecord
      ensures view == old(view)[i := old(view[i]).(prev := if prev == null then None else Some(prev.bundleName))]
      ensures m.Shown() == view[i] && m.prevMissionRecord == prev
    {
      m.SetPrevMissionRecord(prev);
      view := view[i := m.Shown()];
    }

    method LinkTop(prev: AbilityMissionRecord)
      requires Valid() && missionRecords != [] && prev in missionRecords && prev != missionRecords[|missionRecords| - 1]
      modifies this`view, missionRecords[|missionRecords| - 1]
      ensures Valid() && view == Linked(old(view), prev.bundleName)
    {
      SetPrev(|missionRecords| - 1, missionRecords[|missionRecords| - 1], prev);
    }

    // A mission for the page, on top.
    method StartMission(page: PageAbilityRecord)
      requires Valid() && Index(view, page.bundleName) == |view| && page !in Repr
      modifies this`missionRecords, this`view, this`Repr, page
      ensures Valid() && fresh(Repr - old(Repr) - {page}) && OnStack(page)
      ensures view == old(view) + [Mission(page.bundleName, [page.Shown()], None)]
      ensures |missionRecords| == |old(missionRecords)| + 1 && old(missionRecords) <= missionRecords
    {
      var targetMission := new AbilityMissionRecord(this, page.bundleName);
      targetMission.PushPageAbility(page);
      assert targetMission.Shown().pages == [page.Shown()];
      PushTopMissionRecord(targetMission);
    }

    // A page more on a mission, which comes on top.
    method AddPage(i: nat, page: PageAbilityRecord)
      requires Valid() && i < |missionRecords| && page !in Repr && page.bundleName == missionRecords[i].bundleName
      modifies Repr, page
      ensures Valid() && Repr == old(Repr) + {page} && view == ToTop(WithPage(old(view), i, page.Shown()), i)
      ensures missionRecords == old(missionRecords[..i]) + old(missionRecords[i + 1..]) + [old(missionRecords[i])]
      ensures OnStack(page)
    {
      PushPage(i, missionRecords[i], page);
      MoveMissionRecordToTop(i);
    }

    // The page on top of the target's mission if it is shown again instead of a new one.
    method ReusedPage(target: Target, want: Option<Element>, topAbility: PageAbilityRecord?)
      returns (page: PageAbilityRecord?)
      requires Valid()
      ensures (page != null) == Reuses(view, target, want, OptionalPage(topAbility))
      ensures page != null ==> OnStack(page)
      ensures page != null ==> page in Repr && page.bundleName == target.bundle
      ensures page != null ==> page.Shown() == TopPage(view[Index(view, target.bundle)])
    {
      var i := GetTargetMissionRecord(target.bundle);
      if i == |missionRecords| { return null; }
      page := missionRecords[i].GetTopPageAbility();
      if page == null { return; }
      var same := page.IsSamePageAbility(want);
      var crosses := topAbility == null || IsAce(target)
                     || (!IsLauncher(topAbility.bundleName) && IsLauncher(target.bundle))
                     || (IsLauncher(topAbility.bundleName) && !IsLauncher(target.bundle));
      if !crosses && !same { page := null; }
    }

    // Brings the target's mission on top, with the page on top of it.
    method Raise(target: Target, page: PageAbilityRecord, reuse: bool)
      requires Valid() && page.bundleName == target.bundle
      requires if reuse then Index(view, target.bundle) < |view| && OnStack(page) else page !in Repr
      modifies Repr, page
      ensures OnStack(page)
      ensures Valid() && fresh(Repr - old(Repr) - {page}) && view == Raised(old(view), target, page.Shown(), reuse)
      ensures missionRecords != [] && view[|view| - 1].bundle == target.bundle
      ensures forall m :: m in old(missionRecords) ==> m in missionRecords
    {
      var i := GetTargetMissionRecord(target.bundle);
      if i < |missionRecords| { WithoutMembers(missionRecords, i); }
      if reuse {
        MoveMissionRecordToTop(i);
      } else if i == |missionRecords| {
        StartMission(page);
      } else {
        AddPage(i, page);
      }
    }

    method Start(target: Target, page: PageAbilityRecord, reuse: bool, topAbility: PageAbilityRecord?)
      requires Valid() && page.bundleName == target.bundle
      requires if reuse then Index(view, target.bundle) < |view| && OnStack(page) else page !in Repr
      modifies Repr, page
      ensures OnStack(page)
      ensures Valid() && fresh(Repr - old(Repr) - {page})
      ensures view
              == Started(old(view), target, page.Shown(), reuse, Links(old(view), target, OptionalPage(topAbility)))
    {
      hide Raised, MissionStacks.Linked;
      var topMissionRecord := if |missionRecords| == 0 then null else missionRecords[|missionRecords| - 1];
      ghost var links := Links(view, target, OptionalPage(topAbility));
      assert topMissionRecord != null ==> topMissionRecord.bundleName == view[|view| - 1].bundle;
      Raise(target, page, reuse);
      assert links == (topAbility != null && !IsLauncher(topAbility.bundleName) && !IsLauncher(page.bundleName)
                       && topMissionRecord != null && view[|view| - 1].bundle != topMissionRecord.bundleName);
      LinkBack(topMissionRecord, page, topAbility);
    }

    // An application started from another one will return to it when its last page closes.
    method LinkBack(topMissionRecord: AbilityMissionRecord?, page: PageAbilityRecord, topAbility: PageAbilityRecord?)
      requires Valid() && missionRecords != [] && (topMissionRecord != null ==> topMissionRecord in missionRecords)
      modifies this`view, missionRecords[|missionRecords| - 1]
      ensures Valid()
      ensures view == if topAbility != null && !IsLauncher(topAbility.bundleName) && !IsLauncher(page.bundleName)
                         && topMissionRecord != null && old(view)[|old(view)| - 1].bundle != topMissionRecord.bundleName
                      then Linked(old(view), topMissionRecord.bundleName) else old(view)
    {
      if topMissionRecord == null || topAbility == null { return; }
      if IsLauncher(topAbility.bundleName) || IsLauncher(page.bundleName) { return; }
      var same := IsTop(topMissionRecord);
      if !same { LinkTop(topMissionRecord); }
    }

    method IsTop(m: AbilityMissionRecord) returns (top: bool)
      requires Valid() && m in missionRecords
      ensures top == (m == missionRecords[|missionRecords| - 1])
      ensures top == (view[|view| - 1].bundle == m.bundleName)
    {
      return m == missionRecords[|missionRecords| - 1];
    }

    method BackTo(prev: AbilityMissionRecord)
      requires Valid() && prev in missionRecords
      modifies this`missionRecords, this`view
      ensures Valid() && view == BackToTop(old(view), Some(prev.bundleName))
      ensures forall m :: m in old(missionRecords) <==> m in missionRecords
    {
      var i := GetTargetMissionRecord(prev.bundleName);
      WithoutMembers(missionRecords, i);
      MoveMissionRecordToTop(i);
    }

    // The mission the bundle's returns to comes on top; orphan if it returns to none.
    method PreviousToTop(bundleName: string) returns (orphan: bool)
      requires Valid()
      modifies this`missionRecords, this`view
      ensures Valid()
      ensures var ms := old(view);
              var i := Index(ms, bundleName);
              && view == (if i < |ms| then BackToTop(ms, ms[i].prev) else ms)
              && orphan == (i < |ms| && ms[i].prev.None?)
    {
      var i := GetTargetMissionRecord(bundleName);
      if i == |missionRecords| { return false; }
      var prev := missionRecords[i].prevMissionRecord;
      if prev == null { return true; }
      BackTo(prev);
      return false;
    }

    // The target goes from its mission with every page above it; an emptied mission goes too.
    method RemovePageAbility(m: AbilityMissionRecord, target: PageAbilityRecord) returns (toLauncher: bool)
      requires Valid() && m in missionRecords
      modifies Repr
      ensures Valid() && Repr == old(Repr)
      ensures var i := Index(old(view), m.bundleName);
              && i < |old(view)| && view == Cut(old(view), i, target.token)
              && toLauncher == EndsAtLauncher(old(view)[i], target.token)
    {
      hide Drop, Index, Unlink;
      ghost var before := view;
      var i := GetTargetMissionRecord(m.bundleName);
      RemovePages(i, m, target);
      if |m.pageAbilityRecords| > 0 { return false; }
      assert Drop(view, i) == Drop(before, i);
      WithoutMembers(missionRecords, i);
      RemoveMissionRecord(i);
      if m.prevMissionRecord == null { return true; }
      BackTo(m.prevMissionRecord);
      return false;
    }

    method IsTopMissionRecord(bundleName: string) returns (top: bool)
      requires Valid()
      ensures top == (view != [] && view[|view| - 1].bundle == bundleName)
    {
      return |missionRecords| > 0 && missionRecords[|missionRecords| - 1].bundleName == bundleName;
    }

    // The bundle's mission goes with its pages.
    method RemoveMissionOf(bundleName: string)
      requires Valid()
      modifies Repr
      ensures Valid() && Repr == old(Repr) && view == Forget(old(view), bundleName)
    {
      var i := GetTargetMissionRecord(bundleName);
      if i == |missionRecords| { return; }
      ClearPages(i, missionRecords[i]);
      assert Drop(view, i) == Drop(old(view), i);
      RemoveMissionRecord(i);
    }

    method ClearPages(i: nat, m: AbilityMissionRecord)
      requires Valid() && i < |missionRecords| && missionRecords[i] == m
      modifies this`view, m`pageAbilityRecords
      ensures Valid() && view == old(view)[i := old(view[i]).(pages := [])]
    {
      m.ClearPageAbility();
      view := view[i := m.Shown()];
    }

    method PushPage(i: nat, m: AbilityMissionRecord, page: PageAbilityRecord)
      requires Valid() && i < |missionRecords| && missionRecords[i] == m && page !in Repr
               && page.bundleName == m.bundleName
      modifies this`view, this`Repr, m`pageAbilityRecords, page`missionRecord
      ensures Valid() && Repr == old(Repr) + {page} && m.pageAbilityRecords == old(m.pageAbilityRecords) + [page]
              && page.missionRecord == m
      ensures view == old(view)[i := old(view[i]).(pages := old(view[i]).pages + [page.Shown()])]
    {
      m.PushPageAbility(page);
      view, Repr := view[i := m.Shown()], Repr + {page};
    }

    method RemovePages(i: nat, m: AbilityMissionRecord, target: PageAbilityRecord)
      requires Valid() && i < |missionRecords| && missionRecords[i] == m
      modifies this`view, m`pageAbilityRecords
      ensures Valid()
      ensures var m := old(view[i]);
              view == old(view)[i := m.(pages := m.pages[..PageIndex(m.pages, target.token)])]
    {
      m.RemovePageAbility(target);
      view := view[i := m.Shown()];
    }
  }

  lemma WithoutMembers<T>(s: seq<T>, i: nat)
    requires i < |s|
    ensures forall x :: x in s && x != s[i] ==> x in s[..i] + s[i + 1..]
  {
    var r := s[..i] + s[i + 1..];
    forall x | x in s && x != s[i] ensures x in r {
      var j :| 0 <= j < |s| && s[j] == x;
      assert r[if j < i then j else j - 1] == x;
    }
  }

  lemma HoldingIs(ms: seq<Mission>, token: nat, i: nat)
    requires i <= |ms| && (i < |ms| ==> PageIndex(ms[i].pages, token) < |ms[i].pages|)
    requires forall j :: 0 <= j < i ==> PageIndex(ms[j].pages, token) == |ms[j].pages|
    ensures Holding(ms, token) == i
  {
  }

  lemma PageIndexIs(ps: seq<Page>, token: nat, i: nat)
    requires i <= |ps| && (i < |ps| ==> ps[i].token == token) && forall j :: 0 <= j < i ==> ps[j].token != token
    ensures PageIndex(ps, token) == i
  {
  }
}
