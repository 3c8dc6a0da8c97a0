/** What goes when an ability stops, and when the process of an application ends. */
module AppDeaths {
  import opened Options
  import opened AppExits
  import opened ServiceConnects
  import opened ServiceRequests
  import F = FailedStarts
  import M = MissionStacks
  import S = ServiceMissions

  // A page that stops goes with the pages above it, and nothing else; a service that stops goes alone.
  lemma StopTakes(a: Ams, token: nat)
    requires Joint(a)
    ensures var a' := Stopped(a, token);
            match M.PageBundle(a.stacks, token)
            case Some(b) =>
              && a'.services == a.services
              && (forall c :: c != b ==> M.PagesOf(a'.stacks, c) == M.PagesOf(a.stacks, c))
              && exists k: nat :: M.PageAt(a.stacks, b, k, token)
                             && M.PagesOf(a'.stacks, b) == M.PagesOf(a.stacks, b)[..k]
            case None =>
              && a'.stacks == a.stacks
              && forall s :: s in a'.services.live <==> s in a.services.live && s.token != token
  {
    var page := M.PageBundle(a.stacks, token);
    if page.Some? {
      PageStops(a.stacks, page.value, token);
    } else {
      ServiceStops(a.services, token);
    }
  }

  lemma PageStops(s: M.Stacks, b: string, token: nat)
    requires M.WellFormed(s) && M.PageBundle(s, token) == Some(b)
    ensures forall c :: c != b ==> M.PagesOf(M.Removed(s, b, token), c) == M.PagesOf(s, c)
    ensures exists k: nat :: M.PageAt(s, b, k, token) && M.PagesOf(M.Removed(s, b, token), b) == M.PagesOf(s, b)[..k]
  {
    hide M.Removed, M.WellFormed, M.PageBundle;
    forall c { M.RemovedPages(s, b, token, c); }
    M.HeldPages(s, token);
    assert M.PageAt(s, b, M.PageIndex(M.PagesOf(s, b), token), token);
  }

  lemma ServiceStops(m: S.Services, token: nat)
    requires S.Sound(m)
    ensures forall s :: s in S.Stop(m, token).live <==> s in m.live && s.token != token
  {
    hide Good, StopAbilityDone;
    var i, r := S.ByToken(m.live, token), S.Stop(m, token).live;
    if i < |m.live| {
      assert forall k :: 0 <= k < |r| ==> r[k] == m.live[if k < i then k else k + 1];
      forall s | s in m.live && s.token != token ensures s in r {
        var k :| 0 <= k < |m.live| && m.live[k] == s;
        assert r[if k < i then k else k - 1] == s;
      }
    }
  }

  // The client is a page of the application that ended.
  ghost predicate WasItsPage(a: Ams, bundle: string, client: nat) {
    exists k: nat :: M.PageAt(a.stacks, bundle, k, client)
  }

  // With its process an application loses all pages and services, no other application loses any, and the
  // services left lose exactly the clients that were its pages.
  lemma AppGoneTakes(a: Ams, bundle: string)
    requires Joint(a)
    ensures var a', left := Done(a, AppTask(bundle)), Elsewhere(a.services.live, bundle);
            && (forall b :: M.PagesOf(a'.stacks, b) == if b == bundle then [] else M.PagesOf(a.stacks, b))
            && |a'.services.live| == |left|
            && forall k :: 0 <= k < |left| ==>
                 && S.SameService(left[k], a'.services.live[k])
                 && left[k].bundle != bundle && left[k] in a.services.live
                 && forall sid: Sid, client: nat :: S.HasConnection(a'.services.live[k], sid, client)
                      <==> S.HasConnection(left[k], sid, client) && !WasItsPage(a, bundle, client)
  {
    hide M.Cleared, M.WellFormed, M.PagesOf, S.Sound, S.PagesGone, S.HasConnection, S.SameService;
    hide Elsewhere, WasItsPage;
    forall b { M.ClearedPages(a.stacks, bundle, b); }
    ServicesLeft(a.services, M.Tokens(M.PagesOf(a.stacks, bundle)), bundle);
    forall client: nat { TokensAre(a, bundle, client); }
  }

  lemma ServicesLeft(m: S.Services, pages: seq<nat>, bundle: string)
    requires S.Sound(m)
    ensures var ls, left := S.PagesGone(S.ClearFrom(m, bundle, 0), pages, bundle).live, Elsewhere(m.live, bundle);
            && |ls| == |left|
            && forall k :: 0 <= k < |left| ==>
                 && S.SameService(left[k], ls[k]) && left[k].bundle != bundle && left[k] in m.live
                 && forall sid: Sid, client: nat :: S.HasConnection(ls[k], sid, client)
                      <==> S.HasConnection(left[k], sid, client) && client !in pages
  {
    hide S.Sound, S.PagesGone, S.HasConnection, S.SameService, S.ClearFrom;
    AppGoneReaches(m, bundle);
    S.ClearKeeps(m, bundle, 0);
    ElsewhereIs(m.live, bundle);
    var left := Elsewhere(m.live, bundle);
    assert forall k :: 0 <= k < |left| ==> left[k] in left;
    PagesGoneTakes(S.ClearFrom(m, bundle, 0), pages, bundle);
  }

  lemma TokensAre(a: Ams, bundle: string, client: nat)
    ensures client in M.Tokens(M.PagesOf(a.stacks, bundle)) <==> WasItsPage(a, bundle, client)
  {
    var ps := M.PagesOf(a.stacks, bundle);
    if client in M.Tokens(ps) {
      var k :| 0 <= k < |ps| && M.Tokens(ps)[k] == client;
      assert M.PageAt(a.stacks, bundle, k, client);
    }
    if k: nat :| M.PageAt(a.stacks, bundle, k, client) { assert M.Tokens(ps)[k] == client; }
  }

  lemma {:induction false} ElsewhereIs(ls: seq<Service>, bundle: string)
    ensures forall s :: s in Elsewhere(ls, bundle) <==> s in ls && s.bundle != bundle
  {
    if ls != [] {
      ElsewhereIs(ls[1..], bundle);
      assert forall s :: s in ls <==> s == ls[0] || s in ls[1..];
    }
  }

  // One page after the other, each service of another application loses that page's connections.
  lemma {:induction false} PagesGoneTakes(m: S.Services, pages: seq<nat>, bundle: string)
    requires S.Sound(m) && forall k :: 0 <= k < |m.live| ==> m.live[k].bundle != bundle
    ensures var m' := S.PagesGone(m, pages, bundle);
            && S.Sound(m') && |m'.live| == |m.live|
            && forall k :: 0 <= k < |m.live| ==>
                 && S.SameService(m.live[k], m'.live[k])
                 && forall sid: Sid, client: nat :: S.HasConnection(m'.live[k], sid, client)
                      <==> S.HasConnection(m.live[k], sid, client) && client !in pages
  {
    if pages != [] {
      var but, page := pages[..|pages| - 1], pages[|pages| - 1];
      PagesGoneTakes(m, but, bundle);
      var m1 := S.PagesGone(m, but, bundle);
      S.PageIsGoneKeeps(m1, page, bundle);
      assert pages == but + [page];
      PageGoneTakes(m1, page, bundle);
    }
  }

  lemma PageGoneTakes(m: S.Services, page: nat, bundle: string)
    requires S.Sound(m) && forall k :: 0 <= k < |m.live| ==> m.live[k].bundle != bundle
    ensures var ls := S.PageGone(m.live, page, bundle);
            forall k :: 0 <= k < |m.live| ==>
              && S.SameService(m.live[k], ls[k])
              && forall sid: Sid, client: nat :: S.HasConnection(ls[k], sid, client)
                   <==> S.HasConnection(m.live[k], sid, client) && client != page
  {
    hide Good, Do;
    forall k | 0 <= k < |m.live|
      ensures S.SameService(m.live[k], S.PageGone(m.live, page, bundle)[k])
      ensures forall sid: Sid, client: nat :: S.HasConnection(S.PageGone(m.live, page, bundle)[k], sid, client)
                <==> S.HasConnection(m.live[k], sid, client) && client != page
    {
      PageGoneReaches(m, page, bundle);
      OtherwiseSame(m.live[k], PageLost(page));
      forall sid: Sid, client: nat { ClientsAfter(m.live[k], PageLost(page), sid, client); }
    }
  }

  // A start that succeeds shows a page of its target, one that is rolled back leaves no more pages than there
  // were; no other application's pages and no service are touched. The other tasks work on one part alone.
  lemma TaskReaches(a: Ams, t: Task)
    requires Joint(a)
    ensures var a' := Done(a, t);
            match t
            case StartTask(target, want, started) =>
              && a'.services == a.services
              && (target.name.None? ==> a' == a)
              && (target.name.Some? && started ==>
                    M.Foreground(a'.stacks).Some? && M.Foreground(a'.stacks).value.bundle == target.bundle)
              && (!started ==> |M.PagesOf(a'.stacks, target.bundle)| <= |M.PagesOf(a.stacks, target.bundle)|)
              && forall b :: b != target.bundle ==> M.PagesOf(a'.stacks, b) == M.PagesOf(a.stacks, b)
            case PageTask(op) => a'.services == a.services && a'.stacks == M.Step(a.stacks, op)
            case ServiceTask(e) => a'.stacks == a.stacks && a'.services == S.Step(a.services, Gapless(e))
            case _ => true
  {
    if t.StartTask? && t.target.name.Some? { StartReaches(a.stacks, t.target, t.want, t.started); }
  }

  lemma StartReaches(s: M.Stacks, target: M.Target, want: Option<M.Element>, started: bool)
    requires M.WellFormed(s) && target.name.Some?
    ensures var s' := F.StartedPage(s, target, want, started);
            && (started ==> M.Foreground(s').Some? && M.Foreground(s').value.bundle == target.bundle)
            && (!started ==> |M.PagesOf(s', target.bundle)| <= |M.PagesOf(s, target.bundle)|)
            && forall b :: b != target.bundle ==> M.PagesOf(s', b) == M.PagesOf(s, b)
  {
    hide M.WellFormed, M.Generated, M.Removed, M.PagesOf, M.Foreground, M.Reuses;
    var start := M.Generate(target, want, M.Foreground(s));
    var s1, page := M.Generated(s, target, want, M.Foreground(s)).0, M.Generated(s, target, want, M.Foreground(s)).1;
    M.GeneratedIsForeground(s, target, want, M.Foreground(s));
    M.GeneratedKeeps(s, target, want, M.Foreground(s));
    forall b { M.GeneratedPages(s, target, want, M.Foreground(s), b); }
    if !started {
      if F.Refused(s, target, want) {
        F.RefusedStartChangesNothing(s, target, want);
      } else {
        forall b { M.RemovedPages(s1, target.bundle, page.value.token, b); }
        PageThere(s1, target.bundle, page.value);
      }
    }
  }

  // The page in the foreground is one of its bundle's.
  lemma PageThere(s: M.Stacks, bundle: string, page: M.Page)
    requires M.WellFormed(s) && M.Foreground(s) == Some(page) && page.bundle == bundle
    ensures M.PageIndex(M.PagesOf(s, bundle), page.token) < |M.PagesOf(s, bundle)|
  {
    M.ForegroundIsLast(s);
    var ms := M.Of(s, s.top.value);
    M.PagesAre(ms, |ms| - 1);
    var ps := M.PagesOf(s, bundle);
    assert ps[|ps| - 1] == page;
  }
}
