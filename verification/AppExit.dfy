/** Ending an application's process when its last ability stops. */
module AppExits {
  import opened Options
  import FailedStarts
  import MissionStacks
  import ServiceMissions
  import ServiceConnects

  // The small-system service: its page stacks and its service records.
  datatype Ams = Ams(stacks: MissionStacks.Stacks, services: ServiceMissions.Services)

  function Services(a: Ams, bundle: string): nat { ServiceMissions.Count(a.services.live, bundle) }

  // The bundle whose process is told to exit at a stop acknowledgement.
  function Exit(a: Ams, token: nat): Option<string> {
    var page := MissionStacks.PageBundle(a.stacks, token);
    if page.Some? then
      var isBottom := MissionStacks.PageIndex(MissionStacks.PagesOf(a.stacks, page.value), token) == 0;
      if isBottom && Services(a, page.value) == 0 then page else None
    else
      var i := ServiceMissions.ByToken(a.services.live, token);
      if i == |a.services.live| || a.services.live[i].status == ServiceConnects.STOPPED then None
      else
        var bundle := a.services.live[i].bundle;
        if !MissionStacks.ExistApp(a.stacks, bundle) && Services(a, bundle) == 1 then Some(bundle) else None
  }

  // The ability that stops goes.
  function Stopped(a: Ams, token: nat): Ams {
    var page := MissionStacks.PageBundle(a.stacks, token);
    if page.Some? then a.(stacks := MissionStacks.Removed(a.stacks, page.value, token))
    else a.(services := ServiceMissions.Stop(a.services, token))
  }

  // The bundle of the ability that stops.
  function StoppingBundle(a: Ams, token: nat): Option<string> {
    var i := ServiceMissions.ByToken(a.services.live, token);
    if MissionStacks.PageBundle(a.stacks, token).Some? then MissionStacks.PageBundle(a.stacks, token)
    else if i < |a.services.live| then Some(a.services.live[i].bundle)
    else None
  }

  // The bundle has neither a page nor a service.
  predicate NothingLeft(a: Ams, bundle: string) {
    MissionStacks.PagesOf(a.stacks, bundle) == [] && Services(a, bundle) == 0
  }

  lemma {:induction false} CountSplit(ls: seq<ServiceConnects.Service>, more: seq<ServiceConnects.Service>,
                                      bundle: string)
    ensures ServiceMissions.Count(ls + more, bundle)
            == ServiceMissions.Count(ls, bundle) + ServiceMissions.Count(more, bundle)
  {
    if more == [] {
      assert ls + more == ls;
    } else {
      assert (ls + more)[..|ls + more| - 1] == ls + more[..|more| - 1];
      CountSplit(ls, more[..|more| - 1], bundle);
    }
  }

  lemma CountWithout(ls: seq<ServiceConnects.Service>, i: nat, bundle: string)
    requires i < |ls|
    ensures ServiceMissions.Count(ls, bundle)
         == ServiceMissions.Count(ls[..i] + ls[i + 1..], bundle) + if ls[i].bundle == bundle then 1 else 0
  {
    assert ls == ls[..i] + ([ls[i]] + ls[i + 1..]);
    CountSplit(ls[..i], [ls[i]] + ls[i + 1..], bundle);
    CountSplit([ls[i]], ls[i + 1..], bundle);
    CountSplit(ls[..i], ls[i + 1..], bundle);
    assert [ls[i]][..0] == [];
  }

  lemma ExistAppHasPages(s: MissionStacks.Stacks, bundle: string)
    requires MissionStacks.WellFormed(s)
    ensures MissionStacks.ExistApp(s, bundle) <==> MissionStacks.PagesOf(s, bundle) != []
  {
    var ms := MissionStacks.Of(s, MissionStacks.StackFor(bundle));
    var i := MissionStacks.Index(ms, bundle);
    assert i < |ms| ==> MissionStacks.GoodPages(ms[i].bundle, ms[i].pages, s.tokens);
  }

  lemma ServiceStopped(a: Ams, token: nat)
    requires ServiceMissions.Sound(a.services)
    requires ServiceMissions.ByToken(a.services.live, token) < |a.services.live|
    ensures var b := a.services.live[ServiceMissions.ByToken(a.services.live, token)].bundle;
            Services(a, b) == ServiceMissions.Count(ServiceMissions.Stop(a.services, token).live, b) + 1
  {
    var i := ServiceMissions.ByToken(a.services.live, token);
    hide ServiceConnects.Good, ServiceMissions.Count;
    CountWithout(a.services.live, i, a.services.live[i].bundle);
  }

  // The process is told to exit exactly when the stop leaves its bundle with no page and no service.
  lemma ExitExactlyWhenNothingLeft(a: Ams, token: nat)
    requires MissionStacks.WellFormed(a.stacks) && ServiceMissions.Sound(a.services)
    ensures var a', exit := Stopped(a, token), Exit(a, token);
            match StoppingBundle(a, token)
            case None => a' == a && exit == None
            case Some(b) => exit == if NothingLeft(a', b) then Some(b) else None
  {
    var page := MissionStacks.PageBundle(a.stacks, token);
    var i := ServiceMissions.ByToken(a.services.live, token);
    if page.Some? {
      MissionStacks.RemovedPages(a.stacks, page.value, token, page.value);
      MissionStacks.HeldPages(a.stacks, token);
    } else if i < |a.services.live| {
      ServiceStopped(a, token);
      ExistAppHasPages(a.stacks, a.services.live[i].bundle);
    }
  }

  // ---------- every run of pages and services together ----------

  // started: nothing has to be rolled back.
  datatype Task =
    | StartTask(target: MissionStacks.Target, want: Option<MissionStacks.Element>, started: bool)
    | PageTask(op: MissionStacks.Op)
    | ServiceTask(e: ServiceMissions.Event)
    | StopTask(token: nat)
    | AppTask(bundle: string)   // the application's process has ended

  // Pages and services draw their tokens from one counter, so neither leaves a gap of its own.
  function Gapless(e: ServiceMissions.Event): ServiceMissions.Event {
    if e.StartRequest? || e.ConnectRequested? then e.(gap := 0) else e
  }

  function OneCounter(a: Ams): Ams {
    var n := if a.stacks.tokens < a.services.tokens then a.services.tokens else a.stacks.tokens;
    Ams(a.stacks.(tokens := n), a.services.(tokens := n))
  }

  function Done(a: Ams, t: Task): Ams {
    match t
    case StartTask(target, want, started) => a.(stacks := FailedStarts.StartedPage(a.stacks, target, want, started))
    case PageTask(op) => a.(stacks := MissionStacks.Step(a.stacks, op))
    case ServiceTask(e) => a.(services := ServiceMissions.Step(a.services, Gapless(e)))
    case StopTask(token) => Stopped(a, token)
    case AppTask(bundle) =>
      Ams(MissionStacks.Cleared(a.stacks, bundle),
          ServiceMissions.PagesGone(ServiceMissions.ClearFrom(a.services, bundle, 0),
                                    MissionStacks.Tokens(MissionStacks.PagesOf(a.stacks, bundle)), bundle))
  }

  function Run(ts: seq<Task>): Ams {
    if ts == [] then Ams(MissionStacks.EMPTY, ServiceMissions.NO_SERVICES)
    else OneCounter(Done(Run(ts[..|ts| - 1]), ts[|ts| - 1]))
  }

  // Both parts are in order and no token names two pages, two services, or a page and a service.
  ghost predicate Joint(a: Ams) {
    && MissionStacks.WellFormed(a.stacks) && ServiceMissions.Sound(a.services)
    && a.stacks.tokens == a.services.tokens
    && MissionStacks.TokensDiffer(a.stacks) && Apart(a.stacks, a.services)
  }

  ghost predicate Apart(s: MissionStacks.Stacks, m: ServiceMissions.Services) {
    forall i :: 0 <= i < |m.live| ==> MissionStacks.PageBundle(s, m.live[i].token).None?
  }

  lemma CounterKeeps(a: Ams)
    requires MissionStacks.WellFormed(a.stacks) && ServiceMissions.Sound(a.services)
    requires MissionStacks.TokensDiffer(a.stacks) && Apart(a.stacks, a.services)
    ensures Joint(OneCounter(a))
  {
    hide MissionStacks.WellFormed, MissionStacks.TokensDiffer;
    MissionStacks.CounterRaised(a.stacks, OneCounter(a).stacks.tokens);
  }

  // A page that is made takes no service's token.
  lemma PagesKeepJoint(a: Ams, op: MissionStacks.Op)
    requires Joint(a)
    ensures Joint(OneCounter(a.(stacks := MissionStacks.Step(a.stacks, op))))
  {
    var s' := MissionStacks.Step(a.stacks, op);
    MissionStacks.StepKeeps(a.stacks, op);
    MissionStacks.StepDiffers(a.stacks, op);
    forall i | 0 <= i < |a.services.live| ensures MissionStacks.PageBundle(s', a.services.live[i].token).None? {
      var token := a.services.live[i].token;
      if MissionStacks.PageBundle(s', token).Some? { MissionStacks.NewPageToken(a.stacks, op, token); }
    }
    CounterKeeps(a.(stacks := s'));
  }

  // A service that is made takes no page's token.
  lemma ServicesKeepJoint(a: Ams, m: ServiceMissions.Services)
    requires Joint(a) && ServiceMissions.Sound(m) && ServiceMissions.Descends(a.services, m)
    ensures Joint(OneCounter(a.(services := m)))
  {
    forall i | 0 <= i < |m.live| ensures MissionStacks.PageBundle(a.stacks, m.live[i].token).None? {
      var token := m.live[i].token;
      if MissionStacks.PageBundle(a.stacks, token).Some? { MissionStacks.PageHeld(a.stacks, token); }
      assert ServiceMissions.Comes(a.services, m.live[i]);
      if token < a.services.tokens {
        var j :| 0 <= j < |a.services.live| && ServiceMissions.Follows(a.services.live[j], m.live[i]);
        assert MissionStacks.PageBundle(a.stacks, a.services.live[j].token).None?;
      }
    }
    CounterKeeps(a.(services := m));
  }

  lemma DoneKeeps(a: Ams, t: Task)
    requires Joint(a)
    ensures Joint(OneCounter(Done(a, t)))
  {
    match t
    case StartTask(target, want, started) => StartKeepsJoint(a, target, want, started);
    case PageTask(op) => PagesKeepJoint(a, op);
    case ServiceTask(e) =>
      ServiceMissions.StepDescends(a.services, Gapless(e));
      ServiceMissions.StepKeeps(a.services, Gapless(e));
      ServicesKeepJoint(a, ServiceMissions.Step(a.services, Gapless(e)));
    case StopTask(token) => StopKeepsJoint(a, token);
    case AppTask(bundle) => AppGoneKeepsJoint(a, bundle);
  }

  // A start that is rolled back is a start and a removal.
  lemma StartKeepsJoint(a: Ams, target: MissionStacks.Target, want: Option<MissionStacks.Element>, started: bool)
    requires Joint(a)
    ensures Joint(OneCounter(Done(a, StartTask(target, want, started))))
  {
    var topAbility := MissionStacks.Foreground(a.stacks);
    var start := MissionStacks.Generate(target, want, topAbility);
    FailedStarts.StartedPageIs(a.stacks, target, want, started);
    PagesKeepJoint(a, start);
    if !started && !FailedStarts.Refused(a.stacks, target, want) {
      var page := MissionStacks.Generated(a.stacks, target, want, topAbility).1.value;
      var a1 := OneCounter(a.(stacks := MissionStacks.Step(a.stacks, start)));
      PagesKeepJoint(a1, MissionStacks.RemovePage(target.bundle, page.token));
      RemovalUsesNoToken(a, a1, target.bundle, page.token);
    }
  }

  lemma RemovalUsesNoToken(a: Ams, a1: Ams, bundle: string, token: nat)
    requires a.stacks.tokens == a.services.tokens <= a1.stacks.tokens
    requires a1 == OneCounter(a.(stacks := a1.stacks))
    ensures var s2 := MissionStacks.Removed(a1.stacks, bundle, token);
            OneCounter(a1.(stacks := s2)) == OneCounter(a.(stacks := s2))
  {
  }

  lemma StopKeepsJoint(a: Ams, token: nat)
    requires Joint(a)
    ensures Joint(OneCounter(Stopped(a, token)))
  {
    var page := MissionStacks.PageBundle(a.stacks, token);
    if page.Some? {
      PagesKeepJoint(a, MissionStacks.RemovePage(page.value, token));
    } else {
      ServiceMissions.StopDescends(a.services, token);
      ServiceMissions.StopKeeps(a.services, token);
      ServicesKeepJoint(a, ServiceMissions.Stop(a.services, token));
    }
  }

  lemma AppGoneKeepsJoint(a: Ams, bundle: string)
    requires Joint(a)
    ensures Joint(OneCounter(Done(a, AppTask(bundle))))
  {
    hide ServiceMissions.Sound, ServiceMissions.ClearFrom, ServiceMissions.PagesGone, MissionStacks.WellFormed;
    hide ServiceMissions.Descends, Apart;
    var a1 := a.(stacks := MissionStacks.Cleared(a.stacks, bundle));
    PagesKeepJoint(a, MissionStacks.Clear(bundle));
    assert a1 == OneCounter(a1);
    var tokens := MissionStacks.Tokens(MissionStacks.PagesOf(a.stacks, bundle));
    var m1 := ServiceMissions.ClearFrom(a.services, bundle, 0);
    ServiceMissions.ClearDescends(a.services, bundle, 0);
    ServiceMissions.ClearKeeps(a.services, bundle, 0);
    ServiceMissions.PagesGoneDescends(m1, tokens, bundle);
    var m2 := ServiceMissions.PagesGone(m1, tokens, bundle);
    ServiceMissions.DescendsThrough(a.services, m1, m2);
    ServicesKeepJoint(a1, m2);
    assert a1.(services := m2) == Done(a, AppTask(bundle));
  }

  lemma {:induction false} RunsStayJoint(ts: seq<Task>)
    ensures Joint(Run(ts))
  {
    if ts != [] {
      RunsStayJoint(ts[..|ts| - 1]);
      DoneKeeps(Run(ts[..|ts| - 1]), ts[|ts| - 1]);
    }
  }

  // A token names at most one page or service.
  ghost predicate NamesOne(a: Ams, token: nat) {
    && (forall b, j: nat, c, k: nat ::
          MissionStacks.PageAt(a.stacks, b, j, token) && MissionStacks.PageAt(a.stacks, c, k, token) ==>
            b == c && j == k)
    && (forall i, j :: 0 <= i < j < |a.services.live| && a.services.live[i].token == token ==>
          a.services.live[j].token != token)
    && (MissionStacks.PageBundle(a.stacks, token).None?
        || ServiceMissions.ByToken(a.services.live, token) == |a.services.live|)
  }

  // After every run, a token names at most one page or service, and when that stops, its application's
  // process is told to exit exactly if the bundle is left with no page and no service.
  lemma ExitInEveryRun(ts: seq<Task>, token: nat)
    ensures var a := Run(ts);
            var a', exit := Stopped(a, token), Exit(a, token);
            && NamesOne(a, token)
            && match StoppingBundle(a, token)
               case None => a' == a && exit == None
               case Some(b) => exit == if NothingLeft(a', b) then Some(b) else None
  {
    RunsStayJoint(ts);
    ExitExactlyWhenNothingLeft(Run(ts), token);
  }
}
