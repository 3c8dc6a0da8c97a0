/** The start, stop and terminate tasks of the small-system service. */
module AbilityTasks {
  import opened Options
  import opened MissionStacks
  import opened AbilityMissionStacks
  import opened AbilityStackManagers
  import opened AbilityConnectMissions
  import opened AppExits
  import FailedStarts
  import ServiceMissions
  import ServiceConnects

  class AbilityTask {
    const context: AbilityMgrContext
    const serviceConnects: AbilityConnectMission

    ghost predicate Valid()
      reads context, context.launcherMissionStacks, context.defaultMissionStacks, context.Footprint()
      reads serviceConnects, serviceConnects.Repr
    {
      context.Valid() && serviceConnects.Valid() && context.Footprint() !! serviceConnects.Repr
    }

    // What a task adds to the objects of either part is new.
    twostate predicate Grows()
      reads context, context.launcherMissionStacks, context.defaultMissionStacks, serviceConnects
    {
      fresh(context.Footprint() - old(context.Footprint())) && fresh(serviceConnects.Repr - old(serviceConnects.Repr))
    }

    // A task that only concerns pages does so, and leaves the services alone.
    twostate predicate OnlyPages()
      reads context, context.launcherMissionStacks, context.defaultMissionStacks, serviceConnects
    {
      && fresh(context.Footprint() - old(context.Footprint()))
      && serviceConnects.Repr == old(serviceConnects.Repr) && serviceConnects.State() == old(serviceConnects.State())
    }

    lemma ContextIsValid()
      requires Valid()
      ensures context.Valid()
    {
    }

    ghost function State(): Ams
      reads context, context.launcherMissionStacks, context.defaultMissionStacks, serviceConnects
    {
      Ams(context.State(), serviceConnects.State())
    }

    constructor ()
      ensures Valid() && fresh(context) && fresh(context.Footprint()) && fresh(serviceConnects.Repr)
      ensures State() == Ams(EMPTY, ServiceMissions.NO_SERVICES)
    {
      context := new AbilityMgrContext();
      serviceConnects := new AbilityConnectMission();
    }

    // started: nothing has to be rolled back, because the ability on top was told to become inactive or, if there
    // is none, starting the new one did not fail.
    // Two records are the same one exactly if they show the same page: every record has a token of its own.
    method StartPage(target: Target, want: Option<Element>, started: bool) returns (ok: bool)
      requires Valid()
      modifies context.Footprint()
      ensures Valid() && OnlyPages()
      ensures ok == (started && !FailedStarts.Refused(old(context.State()), target, want))
      ensures context.State() == FailedStarts.StartedPage(old(context.State()), target, want, started)
    {
      hide Valid, FailedStarts.StartedPage;
      var targetAbility := Begin(target, want);
      if targetAbility == null { return false; }
      if !started { Remove(targetAbility); }
      return started;
    }

    // The page to show, or null where there is none or it is the one on top already.
    method Begin(target: Target, want: Option<Element>) returns (page: PageAbilityRecord?)
      requires Valid()
      modifies context.Footprint()
      ensures Valid() && OnlyPages()
      ensures (page == null) == FailedStarts.Refused(old(context.State()), target, want)
      ensures context.State() == FailedStarts.StartedPage(old(context.State()), target, want, true)
      ensures page == null ==> context.State() == FailedStarts.StartedPage(old(context.State()), target, want, false)
      ensures page != null ==> page.bundleName == target.bundle && context.Stack(StackFor(target.bundle)).OnStack(page)
      ensures page != null ==> Removed(context.State(), target.bundle, page.token)
                               == FailedStarts.StartedPage(old(context.State()), target, want, false)
    {
      ContextIsValid();
      hide Valid, AbilityMgrContext.Valid, Generated, Removed, FailedStarts.StartedPage;
      ghost var s := context.State();
      var topAbility := context.GetTopPageAbility();
      page := Generate(target, want, topAbility);
      FailedStarts.StartedPageIs(s, target, want, true);
      FailedStarts.StartedPageIs(s, target, want, false);
      if page != null && topAbility != null && page.Shown() == topAbility.Shown() { page := null; }
    }

    method Generate(target: Target, want: Option<Element>, topAbility: PageAbilityRecord?)
      returns (page: PageAbilityRecord?)
      requires Valid()
      modifies context.Footprint()
      ensures Valid() && OnlyPages()
      ensures (context.State(), OptionalPage(page))
              == Generated(old(context.State()), target, want, OptionalPage(topAbility))
      ensures page != null ==> page.bundleName == target.bundle && context.Stack(StackFor(target.bundle)).OnStack(page)
    {
      hide Generated;
      page := context.GeneratePageAbility(target, want, topAbility);
    }

    method Remove(page: PageAbilityRecord)
      requires Valid() && context.Stack(StackFor(page.bundleName)).OnStack(page)
      modifies context.Footprint()
      ensures Valid() && OnlyPages()
      ensures context.State() == Removed(old(context.State()), page.bundleName, page.token)
    {
      hide Removed;
      context.RemoveGenerated(page);
    }

    // The stop acknowledgement of a page or service. exit is the bundle whose process is told to end; the
    // application is attached and hears it.
    method Stop(token: nat) returns (exit: Option<string>)
      requires Valid() && WellFormed(context.State())
      modifies context.Footprint(), serviceConnects.Repr
      ensures Valid() && Grows()
      ensures State() == Stopped(old(State()), token) && exit == Exit(old(State()), token)
    {
      hide Valid, Stopped, Exit;
      var page;
      page, exit := DecideExit(token);
      Discard(page, token);
    }

    method Discard(page: PageAbilityRecord?, token: nat)
      requires Valid() && (if page == null then None else Some(page.bundleName)) == PageBundle(context.State(), token)
      requires page != null ==> page.token == token && context.Stack(StackFor(page.bundleName)).OnStack(page)
      modifies context.Footprint(), serviceConnects.Repr
      ensures Valid() && Grows() && State() == Stopped(old(State()), token)
    {
      if page != null {
        Remove(page);
      } else {
        serviceConnects.StopTask(token);
      }
    }

    method DecideExit(token: nat) returns (page: PageAbilityRecord?, exit: Option<string>)
      requires Valid() && WellFormed(context.State())
      ensures exit == Exit(State(), token)
      ensures (if page == null then None else Some(page.bundleName)) == PageBundle(context.State(), token)
      ensures page != null ==> page.token == token && context.Stack(StackFor(page.bundleName)).OnStack(page)
    {
      page := context.FindPageAbility(token);
      if page != null {
        exit := PageExit(page);
      } else {
        exit := ServiceExit(token);
      }
    }

    method PageExit(page: PageAbilityRecord) returns (exit: Option<string>)
      requires Valid() && WellFormed(context.State())
      requires PageBundle(context.State(), page.token) == Some(page.bundleName)
      requires context.Stack(StackFor(page.bundleName)).OnStack(page)
      ensures exit == Exit(State(), page.token)
    {
      HeldPages(context.State(), page.token);
      var bottom := context.IsBottomPageAbility(page);
      var count := serviceConnects.CountServiceInApp(page.bundleName);
      return if bottom && count == 0 then Some(page.bundleName) else None;
    }

    method ServiceExit(token: nat) returns (exit: Option<string>)
      requires Valid() && PageBundle(context.State(), token) == None
      ensures exit == Exit(State(), token)
    {
      var i := serviceConnects.FindByToken(token);
      if i == |serviceConnects.serviceRecords| { return None; }
      if serviceConnects.serviceRecords[i].connectStatus == ServiceConnects.STOPPED { return None; }
      var bundleName := serviceConnects.serviceRecords[i].bundleName;
      var existsPage := context.ExistAppInStack(bundleName);
      var count := serviceConnects.CountServiceInApp(bundleName);
      return if !existsPage && count == 1 then Some(bundleName) else None;
    }

    // The application's process has ended: its services are done, its mission goes, and the connections its
    // pages had to other applications' services go.
    method ClearApp(bundleName: string)
      requires Valid()
      modifies context.Footprint(), serviceConnects.Repr
      ensures Valid() && Grows()
      ensures context.State() == Cleared(old(context.State()), bundleName)
      ensures serviceConnects.State()
           == ServiceMissions.PagesGone(ServiceMissions.ClearFrom(old(serviceConnects.State()), bundleName, 0),
                                        Tokens(PagesOf(old(context.State()), bundleName)), bundleName)
    {
      hide Valid, Cleared;
      ClearServices(bundleName);
      ClearStack(bundleName);
    }

    method ClearStack(bundleName: string)
      requires Valid()
      modifies context.Footprint()
      ensures Valid() && OnlyPages()
      ensures context.State() == Cleared(old(context.State()), bundleName)
    {
      hide Cleared;
      context.ClearAbilityStack(bundleName);
    }

    method ClearServices(bundleName: string)
      requires Valid()
      modifies serviceConnects.Repr
      ensures Valid() && Grows() && context.State() == old(context.State())
      ensures serviceConnects.State()
           == ServiceMissions.PagesGone(ServiceMissions.ClearFrom(old(serviceConnects.State()), bundleName, 0),
                                        Tokens(PagesOf(context.State(), bundleName)), bundleName)
    {
      hide ServiceMissions.ClearFrom, ServiceMissions.PagesGone;
      var tokens := context.PageTokens(bundleName);
      serviceConnects.ClearApp(tokens, bundleName);
    }

    method PageOperation(op: Op)
      requires Valid()
      modifies context.Footprint()
      ensures Valid() && OnlyPages() && context.State() == MissionStacks.Step(old(context.State()), op)
    {
      hide MissionStacks.Step;
      context.Perform(op);
    }

    method ServiceOperation(e: ServiceMissions.Event)
      requires Valid()
      modifies serviceConnects.Repr
      ensures Valid() && Grows() && context.State() == old(context.State())
      ensures serviceConnects.State() == ServiceMissions.Step(old(serviceConnects.State()), e)
    {
      hide ServiceMissions.Step;
      serviceConnects.Perform(e);
    }

    // ---------- runs ----------

    // One task, whatever it is.
    method Perform(t: Task)
      requires Valid() && WellFormed(context.State())
      modifies context.Footprint(), serviceConnects.Repr
      ensures Valid() && Grows() && State() == Done(old(State()), t)
    {
      hide Valid, Stopped, MissionStacks.Step, ServiceMissions.Step, FailedStarts.StartedPage, Cleared;
      match t {
        case StartTask(target, want, started) => var ok := StartPage(target, want, started);
        case PageTask(op) => PageOperation(op);
        case ServiceTask(e) => ServiceOperation(Gapless(e));
        case StopTask(token) => var exit := Stop(token);
        case AppTask(bundle) => ClearApp(bundle);
      }
    }

    // Both parts go on from the same number, as they have one counter.
    method CatchUp()
      requires Valid()
      modifies context`tokens, serviceConnects`tokens
      ensures Valid() && State() == OneCounter(old(State()))
      ensures context.Footprint() == old(context.Footprint()) && serviceConnects.Repr == old(serviceConnects.Repr)
    {
      if context.tokens < serviceConnects.tokens {
        context.SetTokens(serviceConnects.tokens);
      } else {
        serviceConnects.SetTokens(context.tokens);
      }
    }

    // Any sequence of tasks, from the start of the service: it ends where the run of the model does.
    method Serve(ts: seq<Task>)
      requires Valid() && State() == Ams(EMPTY, ServiceMissions.NO_SERVICES)
      modifies context.Footprint(), serviceConnects.Repr
      ensures Valid() && State() == AppExits.Run(ts)
    {
      for n := 0 to |ts|
        invariant Valid() && Grows() && State() == AppExits.Run(ts[..n])
      {
        RunsStayJoint(ts[..n]);
        assert ts[..n + 1][..n] == ts[..n];
        Perform(ts[n]);
        CatchUp();
      }
      assert ts[..|ts|] == ts;
    }
  }
}
