/** The mission of an ability whose start was deferred: the number comes from a copy that leaves it
    uninitialised, and terminating a mission goes by it. */
module DeferredStarts {
  import opened Options
  import opened Sequences
  import opened SliteTypes
  import opened MruList
  import opened Scheduler
  import opened SchedulerProofs
  import opened SchedulerRuns

  // A start is recorded with the mission it asked for exactly when it is not deferred, or the
  // uninitialised number happens to be that mission.
  lemma RecordedMission(env: Env, s: Sched, bundle: Option<string>, data: Bytes, mission: nat)
    requires s.list != []
    ensures var received := HandleRequest(env, s, Start(bundle, data, mission)).log.received;
            && received
               == s.log.received + [Start(bundle, data, if s.scheduling then env.stale(|s.log.received|) else mission)]
            && (Start(bundle, data, mission) == received[|s.log.received|]
                <==> !s.scheduling || env.stale(|s.log.received|) == mission)
  {
    if !s.scheduling {
      var r := Start(bundle, data, mission);
      var s0 := s.(log := s.log.(received := s.log.received + [r], executed := s.log.executed + [r]));
      RunOperationMonotone(env, Perform(env, s0, r).0.(scheduling := false));
    }
  }

  // The mission of a bundle that is started with a number; UINT32_MAX asks for the old one or a new one.
  function StartedMission(m: Mru, name: string, number: nat): nat {
    var i := NameIndex(m.items, name);
    if number != UINT32_MAX then number
    else if i < |m.items| then m.items[i].mission
    else NextMission(m.nextMission)
  }

  // A start that brings its bundle to the front gives it the mission of its number.
  lemma StartSetsMission(env: Env, k: nat, m: Mru, name: string, data: Bytes, number: nat)
    requires m.items != [] && Front(m).name != name
    requires var m' := Apply(env, k, m, Start(Some(name), data, number)); m'.items != [] && Front(m').name == name
    ensures Front(Apply(env, k, m, Start(Some(name), data, number))).mission == StartedMission(m, name, number)
  {
  }

  // ---------- until the bundle is started again ----------

  predicate Starts(r: Request, name: string) { r.Start? && r.bundle == Some(name) }

  // The ability with the token, if it is on the list, has this name and mission.
  ghost predicate Stays(m: Mru, token: nat, name: string, mission: nat) {
    token < m.generated && forall x :: x in m.items && x.token == token ==> x.name == name && x.mission == mission
  }

  // x was on the list before, or x was and has new data.
  ghost predicate Same(s: seq<Item>, x: Item) {
    exists y :: y in s && y.token == x.token && y.name == x.name && y.mission == x.mission
  }

  lemma {:induction false} KeptWere(p: Purge, s: seq<Item>)
    ensures forall x :: x in KeepItems(p, s) ==> x in s
  {
    if s != [] { KeptWere(p, s[1..]); }
  }

  lemma DroppedWere(s: seq<Item>, i: nat)
    requires i < |s|
    ensures forall x :: x in Drop(s, i) ==> x in s
  {
  }

  lemma TerminatedWere(m: Mru, token: nat, data: Option<Bytes>)
    requires m.items != []
    ensures forall x :: x in TerminateToken(m, token, data).items ==> Same(m.items, x)
  {
    var i := TokenIndex(m.items, token);
    if i < |m.items| { DroppedWere(m.items, i); }
    forall x | x in TerminateToken(m, token, data).items ensures Same(m.items, x) {
      if x !in m.items { assert m.items[1] in m.items; }
    }
  }

  lemma RoomWere(env: Env, k: nat, s: seq<Item>)
    ensures forall x :: x in MakeRoom(env, s) ==> x in s
    ensures MakeRoom(env, s) != [] ==> forall x :: x in Retire(env, k, MakeRoom(env, s)) ==> x in s
  {
    if 2 <= |s| && env.capacity <= |s| { DroppedWere(s, EvictIndex(s)); }
  }

  // A request that does not start the bundle leaves its mission alone.
  lemma ApplyStays(env: Env, k: nat, m: Mru, r: Request, token: nat, name: string, mission: nat)
    requires m.items != [] && Stays(m, token, name, mission) && !Starts(r, name)
    requires Apply(env, k, m, r).generated <= TOKEN_PERIOD
    ensures Stays(Apply(env, k, m, r), token, name, mission)
  {
    match r
    case Start(bundle, data, number) =>
      if bundle.Some? { StartStays(env, k, m, bundle.value, data, number, token, name, mission); }
    case Terminate(v) => TerminatedWere(m, Narrow(v), None);
    case TerminateMission(number) => KeptWere(ByMission(number), m.items[1..]);
    case TerminateApp(v) => TerminatedWere(m, Narrow(v), None);
    case ForceStop(bundle, data) =>
      if bundle.Some? && NameIndex(m.items, bundle.value) < |m.items| {
        TerminatedWere(m, m.items[NameIndex(m.items, bundle.value)].token, Some(data));
      }
    case TerminateAll(excluded) => KeptWere(AllBut(excluded), m.items[1..]);
  }

  lemma StartStays(env: Env, k: nat, m: Mru, bundle: string, data: Bytes, number: nat,
                   token: nat, name: string, mission: nat)
    requires m.items != [] && Stays(m, token, name, mission) && bundle != name
    requires Apply(env, k, m, Start(Some(bundle), data, number)).generated <= TOKEN_PERIOD
    ensures Stays(Apply(env, k, m, Start(Some(bundle), data, number)), token, name, mission)
  {
    var i := NameIndex(m.items, bundle);
    if 0 < i < |m.items| {
      DroppedWere(m.items, i);
      assert m.items[i] in m.items;
    } else if i == |m.items| {
      RoomWere(env, k, m.items);
    }
  }

  lemma ApplyMonotone(env: Env, k: nat, m: Mru, r: Request)
    requires m.items != []
    ensures m.generated <= Apply(env, k, m, r).generated
  {
  }

  lemma {:induction false} FoldStays(env: Env, a: seq<Request>, b: seq<Request>, token: nat, name: string, mission: nat)
    requires env.Ok() && Stays(Fold(env, a), token, name, mission) && (forall r :: r in b ==> !Starts(r, name))
    requires Fold(env, a + b).generated <= TOKEN_PERIOD
    ensures Stays(Fold(env, a + b), token, name, mission)
    decreases |b|
  {
    hide Apply, Stays;
    if b == [] {
      assert a + b == a;
    } else {
      var n := |a + b|;
      var m := Fold(env, a + b[..|b| - 1]);
      assert (a + b)[..n - 1] == a + b[..|b| - 1] && (a + b)[n - 1] == b[|b| - 1];
      if m.items != [] {
        ApplyMonotone(env, n, m, b[|b| - 1]);
        FoldStays(env, a, b[..|b| - 1], token, name, mission);
        ApplyStays(env, n, m, b[|b| - 1], token, name, mission);
      } else {
        FoldStays(env, a, b[..|b| - 1], token, name, mission);
      }
    }
  }

  // ---------- whole runs ----------

  lemma {:induction false} ExecutedGrows(env: Env, before: seq<Event>, events: seq<Event>)
    ensures Run(env, before).log.executed <= Run(env, before + events).log.executed
    decreases |events|
  {
    hide Step;
    if events == [] {
      assert before + events == before;
    } else {
      var n := |events| - 1;
      assert (before + events)[..|before| + n] == before + events[..n];
      ExecutedGrows(env, before, events[..n]);
      StepMonotone(env, Run(env, before + events[..n]), events[n]);
    }
  }

  // In a run, the front of the list is the only one with its token, which has been handed out.
  lemma FrontStays(env: Env, events: seq<Event>)
    requires env.Ok() && Legal(env, events)
    ensures var m := Fold(env, Run(env, events).log.executed);
            m.items != [] && Stays(m, Front(m).token, Front(m).name, Front(m).mission)
            && m.generated <= TOKEN_PERIOD
  {
    RunKeeps(env, events);
    var s := Run(env, events);
    SettledDistinct(env, s);
    var m := Abs(s);
    forall x | x in m.items && x.token == Front(m).token ensures x == Front(m) {
      var i :| 0 <= i < |m.items| && m.items[i] == x;
      assert m.items[0].token == m.items[i].token;
    }
  }

  lemma SettledDistinct(env: Env, s: Sched)
    requires env.Ok() && Inv(env, s)
    ensures Settled(s.list) != [] && DistinctItems(Settled(s.list)) && s.generated <= TOKEN_PERIOD
    ensures Settled(s.list)[0].token < s.generated
  {
    SettledHasHome(env, s);
    var items := Items(s.list);
    assert forall i :: 0 <= i < |items| ==> ItemOk(env, Raw(s), items[i]);
    assert Settled(s.list)[0] in items;
  }

  // The last request executed so far was a deferred start of the bundle, which it brought to the front; its
  // place among the requests received is also its place among those executed.
  ghost predicate BroughtByDeferred(env: Env, executed: seq<Request>, name: string, data: Bytes, asked: nat)
    requires env.Ok()
  {
    && executed != []
    && var n := |executed| - 1;
       var m, m' := Fold(env, executed[..n]), Fold(env, executed);
    && executed[n] == CopyForQueue(env, n, Start(Some(name), data, asked))
    && m.items != [] && m'.items != [] && Front(m).name != name && Front(m').name == name
  }

  // The mission it then has, whatever was asked for.
  lemma DeferredStartMission(env: Env, executed: seq<Request>, name: string, data: Bytes, asked: nat)
    requires env.Ok() && BroughtByDeferred(env, executed, name, data, asked)
    ensures var n := |executed| - 1;
            Front(Fold(env, executed)).mission == StartedMission(Fold(env, executed[..n]), name, env.stale(n))
  {
    var n := |executed| - 1;
    StartSetsMission(env, n + 1, Fold(env, executed[..n]), name, data, env.stale(n));
  }

  // A deferred start brings its bundle to the front; the run goes on without another start of the bundle, and
  // at rest the ability is still on the list, below another. Terminating a mission then spares it exactly
  // when the uninitialised number did not give it that mission; the mission asked for has no say.
  lemma StaleMissionDecides(env: Env, before: seq<Event>, events: seq<Event>, name: string, data: Bytes, asked: nat,
                            j: nat, mission: nat)
    requires env.Ok() && Legal(env, before + events)
    requires BroughtByDeferred(env, Run(env, before).log.executed, name, data, asked)
    requires var s, later := Run(env, before), Run(env, before + events);
             && !later.scheduling && 0 < j < |later.list| && !IsPermanent(later.list[j].item)
             && later.list[j].item.token == Front(Fold(env, s.log.executed)).token
             && forall k :: |s.log.executed| <= k < |later.log.executed| ==> !Starts(later.log.executed[k], name)
    ensures var executed, later := Run(env, before).log.executed, Run(env, before + events);
            var n := |executed| - 1;
            later.list[j] in HandleRequest(env, later, TerminateMission(mission)).list
            <==> StartedMission(Fold(env, executed[..n]), name, env.stale(n)) != mission
  {
    var executed, later := Run(env, before).log.executed, Run(env, before + events);
    DeferredStartMission(env, executed, name, data, asked);
    MissionStays(env, before, events, name, j);
    RunKeeps(env, before + events);
    SparedExactly(env, later, j, mission);
  }

  lemma MissionStays(env: Env, before: seq<Event>, events: seq<Event>, name: string, j: nat)
    requires env.Ok() && Legal(env, before + events)
    requires var s, later := Run(env, before), Run(env, before + events);
             var m := Fold(env, s.log.executed);
             && !later.scheduling && j < |later.list| && m.items != [] && Front(m).name == name
             && later.list[j].item.token == Front(m).token
             && forall k :: |s.log.executed| <= k < |later.log.executed| ==> !Starts(later.log.executed[k], name)
    ensures Run(env, before + events).list[j].item.mission == Front(Fold(env, Run(env, before).log.executed)).mission
  {
    hide Fold, Run, Apply, Regular, Inv;
    var a, later := Run(env, before).log.executed, Run(env, before + events);
    ExecutedGrows(env, before, events);
    var b := later.log.executed[|a|..];
    assert later.log.executed == a + b;
    var front := Front(Fold(env, a));
    LegalPrefix(env, before, events);
    FrontStays(env, before);
    FrontStays(env, before + events);
    FoldStays(env, a, b, front.token, front.name, front.mission);
    RefinesMru(env, before + events);
    assert Items(later.list)[j] in Fold(env, later.log.executed).items;
  }

  // Terminating a mission spares an ability below the top one, other than home, exactly if it has another.
  lemma SparedExactly(env: Env, s: Sched, j: nat, mission: nat)
    requires env.Ok() && Idle(env, s) && 0 < j < |s.list| && !IsPermanent(s.list[j].item)
    ensures s.list[j] in HandleRequest(env, s, TerminateMission(mission)).list <==> s.list[j].item.mission != mission
  {
    BulkTermination(env, s, TerminateMission(mission));
    assert s.list[j] == s.list[1..][j - 1];
    assert Items(s.list)[0].token != Items(s.list)[j].token;
  }
}
