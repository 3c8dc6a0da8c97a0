/** The service records of the small-system service, and the tasks that work on them. */
module ServiceMissions {
  import opened AbilityStates
  import opened ServiceConnects

  // retired keeps the services that left the list as they were then.
  datatype Services = Services(live: seq<Service>, retired: seq<Service>, tokens: nat)

  const NO_SERVICES := Services([], [], 0)

  // ---------- lookups: a position, or the length if there is none ----------

  function ByToken(ls: seq<Service>, token: nat): (r: nat)
    ensures r <= |ls| && (r < |ls| ==> ls[r].token == token)
    ensures forall j :: 0 <= j < r ==> ls[j].token != token
  {
    if ls == [] || ls[0].token == token then 0 else 1 + ByToken(ls[1..], token)
  }

  function ByName(ls: seq<Service>, bundle: string, name: string): (r: nat)
    ensures r <= |ls| && (r < |ls| ==> ls[r].bundle == bundle && ls[r].name == name)
    ensures forall j :: 0 <= j < r ==> ls[j].bundle != bundle || ls[j].name != name
  {
    if ls == [] || (ls[0].bundle == bundle && ls[0].name == name) then 0 else 1 + ByName(ls[1..], bundle, name)
  }

  predicate HasConnection(s: Service, sid: Sid, token: nat) {
    exists k :: 0 <= k < |s.records| && s.records[k].sid == sid && s.records[k].token == token
  }

  function ByConnection(ls: seq<Service>, sid: Sid, token: nat): (r: nat)
    ensures r <= |ls| && (r < |ls| ==> HasConnection(ls[r], sid, token))
    ensures forall j :: 0 <= j < r ==> !HasConnection(ls[j], sid, token)
  {
    if ls == [] || HasConnection(ls[0], sid, token) then 0 else 1 + ByConnection(ls[1..], sid, token)
  }

  function Count(ls: seq<Service>, bundle: string): nat {
    if ls == [] then 0
    else Count(ls[..|ls| - 1], bundle) + if ls[|ls| - 1].bundle == bundle then 1 else 0
  }

  // ---------- the tasks ----------

  // How starting the service's process, or telling one that already runs, went.
  datatype Launch = REACHED | SPAWNED | REFUSED | NOT_SPAWNED

  predicate Launched(launch: Launch) { launch in {REACHED, SPAWNED} }

  function Created(token: nat, bundle: string, name: string, waitConnect: bool, launch: Launch): Service {
    Service(token, bundle, name, launch != NOT_SPAWNED, STATE_UNINITIALIZED,
            if waitConnect then WAIT_CONNECT else INIT, !waitConnect, false, 0, [], 0,
            if launch in {REACHED, REFUSED} then [InactiveRequest] else [])
  }

  // gap page records were made since the last service record.
  function StartService(m: Services, bundle: string, name: string, waitConnect: bool, gap: nat,
                        launch: Launch): Services
  {
    if ByName(m.live, bundle, name) < |m.live| then m
    else
      var s := Created(m.tokens + gap, bundle, name, waitConnect, launch);
      if Launched(launch) then Services(m.live + [s], m.retired, s.token + 1)
      else Services(m.live, m.retired + [s], s.token + 1)
  }

  function Update(m: Services, i: nat, s: Service): Services
    requires i < |m.live|
  {
    m.(live := m.live[i := s])
  }

  function Retire(m: Services, i: nat, s: Service): Services
    requires i < |m.live|
  {
    m.(live := m.live[..i] + m.live[i + 1..], retired := m.retired + [s])
  }

  function ConnectTask(m: Services, bundle: string, name: string, sid: Sid, token: nat): Services {
    var i := ByName(m.live, bundle, name);
    if i == |m.live| || IsPerformStop(m.live[i]) then m else Update(m, i, PerformConnect(m.live[i], sid, token))
  }

  // A service that does not run yet is started first.
  function Connect(m: Services, bundle: string, name: string, gap: nat, launch: Launch, sid: Sid,
                   token: nat): Services
  {
    var known := ByName(m.live, bundle, name) < |m.live|;
    var m1 := StartService(m, bundle, name, true, gap, launch);
    if known || Launched(launch) then ConnectTask(m1, bundle, name, sid, token) else m1
  }

  function TerminateService(m: Services, bundle: string, name: string): Services {
    var i := ByName(m.live, bundle, name);
    if i == |m.live| then m
    else if m.live[i].state == STATE_UNINITIALIZED then Retire(m, i, m.live[i])
    else Update(m, i, ForceStopServiceAbility(m.live[i]))
  }

  function Stop(m: Services, token: nat): Services {
    var i := ByToken(m.live, token);
    if i == |m.live| then m
    else
      var s := m.live[i].(state := STATE_INITIAL);
      if s.status == STOPPED then Update(m, i, s) else Retire(m, i, StopAbilityDone(s))
  }

  // The application is gone: each of its services is done.
  function ClearFrom(m: Services, bundle: string, i: nat): Services
    requires i <= |m.live|
    decreases |m.live| - i
  {
    if i == |m.live| then m
    else if m.live[i].bundle == bundle then ClearFrom(Retire(m, i, StopAbilityDone(m.live[i])), bundle, i)
    else ClearFrom(m, bundle, i + 1)
  }

  // A page is gone: its connections to services of other applications go.
  function PageGone(ls: seq<Service>, token: nat, bundle: string): (r: seq<Service>)
    ensures |r| == |ls|
  {
    seq(|ls|, k requires 0 <= k < |ls| =>
      if ls[k].bundle != bundle then RemoveConnectRecordByPageToken(ls[k], token) else ls[k])
  }

  // Several pages of one application, one after the other.
  function PagesGone(m: Services, pages: seq<nat>, bundle: string): Services {
    if pages == [] then m
    else
      var m1 := PagesGone(m, pages[..|pages| - 1], bundle);
      m1.(live := PageGone(m1.live, pages[|pages| - 1], bundle))
  }

  datatype Event =
    | StartRequest(bundle: string, name: string, gap: nat, launch: Launch)
    | ConnectRequested(bundle: string, name: string, gap: nat, launch: Launch, sid: Sid, client: nat)
    | Attached(token: nat)                          // the new process takes its first ability
    | Reported(token: nat, state: AbilityState)     // any state but the initial one
    | ConnectAck(token: nat, serviceSid: Sid)
    | DisconnectRequested(sid: Sid, client: nat)
    | DisconnectAck(token: nat)
    | TerminateRequest(bundle: string, name: string)
    | TerminateByToken(token: nat)
    | StopAck(token: nat)
    | AppGone(bundle: string)
    | PageIsGone(page: nat, bundle: string)

  // What a single-service event does to the service it finds.
  function Changed(s: Service, e: Event): Service {
    match e
    case Attached(_) => if s.hasApp then Send(s, InactiveRequest) else s
    case Reported(_, state) => StateReported(s, state)
    case ConnectAck(_, sid) => ConnectDone(s, sid)
    case DisconnectRequested(sid, _) => DisconnectAbility(s, sid)
    case DisconnectAck(_) => DisconnectDone(s)
    case TerminateByToken(_) => ForceStopServiceAbility(s)
    case _ => s
  }

  function Step(m: Services, e: Event): Services {
    match e
    case StartRequest(bundle, name, gap, launch) => StartService(m, bundle, name, false, gap, launch)
    case ConnectRequested(bundle, name, gap, launch, sid, client) => Connect(m, bundle, name, gap, launch, sid, client)
    case TerminateRequest(bundle, name) => TerminateService(m, bundle, name)
    case StopAck(token) => Stop(m, token)
    case AppGone(bundle) => ClearFrom(m, bundle, 0)
    case PageIsGone(page, bundle) => m.(live := PageGone(m.live, page, bundle))
    case DisconnectRequested(sid, client) =>
      var i := ByConnection(m.live, sid, client);
      if i < |m.live| then Update(m, i, Changed(m.live[i], e)) else m
    case _ =>
      var i := ByToken(m.live, e.token);
      if i < |m.live| then Update(m, i, Changed(m.live[i], e)) else m
  }

  function Run(es: seq<Event>): Services {
    if es == [] then NO_SERVICES else Step(Run(es[..|es| - 1]), es[|es| - 1])
  }

  // ---------- every run ----------

  ghost predicate Sound(m: Services) {
    && (forall i :: 0 <= i < |m.live| ==> Good(m.live[i]) && m.live[i].hasApp && m.live[i].token < m.tokens)
    && (forall i :: 0 <= i < |m.live| ==> m.live[i].status != STOPPED)
    && (forall i :: 0 <= i < |m.retired| ==> Good(m.retired[i]))
    && (forall i, j :: 0 <= i < j < |m.live| ==> m.live[i].token != m.live[j].token)
    && (forall i, j :: 0 <= i < j < |m.live| ==>
          m.live[i].bundle != m.live[j].bundle || m.live[i].name != m.live[j].name)
  }

  // A service keeps its identity.
  predicate SameService(s: Service, s': Service) { s'.token == s.token && s'.bundle == s.bundle && s'.name == s.name }

  lemma UpdateKeeps(m: Services, i: nat, s: Service)
    requires Sound(m) && i < |m.live| && Good(s) && s.hasApp && s.status != STOPPED && SameService(m.live[i], s)
    ensures Sound(Update(m, i, s))
  {
  }

  lemma RetireKeeps(m: Services, i: nat, s: Service)
    requires Sound(m) && i < |m.live| && Good(s)
    ensures Sound(Retire(m, i, s))
  {
    var r := Retire(m, i, s).live;
    assert forall k :: 0 <= k < |r| ==> r[k] == m.live[if k < i then k else k + 1];
  }

  lemma CreatedIsGood(token: nat, bundle: string, name: string, waitConnect: bool, launch: Launch)
    ensures Good(Created(token, bundle, name, waitConnect, launch))
  {
    var s := Created(token, bundle, name, waitConnect, launch);
    forall id: nat ensures NoticesOf(s.log, id) == 0 { NoNotices(s.log, id); }
  }

  lemma StartServiceKeeps(m: Services, bundle: string, name: string, waitConnect: bool, gap: nat, launch: Launch)
    requires Sound(m)
    ensures Sound(StartService(m, bundle, name, waitConnect, gap, launch))
  {
    hide GoodStop, GoodConnections;
    var s := Created(m.tokens + gap, bundle, name, waitConnect, launch);
    var m' := StartService(m, bundle, name, waitConnect, gap, launch);
    assert Good(s) by { CreatedIsGood(m.tokens + gap, bundle, name, waitConnect, launch); }
    if ByName(m.live, bundle, name) < |m.live| {
      assert m' == m;
    } else if Launched(launch) {
      EnlistKeeps(m, s);
      assert m' == Services(m.live + [s], m.retired, s.token + 1);
    } else {
      NeverEnlistedKeeps(m, s);
      assert m' == Services(m.live, m.retired + [s], s.token + 1);
    }
  }

  lemma EnlistKeeps(m: Services, s: Service)
    requires Sound(m) && Good(s) && s.hasApp && s.status != STOPPED && m.tokens <= s.token
    requires ByName(m.live, s.bundle, s.name) == |m.live|
    ensures Sound(Services(m.live + [s], m.retired, s.token + 1))
  {
  }

  lemma NeverEnlistedKeeps(m: Services, s: Service)
    requires Sound(m) && Good(s) && m.tokens <= s.token
    ensures Sound(Services(m.live, m.retired + [s], s.token + 1))
  {
  }

  lemma ConnectTaskKeeps(m: Services, bundle: string, name: string, sid: Sid, token: nat)
    requires Sound(m)
    ensures Sound(ConnectTask(m, bundle, name, sid, token))
  {
    hide GoodStop, GoodConnections;
    var i := ByName(m.live, bundle, name);
    if i < |m.live| && !IsPerformStop(m.live[i]) {
      PerformConnectKeeps(m.live[i], sid, token);
      UpdateKeeps(m, i, PerformConnect(m.live[i], sid, token));
    }
  }

  lemma TerminateServiceKeeps(m: Services, bundle: string, name: string)
    requires Sound(m)
    ensures Sound(TerminateService(m, bundle, name))
  {
    hide GoodStop, GoodConnections;
    var i := ByName(m.live, bundle, name);
    if i < |m.live| {
      RetireKeeps(m, i, m.live[i]);
      ForceStopKeeps(m.live[i]);
      UpdateKeeps(m, i, ForceStopServiceAbility(m.live[i]));
    }
  }

  lemma StopKeeps(m: Services, token: nat)
    requires Sound(m)
    ensures Sound(Stop(m, token))
  {
    var i := ByToken(m.live, token);
    if i < |m.live| {
      var s := m.live[i].(state := STATE_INITIAL);
      StatusKeeps(m.live[i], s);
      StopDoneKeeps(s);
      RetireKeeps(m, i, StopAbilityDone(s));
    }
  }

  lemma {:induction false} ClearKeeps(m: Services, bundle: string, i: nat)
    requires Sound(m) && i <= |m.live|
    ensures Sound(ClearFrom(m, bundle, i))
    decreases |m.live| - i
  {
    if i < |m.live| {
      if m.live[i].bundle == bundle {
        StopDoneKeeps(m.live[i]);
        RetireKeeps(m, i, StopAbilityDone(m.live[i]));
        ClearKeeps(Retire(m, i, StopAbilityDone(m.live[i])), bundle, i);
      } else {
        ClearKeeps(m, bundle, i + 1);
      }
    }
  }

  lemma PageIsGoneKeeps(m: Services, token: nat, bundle: string)
    requires Sound(m)
    ensures Sound(m.(live := PageGone(m.live, token, bundle)))
  {
    hide GoodStop, GoodConnections;
    forall k | 0 <= k < |m.live|
      ensures Good(PageGone(m.live, token, bundle)[k]) && PageGone(m.live, token, bundle)[k].hasApp
      ensures SameService(m.live[k], PageGone(m.live, token, bundle)[k])
    {
      PageGoneKeeps(m.live[k], token);
    }
  }

  lemma ChangedKeeps(s: Service, e: Event)
    requires Good(s) && s.hasApp
    ensures Good(Changed(s, e)) && Changed(s, e).hasApp && SameService(s, Changed(s, e))
    ensures s.status != STOPPED ==> Changed(s, e).status != STOPPED
  {
    hide GoodStop, GoodConnections;
    match e
    case Attached(_) =>
      LogKeeps(s, [InactiveRequest]);
      SendKeeps(s, InactiveRequest);
    case Reported(_, state) => StateReportedKeeps(s, state);
    case ConnectAck(_, sid) => ConnectDoneKeeps(s, sid);
    case DisconnectRequested(sid, _) => DisconnectAbilityKeeps(s, sid);
    case DisconnectAck(_) => DisconnectDoneKeeps(s);
    case TerminateByToken(_) => ForceStopKeeps(s);
    case _ =>
  }

  lemma StepKeeps(m: Services, e: Event)
    requires Sound(m)
    ensures Sound(Step(m, e))
  {
    hide GoodStop, GoodConnections;
    match e
    case StartRequest(bundle, name, gap, launch) => StartServiceKeeps(m, bundle, name, false, gap, launch);
    case ConnectRequested(bundle, name, gap, launch, sid, client) =>
      StartServiceKeeps(m, bundle, name, true, gap, launch);
      ConnectTaskKeeps(StartService(m, bundle, name, true, gap, launch), bundle, name, sid, client);
    case TerminateRequest(bundle, name) => TerminateServiceKeeps(m, bundle, name);
    case StopAck(token) => StopKeeps(m, token);
    case AppGone(bundle) => ClearKeeps(m, bundle, 0);
    case PageIsGone(page, bundle) => PageIsGoneKeeps(m, page, bundle);
    case DisconnectRequested(sid, client) =>
      var i := ByConnection(m.live, sid, client);
      if i < |m.live| {
        ChangedKeeps(m.live[i], e);
        UpdateKeeps(m, i, Changed(m.live[i], e));
      }
    case _ =>
      var i := ByToken(m.live, e.token);
      if i < |m.live| {
        ChangedKeeps(m.live[i], e);
        UpdateKeeps(m, i, Changed(m.live[i], e));
      }
  }

  lemma {:induction false} RunsStaySound(es: seq<Event>)
    ensures Sound(Run(es))
  {
    if es != [] {
      RunsStaySound(es[..|es| - 1]);
      StepKeeps(Run(es[..|es| - 1]), es[|es| - 1]);
    }
  }

  // ---------- what that means ----------

  // Every service that ever was, in any run.
  ghost predicate Ever(es: seq<Event>, s: Service) { s in Run(es).live || s in Run(es).retired }

  // A stop request is sent by force, or to a service nobody is connected to and nobody started.
  lemma NeverStoppedUnderLiveClient(es: seq<Event>, s: Service, k: nat)
    requires Ever(es, s) && k < |s.log| && s.log[k].StopRequest?
    ensures s.log[k].forced || (s.log[k].clients == 0 && !s.log[k].started)
    ensures s.status == STOPPING && !s.forceStop ==> s.records == [] && !s.startDone
  {
    RunsStaySound(es);
  }

  // Once stopping, a service is asked neither to connect nor to disconnect nor to stop again, no client is told
  // that it is connected to it, and its status is STOPPING until it is STOPPED.
  lemma StoppingIsFinal(es: seq<Event>, s: Service, i: nat, j: nat)
    requires Ever(es, s) && i < j <= |s.log| && IsStopping(s.log[i])
    ensures s.status in {STOPPING, STOPPED}
    ensures j < |s.log| ==> !s.log[j].ConnectRequest? && !s.log[j].DisconnectRequest? && !IsStopping(s.log[j])
    ensures j < |s.log| ==> !s.log[j].ConnectNotice?
  {
    RunsStaySound(es);
  }

  // No connection is told twice that it is up; those on record have been told exactly if they are up.
  lemma ConnectDoneExactlyOnce(es: seq<Event>, s: Service, id: nat)
    requires Ever(es, s)
    ensures NoticesOf(s.log, id) <= 1
    ensures forall k :: 0 <= k < |s.records| && s.records[k].id == id ==>
              NoticesOf(s.log, id) == if s.records[k].status == CONNECTED then 1 else 0
    ensures s.status == CONNECTED ==> forall k :: 0 <= k < |s.records| ==> s.records[k].status == CONNECTED
    ensures forall j, k :: 0 <= j < k < |s.records| ==> s.records[j].sid != s.records[k].sid
  {
    RunsStaySound(es);
  }

  // ---------- one service, from step to step ----------

  ghost predicate Untold(log: seq<Sent>, n: nat) { forall k :: n <= k < |log| ==> !log[k].ConnectNotice? }

  // s' is s later on. A stopping service stays so, and tells no client any more that it is connected.
  ghost predicate Follows(s: Service, s': Service) {
    && SameService(s, s') && s.log <= s'.log
    && (IsPerformStop(s) ==> IsPerformStop(s') && Untold(s'.log, |s.log|))
  }

  // s' was one of m, or has a token m had not handed out.
  ghost predicate Comes(m: Services, s': Service) {
    m.tokens <= s'.token || exists j :: 0 <= j < |m.live| && Follows(m.live[j], s')
  }

  ghost predicate Descends(m: Services, m': Services) {
    && m.tokens <= m'.tokens && m.retired <= m'.retired
    && (forall i :: 0 <= i < |m'.live| ==> Comes(m, m'.live[i]))
    && (forall i :: |m.retired| <= i < |m'.retired| ==> Comes(m, m'.retired[i]))
  }

  lemma ComesThrough(m: Services, m1: Services, s: Service)
    requires Descends(m, m1) && Comes(m1, s)
    ensures Comes(m, s)
  {
    if s.token < m1.tokens {
      var j :| 0 <= j < |m1.live| && Follows(m1.live[j], s);
      assert Comes(m, m1.live[j]);
      if m1.live[j].token < m.tokens {
        var k :| 0 <= k < |m.live| && Follows(m.live[k], m1.live[j]);
        FollowsThrough(m.live[k], m1.live[j], s);
      }
    }
  }

  lemma FollowsThrough(s: Service, s1: Service, s2: Service)
    requires Follows(s, s1) && Follows(s1, s2)
    ensures Follows(s, s2)
  {
    assert forall k :: |s.log| <= k < |s1.log| ==> s2.log[k] == s1.log[k];
  }

  lemma DescendsThrough(m: Services, m1: Services, m2: Services)
    requires Descends(m, m1) && Descends(m1, m2)
    ensures Descends(m, m2)
  {
    hide Comes;
    forall i | 0 <= i < |m2.live| ensures Comes(m, m2.live[i]) { ComesThrough(m, m1, m2.live[i]); }
    forall i | |m.retired| <= i < |m2.retired| ensures Comes(m, m2.retired[i]) {
      if i < |m1.retired| { assert m2.retired[i] == m1.retired[i]; } else { ComesThrough(m, m1, m2.retired[i]); }
    }
  }

  lemma SameDescends(m: Services)
    ensures Descends(m, m)
  {
    forall i | 0 <= i < |m.live| ensures Comes(m, m.live[i]) { assert Follows(m.live[i], m.live[i]); }
  }

  lemma UpdateDescends(m: Services, i: nat, s: Service)
    requires i < |m.live| && Follows(m.live[i], s)
    ensures Descends(m, Update(m, i, s))
  {
    hide Follows;
    SameDescends(m);
    forall k | 0 <= k < |m.live| ensures Comes(m, Update(m, i, s).live[k]) {
      if k != i { assert Comes(m, m.live[k]); }
    }
  }

  lemma RetireDescends(m: Services, i: nat, s: Service)
    requires i < |m.live| && Follows(m.live[i], s)
    ensures Descends(m, Retire(m, i, s))
  {
    hide Follows;
    SameDescends(m);
    var r := Retire(m, i, s).live;
    forall k | 0 <= k < |r| ensures Comes(m, r[k]) {
      assert r[k] == m.live[if k < i then k else k + 1];
    }
  }

  lemma StartDescends(m: Services, bundle: string, name: string, waitConnect: bool, gap: nat, launch: Launch)
    ensures Descends(m, StartService(m, bundle, name, waitConnect, gap, launch))
  {
    SameDescends(m);
    hide Follows;
    var m' := StartService(m, bundle, name, waitConnect, gap, launch);
    forall k | 0 <= k < |m'.live| ensures Comes(m, m'.live[k]) {
      if k < |m.live| { assert m'.live[k] == m.live[k] && Comes(m, m.live[k]); }
    }
  }

  lemma StopDoneFollows(s: Service, state: AbilityState)
    ensures Follows(s, StopAbilityDone(s.(state := state))) && Follows(s, s.(state := state))
  {
  }

  lemma PageGoneFollows(s: Service, token: nat)
    ensures Follows(s, RemoveConnectRecordByPageToken(s, token))
  {
    hide WithoutToken;
  }

  lemma AdmissionFollows(s: Service, sid: Sid, token: nat)
    ensures Follows(s, PerformConnect(s, sid, token))
  {
    hide SidIndex, Notices, AllSettled;
  }

  lemma ChangedFollows(s: Service, e: Event)
    ensures Follows(s, Changed(s, e))
  {
  }

  lemma {:induction false} ClearDescends(m: Services, bundle: string, i: nat)
    requires i <= |m.live|
    ensures Descends(m, ClearFrom(m, bundle, i))
    decreases |m.live| - i
  {
    hide Descends, Follows;
    SameDescends(m);
    if i < |m.live| {
      if m.live[i].bundle == bundle {
        var s := StopAbilityDone(m.live[i]);
        StopDoneFollows(m.live[i], m.live[i].state);
        RetireDescends(m, i, s);
        ClearDescends(Retire(m, i, s), bundle, i);
        DescendsThrough(m, Retire(m, i, s), ClearFrom(Retire(m, i, s), bundle, i));
      } else {
        ClearDescends(m, bundle, i + 1);
      }
    }
  }

  lemma PageGoneDescends(m: Services, token: nat, bundle: string)
    ensures Descends(m, m.(live := PageGone(m.live, token, bundle)))
  {
    hide Follows;
    SameDescends(m);
    var r := PageGone(m.live, token, bundle);
    forall k | 0 <= k < |r| ensures Comes(m, r[k]) {
      if m.live[k].bundle != bundle { PageGoneFollows(m.live[k], token); } else { assert Comes(m, m.live[k]); }
    }
  }

  lemma {:induction false} PagesGoneDescends(m: Services, pages: seq<nat>, bundle: string)
    requires Sound(m)
    ensures var m' := PagesGone(m, pages, bundle); Descends(m, m') && Sound(m')
  {
    hide Descends, Sound;
    if pages == [] {
      SameDescends(m);
    } else {
      var n := |pages| - 1;
      var m1 := PagesGone(m, pages[..n], bundle);
      PagesGoneDescends(m, pages[..n], bundle);
      PageGoneDescends(m1, pages[n], bundle);
      PageIsGoneKeeps(m1, pages[n], bundle);
      DescendsThrough(m, m1, m1.(live := PageGone(m1.live, pages[n], bundle)));
    }
  }

  lemma AdmitDescends(m: Services, bundle: string, name: string, sid: Sid, client: nat)
    ensures Descends(m, ConnectTask(m, bundle, name, sid, client))
  {
    hide Descends, Follows, PerformConnect;
    SameDescends(m);
    var i := ByName(m.live, bundle, name);
    if i < |m.live| {
      AdmissionFollows(m.live[i], sid, client);
      UpdateDescends(m, i, PerformConnect(m.live[i], sid, client));
    }
  }

  lemma ConnectDescends(m: Services, bundle: string, name: string, gap: nat, launch: Launch, sid: Sid, client: nat)
    ensures Descends(m, Connect(m, bundle, name, gap, launch, sid, client))
  {
    var m1 := StartService(m, bundle, name, true, gap, launch);
    hide StartService, Descends;
    StartDescends(m, bundle, name, true, gap, launch);
    AdmitDescends(m1, bundle, name, sid, client);
    DescendsThrough(m, m1, ConnectTask(m1, bundle, name, sid, client));
  }

  lemma TerminateDescends(m: Services, bundle: string, name: string)
    ensures Descends(m, TerminateService(m, bundle, name))
  {
    hide Descends;
    SameDescends(m);
    var i := ByName(m.live, bundle, name);
    if i < |m.live| {
      RetireDescends(m, i, m.live[i]);
      UpdateDescends(m, i, ForceStopServiceAbility(m.live[i]));
    }
  }

  lemma StopDescends(m: Services, token: nat)
    ensures Descends(m, Stop(m, token))
  {
    hide Descends, Follows;
    SameDescends(m);
    var i := ByToken(m.live, token);
    if i < |m.live| {
      var s := m.live[i].(state := STATE_INITIAL);
      StopDoneFollows(m.live[i], STATE_INITIAL);
      UpdateDescends(m, i, s);
      RetireDescends(m, i, StopAbilityDone(s));
    }
  }

  lemma ChangedDescends(m: Services, i: nat, e: Event)
    requires i <= |m.live|
    ensures i < |m.live| ==> Descends(m, Update(m, i, Changed(m.live[i], e)))
  {
    hide Descends, Follows, Changed;
    if i < |m.live| {
      ChangedFollows(m.live[i], e);
      UpdateDescends(m, i, Changed(m.live[i], e));
    }
  }

  // Every service after a step was there before it, or is a new one.
  lemma StepDescends(m: Services, e: Event)
    ensures Descends(m, Step(m, e))
  {
    hide Descends, Connect, Stop, StartService, TerminateService, ClearFrom, Changed, PageGone;
    SameDescends(m);
    match e
    case StartRequest(bundle, name, gap, launch) => StartDescends(m, bundle, name, false, gap, launch);
    case ConnectRequested(bundle, name, gap, launch, sid, client) =>
      ConnectDescends(m, bundle, name, gap, launch, sid, client);
    case TerminateRequest(bundle, name) => TerminateDescends(m, bundle, name);
    case StopAck(token) => StopDescends(m, token);
    case AppGone(bundle) => ClearDescends(m, bundle, 0);
    case PageIsGone(page, bundle) => PageGoneDescends(m, page, bundle);
    case DisconnectRequested(sid, client) => ChangedDescends(m, ByConnection(m.live, sid, client), e);
    case _ => ChangedDescends(m, ByToken(m.live, e.token), e);
  }

  // ---------- clients told after the service was told to stop ----------

  function After(m: Services, es: seq<Event>): Services {
    if es == [] then m else Step(After(m, es[..|es| - 1]), es[|es| - 1])
  }

  lemma {:induction false} AfterDescends(m: Services, es: seq<Event>)
    ensures Descends(m, After(m, es))
  {
    hide Descends, Step;
    if es == [] {
      SameDescends(m);
    } else {
      AfterDescends(m, es[..|es| - 1]);
      StepDescends(After(m, es[..|es| - 1]), es[|es| - 1]);
      DescendsThrough(m, After(m, es[..|es| - 1]), After(m, es));
    }
  }

  // s is on the list of m', or has left it since m.
  ghost predicate Lives(m: Services, m': Services, s: Service) {
    || (exists k :: 0 <= k < |m'.live| && m'.live[k] == s)
    || (exists k :: |m.retired| <= k < |m'.retired| && m'.retired[k] == s)
  }

  // The events have some client told that it is connected to the service that was the i-th.
  ghost predicate Tells(m: Services, i: nat, es: seq<Event>)
    requires i < |m.live|
  {
    exists s :: Lives(m, After(m, es), s) && s.token == m.live[i].token && !Untold(s.log, |m.live[i].log|)
  }

  // A stopping service tells nobody any more.
  lemma StoppingTellsNobody(m: Services, i: nat, es: seq<Event>)
    requires Sound(m) && i < |m.live| && IsPerformStop(m.live[i])
    ensures !Tells(m, i, es)
  {
    hide Untold, After, Good;
    AfterDescends(m, es);
    forall s | Lives(m, After(m, es), s) && s.token == m.live[i].token ensures Untold(s.log, |m.live[i].log|) {
      assert Comes(m, s);
      var j :| 0 <= j < |m.live| && Follows(m.live[j], s);
      assert m.live[j].token == m.live[i].token;
    }
  }

  lemma {:induction false} NewSid(rs: seq<Connection>) returns (sid: Sid)
    ensures forall k :: 0 <= k < |rs| ==> rs[k].sid < sid
  {
    if rs == [] {
      sid := 0;
    } else {
      sid := NewSid(rs[..|rs| - 1]);
      var last := rs[|rs| - 1];
      if sid <= last.sid { sid := last.sid + 1; }
      assert forall k :: 0 <= k < |rs| - 1 ==> rs[k] == rs[..|rs| - 1][k];
    }
  }

  // An acknowledged connection, and a client the service does not know: it is told at once.
  lemma NewClientIsTold(s: Service, sid: Sid, client: nat)
    requires s.hasApp && !IsPerformStop(s) && forall k :: 0 <= k < |s.records| ==> s.records[k].sid != sid
    ensures var s' := PerformConnect(ConnectDone(s, 0), sid, client);
            s.log < s'.log && s'.log[|s'.log| - 1].ConnectNotice? && s'.token == s.token
  {
    var s1 := ConnectDone(s, 0);
    assert forall k :: 0 <= k < |s1.records| ==> s1.records[k].sid != sid;
    var new_ := Connection(s1.made, sid, client, CONNECTING);
    var rs := s1.records + [new_];
    assert Admit(s1, sid, client).records == rs && rs[|rs| - 1] == new_;
    var notices := Notices(rs, s1.serviceSid);
    assert notices[|notices| - 1] == ConnectNotice(new_.id, sid, s1.serviceSid);
  }

  // Any other service can still tell one, whether it was told to stop or not.
  lemma OthersTell(m: Services, i: nat) returns (es: seq<Event>)
    requires Sound(m) && i < |m.live| && !IsPerformStop(m.live[i])
    ensures Tells(m, i, es)
  {
    var s := m.live[i];
    var sid := NewSid(s.records);
    var ack, request := ConnectAck(s.token, 0), ConnectRequested(s.bundle, s.name, 0, REACHED, sid, 0);
    es := [ack, request];
    NewClientIsTold(s, sid, 0);
    var s1 := ConnectDone(s, 0);
    var s2 := PerformConnect(s1, sid, 0);
    AckReaches(m, i, 0);
    var m1 := Update(m, i, s1);
    RequestReaches(m1, i, sid, 0);
    assert es[..1] == [ack] && [ack][..0] == [];
    assert After(m, [ack]) == Step(After(m, []), ack) == m1;
    assert After(m, es) == Update(m1, i, s2);
    assert After(m, es).live[i] == s2 && Lives(m, After(m, es), s2);
    assert !Untold(s2.log, |s.log|);
  }

  lemma AckReaches(m: Services, i: nat, sid: Sid)
    requires Sound(m) && i < |m.live|
    ensures Step(m, ConnectAck(m.live[i].token, sid)) == Update(m, i, ConnectDone(m.live[i], sid))
    ensures Sound(Update(m, i, ConnectDone(m.live[i], sid)))
  {
    var k := ByToken(m.live, m.live[i].token);
    assert k <= i && m.live[k].token == m.live[i].token;
    StepKeeps(m, ConnectAck(m.live[i].token, sid));
  }

  lemma RequestReaches(m: Services, i: nat, sid: Sid, client: nat)
    requires Sound(m) && i < |m.live| && !IsPerformStop(m.live[i])
    ensures Step(m, ConnectRequested(m.live[i].bundle, m.live[i].name, 0, REACHED, sid, client))
         == Update(m, i, PerformConnect(m.live[i], sid, client))
  {
    var k := ByName(m.live, m.live[i].bundle, m.live[i].name);
    assert k <= i && m.live[k].bundle == m.live[i].bundle && m.live[k].name == m.live[i].name;
  }

  // The last page connected to a service is gone, and the service is told to stop. A client may be told later
  // that it is connected to it if and only if the service was not stopping already.
  lemma ToldToStopStillTells(m: Services, i: nat, page: nat, bundle: string)
    requires Sound(m) && i < |m.live|
    requires var m' := Step(m, PageIsGone(page, bundle));
             |m'.live[i].log| == |m.live[i].log| + 1 && m'.live[i].log[|m.live[i].log|].StopRequest?
    ensures var m' := Step(m, PageIsGone(page, bundle));
            (exists es :: Tells(m', i, es)) <==> !IsPerformStop(m.live[i])
  {
    var m' := Step(m, PageIsGone(page, bundle));
    StepKeeps(m, PageIsGone(page, bundle));
    if IsPerformStop(m'.live[i]) {
      forall es ensures !Tells(m', i, es) { StoppingTellsNobody(m', i, es); }
    } else {
      var es := OthersTell(m', i);
    }
  }

  // A service is connected for one page, which goes; it is told to stop, and then tells the next page that it
  // is connected.
  lemma NoticeAfterStop(bundle: string, name: string, other: string)
    requires other != bundle
    ensures var es := [ConnectRequested(bundle, name, 0, REACHED, 1, 100), Reported(0, STATE_INACTIVE),
                       ConnectAck(0, 7), PageIsGone(100, other), ConnectRequested(bundle, name, 0, REACHED, 2, 101)];
            && |Run(es).live| == 1
            && Run(es).live[0].log == [InactiveRequest, ConnectRequest, ConnectNotice(0, 1, 7),
                                       StopRequest(false, false, 0, false), ConnectNotice(1, 2, 7)]
  {
    var es := [ConnectRequested(bundle, name, 0, REACHED, 1, 100), Reported(0, STATE_INACTIVE),
               ConnectAck(0, 7), PageIsGone(100, other), ConnectRequested(bundle, name, 0, REACHED, 2, 101)];
    var s3 := FirstClient(bundle, name);
    var s4, s5 := NextClient(s3, bundle, name, other);
    var s1 := Step(NO_SERVICES, es[0]).live[0];
    OneService(es, [s1, StateReported(s1, STATE_INACTIVE), s3, s4, s5]);
  }

  lemma FirstClient(bundle: string, name: string) returns (s3: Service)
    ensures var m1 := Step(NO_SERVICES, ConnectRequested(bundle, name, 0, REACHED, 1, 100));
            && |m1.live| == 1 && m1 == Services([m1.live[0]], [], 1)
            && var s2 := StateReported(m1.live[0], STATE_INACTIVE);
               && Step(m1, Reported(0, STATE_INACTIVE)) == Services([s2], [], 1)
               && Step(Services([s2], [], 1), ConnectAck(0, 7)) == Services([s3], [], 1)
    ensures s3 == Service(0, bundle, name, true, STATE_INACTIVE, CONNECTED, false, false, 7,
                          [Connection(0, 1, 100, CONNECTED)], 1,
                          [InactiveRequest, ConnectRequest, ConnectNotice(0, 1, 7)])
  {
    var first := Connection(0, 1, 100, CONNECTING);
    var s0 := Created(0, bundle, name, true, REACHED);
    var s1 := s0.(records := [first], made := 1);
    assert StartService(NO_SERVICES, bundle, name, true, 0, REACHED) == Services([s0], [], 1);
    assert PerformConnect(s0, 1, 100) == s1 && ByName([s0], bundle, name) == 0;
    assert Step(NO_SERVICES, ConnectRequested(bundle, name, 0, REACHED, 1, 100)) == Services([s1], [], 1);
    var s2 := StateReported(s1, STATE_INACTIVE);
    OneNotice([], first, 7);
    s3 := ConnectDone(s2, 7);
    assert [] + [first] == [first];
    assert Step(Services([s1], [], 1), Reported(0, STATE_INACTIVE)) == Services([s2], [], 1);
  }

  lemma NextClient(s3: Service, bundle: string, name: string, other: string) returns (s4: Service, s5: Service)
    requires other != bundle
    requires s3 == Service(0, bundle, name, true, STATE_INACTIVE, CONNECTED, false, false, 7,
                           [Connection(0, 1, 100, CONNECTED)], 1,
                           [InactiveRequest, ConnectRequest, ConnectNotice(0, 1, 7)])
    ensures Step(Services([s3], [], 1), PageIsGone(100, other)) == Services([s4], [], 1)
    ensures Step(Services([s4], [], 1), ConnectRequested(bundle, name, 0, REACHED, 2, 101)) == Services([s5], [], 1)
    ensures s5.log == s3.log + [StopRequest(false, false, 0, false), ConnectNotice(1, 2, 7)]
  {
    assert s3.records[..0] == [] && WithoutToken(s3.records, 100) == [];
    s4 := RemoveConnectRecordByPageToken(s3, 100);
    assert PageGone([s3], 100, other) == [s4];
    var second := Connection(1, 2, 101, CONNECTING);
    OneNotice([], second, 7);
    assert [] + [second] == [second];
    s5 := PerformConnect(s4, 2, 101);
    assert s5.log == s4.log + [ConnectNotice(1, 2, 7)];
  }

  lemma OneNotice(rs: seq<Connection>, last: Connection, serviceSid: Sid)
    requires last.status == CONNECTING
    ensures Notices(rs + [last], serviceSid) == Notices(rs, serviceSid) + [ConnectNotice(last.id, last.sid, serviceSid)]
    ensures AllSettled(rs + [last]) == AllSettled(rs) + [last.(status := CONNECTED)]
  {
    assert (rs + [last])[..|rs|] == rs;
  }

  // A run in which the k-th event makes the only service ss[k].
  lemma {:induction false} OneService(es: seq<Event>, ss: seq<Service>)
    requires |es| == |ss| > 0
    requires Step(NO_SERVICES, es[0]) == Services([ss[0]], [], 1)
    requires forall k :: 0 < k < |es| ==> Step(Services([ss[k - 1]], [], 1), es[k]) == Services([ss[k]], [], 1)
    ensures Run(es) == Services([ss[|ss| - 1]], [], 1)
  {
    var n := |es| - 1;
    if n > 0 { OneService(es[..n], ss[..n]); }
  }
}
