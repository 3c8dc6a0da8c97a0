/** The service half of a PageAbilityRecord and the list of service records, updated in place. */
module AbilityConnectMissions {
  import opened AbilityStates
  import opened ServiceConnects
  import opened ServiceMissions

  class AbilityConnectRecord {
    ghost const id: nat
    const connectSid: Sid
    const abilityToken: nat
    var status: ConnectStatus

    constructor (ghost id: nat, connectSid: Sid, abilityToken: nat)
      ensures Shown() == Connection(id, connectSid, abilityToken, INIT)
    {
      this.id, this.connectSid, this.abilityToken := id, connectSid, abilityToken;
      status := INIT;
    }

    ghost function Shown(): Connection
      reads this
    {
      Connection(id, connectSid, abilityToken, status)
    }

    method SetStatus(status: ConnectStatus)
      modifies this
      ensures Shown() == old(Shown()).(status := status)
    {
      this.status := status;
    }
  }

  class ServiceRecord {
    const token: nat
    const bundleName: string
    const name: string
    var hasApp: bool                // appRecord_ is not null
    var currentState: AbilityState
    var connectStatus: ConnectStatus
    var startDone: bool
    var forceStop: bool
    var serviceSid: Sid
    var connectRecords: seq<AbilityConnectRecord>
    ghost var view: seq<Connection> // what the connect records hold
    ghost var made: nat
    ghost var log: seq<Sent>
    ghost var Repr: set<object>

    ghost predicate Valid()
      reads this, Repr
    {
      && this in Repr && |view| == |connectRecords|
      && (forall k :: 0 <= k < |connectRecords| ==> connectRecords[k] in Repr && connectRecords[k].Shown() == view[k])
      && (forall j, k :: 0 <= j < k < |connectRecords| ==> connectRecords[j] != connectRecords[k])
    }

    ghost function State(): Service
      reads this
    {
      Service(token, bundleName, name, hasApp, currentState, connectStatus, startDone, forceStop, serviceSid, view,
        made, log)
    }

    constructor (token: nat, bundleName: string, name: string, waitConnect: bool)
      ensures Valid() && fresh(Repr) && State() == Created(token, bundleName, name, waitConnect, NOT_SPAWNED)
    {
      this.token, this.bundleName, this.name := token, bundleName, name;
      hasApp, currentState, forceStop, serviceSid := false, STATE_UNINITIALIZED, false, 0;
      connectStatus, startDone := if waitConnect then WAIT_CONNECT else INIT, !waitConnect;
      connectRecords, view, made, log := [], [], 0, [];
      Repr := {this};
    }

    // Recording what is sent stands for sending it.
    ghost method Tell(what: Sent)
      requires Valid()
      modifies this`log
      ensures Valid() && State() == Send(old(State()), what)
    {
      log := log + [what];
    }

    method PerformStop() returns (r: bool)
      ensures r == IsPerformStop(State())
    {
      return connectStatus == STOPPING || connectStatus == STOPPED;
    }

    method IndexOfSid(sid: Sid) returns (i: nat)
      requires Valid()
      ensures i == SidIndex(view, sid)
    {
      i := 0;
      while i < |connectRecords| && connectRecords[i].connectSid != sid
        invariant i <= |connectRecords| && forall j :: 0 <= j < i ==> view[j].sid != sid
      {
        i := i + 1;
      }
      SidIndexIs(view, sid, i);
    }

    method FindConnection(sid: Sid, abilityToken: nat) returns (found: bool)
      requires Valid()
      ensures found == HasConnection(State(), sid, abilityToken)
    {
      for i := 0 to |connectRecords|
        invariant forall j :: 0 <= j < i ==> !(view[j].sid == sid && view[j].token == abilityToken)
      {
        if connectRecords[i].connectSid == sid && connectRecords[i].abilityToken == abilityToken { return true; }
      }
      return false;
    }

    method RemoveConnectRecord(sid: Sid)
      requires Valid()
      modifies this`connectRecords, this`view
      ensures Valid() && State() == old(State()).(records := WithoutSid(old(view), sid))
    {
      var i := IndexOfSid(sid);
      if i < |connectRecords| {
        connectRecords := connectRecords[..i] + connectRecords[i + 1..];
        view := view[..i] + view[i + 1..];
      }
    }

    method RequestConnect()
      requires Valid()
      modifies this`log
      ensures Valid() && State() == ConnectAbility(old(State()))
    {
      if hasApp { Tell(ConnectRequest); }
    }

    method Disconnect(sid: Sid)
      requires Valid()
      modifies this
      ensures Valid() && Repr == old(Repr) && State() == DisconnectAbility(old(State()), sid)
    {
      if !hasApp { return; }
      RemoveConnectRecord(sid);
      if connectStatus == DISCONNECT || connectStatus == DISCONNECTING { return; }
      var stopping := PerformStop();
      if stopping { return; }
      if |connectRecords| == 0 {
        connectStatus := DISCONNECTING;
        Tell(DisconnectRequest);
      }
    }

    // A waiting client is told, once.
    method SettleRecord(i: nat)
      requires Valid() && i < |connectRecords|
      modifies this`view, this`log, connectRecords[i]
      ensures Valid() && view == old(view)[i := Settled(old(view[i]))]
      ensures log == old(log) + Notices([old(view[i])], serviceSid)
    {
      ghost var c := view[i];
      assert [c][..0] == [];
      if connectRecords[i].status == CONNECTING {
        connectRecords[i].SetStatus(CONNECTED);
        view := view[i := connectRecords[i].Shown()];
        Tell(ConnectNotice(connectRecords[i].id, connectRecords[i].connectSid, serviceSid));
      }
    }

    method NotifyWaiting()
      requires Valid()
      modifies Repr
      ensures Valid() && Repr == old(Repr) && State() == ConnectAbilityDone(old(State()))
    {
      if !hasApp { return; }
      ghost var rs, before := view, log;
      for i := 0 to |connectRecords|
        invariant Valid() && Repr == old(Repr) && |view| == |rs|
        invariant State() == old(State()).(records := view, log := log)
        invariant forall k :: 0 <= k < |rs| ==> view[k] == if k < i then Settled(rs[k]) else rs[k]
        invariant log == before + Notices(rs[..i], serviceSid)
      {
        NoticesStep(rs, i, serviceSid);
        SettleRecord(i);
      }
      assert rs[..|rs|] == rs && view == AllSettled(rs);
    }

    method DisconnectDone()
      requires Valid()
      modifies this
      ensures Valid() && Repr == old(Repr) && State() == DisconnectAbilityDone(old(State()))
    {
      if !hasApp { return; }
      connectStatus := if startDone then INIT else DISCONNECT;
      if (|connectRecords| == 0 && !startDone) || forceStop {
        connectStatus := STOPPING;
        Tell(StopRequest(true, forceStop, |connectRecords|, startDone));
      }
    }

    method ForceStopService()
      requires Valid()
      modifies this
      ensures Valid() && Repr == old(Repr) && State() == ForceStopServiceAbility(old(State()))
    {
      if !hasApp { return; }
      forceStop := true;
      var stopping := PerformStop();
      if stopping || connectStatus == DISCONNECTING { return; }
      if connectStatus == DISCONNECT || |connectRecords| == 0 {
        connectStatus := STOPPING;
        Tell(StopRequest(true, forceStop, |connectRecords|, startDone));
      } else {
        connectStatus := DISCONNECTING;
        Tell(DisconnectRequest);
      }
    }

    method StopDone()
      requires Valid()
      modifies this
      ensures Valid() && Repr == old(Repr) && State() == StopAbilityDone(old(State()))
    {
      if !hasApp { return; }
      connectStatus := STOPPED;
      ghost var before := log;
      for i := 0 to |connectRecords|
        invariant Valid() && Repr == old(Repr)
        invariant State() == old(State()).(status := STOPPED, log := before + DisconnectNotices(view[..i]))
      {
        assert view[..i + 1] == view[..i] + [view[i]];
        Tell(DisconnectNotice(connectRecords[i].connectSid));
        assert DisconnectNotices(view[..i + 1]) == DisconnectNotices(view[..i]) + [DisconnectNotice(view[i].sid)];
      }
      assert view[..|view|] == view;
    }

    // The connections of the other clients.
    method OthersThan(pageToken: nat) returns (kept: seq<AbilityConnectRecord>)
      requires Valid()
      ensures |kept| == |WithoutToken(view, pageToken)| && forall k :: 0 <= k < |kept| ==> kept[k] in connectRecords
      ensures forall k :: 0 <= k < |kept| ==> kept[k].Shown() == WithoutToken(view, pageToken)[k]
      ensures forall j, k :: 0 <= j < k < |kept| ==> kept[j] != kept[k]
    {
      kept := [];
      for i := 0 to |connectRecords|
        invariant |kept| == |WithoutToken(view[..i], pageToken)|
        invariant forall k :: 0 <= k < |kept| ==> kept[k] in connectRecords[..i]
        invariant forall k :: 0 <= k < |kept| ==> kept[k].Shown() == WithoutToken(view[..i], pageToken)[k]
        invariant forall j, k :: 0 <= j < k < |kept| ==> kept[j] != kept[k]
      {
        assert view[..i + 1][..i] == view[..i];
        assert connectRecords[..i + 1] == connectRecords[..i] + [connectRecords[i]];
        if connectRecords[i].abilityToken != pageToken { kept := kept + [connectRecords[i]]; }
      }
      assert view[..|view|] == view;
    }

    method RemoveRecordsOfPage(pageToken: nat)
      requires Valid()
      modifies this
      ensures Valid() && Repr == old(Repr)
      ensures State() == ServiceConnects.RemoveConnectRecordByPageToken(old(State()), pageToken)
    {
      if |connectRecords| == 0 { return; }
      var kept := OthersThan(pageToken);
      connectRecords, view := kept, WithoutToken(view, pageToken);
      if |connectRecords| == 0 && !startDone && currentState == STATE_INACTIVE && hasApp {
        Tell(StopRequest(false, forceStop, |connectRecords|, startDone));
      }
    }

    method AdmitClient(sid: Sid, client: nat) returns (i: nat)
      requires Valid()
      modifies this
      ensures Valid() && fresh(Repr - old(Repr)) && State() == Admit(old(State()), sid, client)
      ensures i == SidIndex(old(view), sid) < |connectRecords|
    {
      i := IndexOfSid(sid);
      if i == |connectRecords| { PushConnectRecord(sid, client); }
    }

    method PushConnectRecord(sid: Sid, client: nat)
      requires Valid()
      modifies this`connectRecords, this`view, this`made, this`Repr
      ensures Valid() && fresh(Repr - old(Repr))
      ensures view == old(view) + [Connection(old(made), sid, client, CONNECTING)] && made == old(made) + 1
    {
      var connectRecord := new AbilityConnectRecord(made, sid, client);
      connectRecord.SetStatus(CONNECTING);
      connectRecords := connectRecords + [connectRecord];
      view := view + [connectRecord.Shown()];
      made, Repr := made + 1, Repr + {connectRecord};
    }

    method PerformConnectTask(sid: Sid, client: nat)
      requires Valid()
      modifies Repr
      ensures Valid() && fresh(Repr - old(Repr)) && State() == PerformConnect(old(State()), sid, client)
    {
      var before := connectStatus;
      if before == DISCONNECTING || before == DISCONNECT || before == STOPPING || before == STOPPED { return; }
      var i := AdmitClient(sid, client);
      if before == INIT {
        if currentState == STATE_UNINITIALIZED {
          connectStatus := WAIT_CONNECT;
        } else {
          connectStatus := CONNECTING;
          RequestConnect();
        }
      } else if before == CONNECTED && connectRecords[i].status == CONNECTING {
        NotifyWaiting();
      }
    }

    method ConnectDoneTask(sid: Sid)
      requires Valid()
      modifies Repr
      ensures Valid() && Repr == old(Repr) && State() == ConnectDone(old(State()), sid)
    {
      var stopping := PerformStop();
      if stopping { return; }
      serviceSid := sid;
      NotifyWaiting();
      connectStatus := CONNECTED;
    }

    method DisconnectDoneTask()
      requires Valid()
      modifies this
      ensures Valid() && Repr == old(Repr) && State() == ServiceConnects.DisconnectDone(old(State()))
    {
      var stopping := PerformStop();
      if stopping { return; }
      DisconnectDone();
    }

    method ReportState(state: AbilityState)
      requires Valid()
      modifies this
      ensures Valid() && Repr == old(Repr) && State() == StateReported(old(State()), state)
    {
      currentState := state;
      if state == STATE_INACTIVE && connectStatus == WAIT_CONNECT {
        connectStatus := CONNECTING;
        RequestConnect();
      }
    }
  }

  class AbilityConnectMission {
    var serviceRecords: seq<ServiceRecord>
    ghost var view: seq<Service>    // what the service records hold
    ghost var retired: seq<Service>
    var tokens: nat                 // the counter of TokenGenerate
    ghost var Repr: set<object>

    ghost predicate Valid()
      reads this, Repr
    {
      && this in Repr && |view| == |serviceRecords|
      && (forall k :: 0 <= k < |serviceRecords| ==>
            var r := serviceRecords[k];
            r in Repr && r.Repr <= Repr && this !in r.Repr && r.Valid() && r.State() == view[k])
      && (forall j, k :: 0 <= j < k < |serviceRecords| ==> serviceRecords[j].Repr !! serviceRecords[k].Repr)
    }

    ghost function State(): Services
      reads this
    {
      Services(view, retired, tokens)
    }

    constructor ()
      ensures Valid() && fresh(Repr) && State() == NO_SERVICES
    {
      serviceRecords, view, retired, tokens := [], [], [], 0;
      Repr := {this};
    }

    method FindByToken(token: nat) returns (i: nat)
      requires Valid()
      ensures i == ByToken(view, token)
    {
      i := 0;
      while i < |serviceRecords| && serviceRecords[i].token != token
        invariant i <= |serviceRecords| && forall j :: 0 <= j < i ==> view[j].token != token
      {
        i := i + 1;
      }
      ByTokenIs(view, token, i);
    }

    method FindByName(bundleName: string, name: string) returns (i: nat)
      requires Valid()
      ensures i == ByName(view, bundleName, name)
    {
      i := 0;
      while i < |serviceRecords| && !(serviceRecords[i].bundleName == bundleName && serviceRecords[i].name == name)
        invariant i <= |serviceRecords|
        invariant forall j :: 0 <= j < i ==> view[j].bundle != bundleName || view[j].name != name
      {
        i := i + 1;
      }
      ByNameIs(view, bundleName, name, i);
    }

    method FindByConnection(sid: Sid, client: nat) returns (i: nat)
      requires Valid()
      ensures i == ByConnection(view, sid, client)
    {
      i := 0;
      while i < |serviceRecords|
        invariant i <= |serviceRecords| && forall j :: 0 <= j < i ==> !HasConnection(view[j], sid, client)
      {
        var found := serviceRecords[i].FindConnection(sid, client);
        if found { break; }
        i := i + 1;
      }
      ByConnectionIs(view, sid, client, i);
    }

    method CountServiceInApp(bundleName: string) returns (count: nat)
      requires Valid()
      ensures count == Count(view, bundleName)
    {
      count := 0;
      for i := 0 to |serviceRecords|
        invariant count == Count(view[..i], bundleName)
      {
        assert view[..i + 1][..i] == view[..i];
        if serviceRecords[i].bundleName == bundleName { count := count + 1; }
      }
      assert view[..|view|] == view;
    }

    // Takes the record off the list.
    method RemoveAt(i: nat)
      requires Valid() && i < |serviceRecords|
      modifies this`serviceRecords, this`view, this`retired
      ensures Valid() && State() == Retire(old(State()), i, old(serviceRecords[i].State()))
    {
      retired := retired + [serviceRecords[i].State()];
      serviceRecords := serviceRecords[..i] + serviceRecords[i + 1..];
      view := view[..i] + view[i + 1..];
    }

    // After serviceRecords[i] has changed.
    ghost method Note(i: nat)
      requires i < |serviceRecords|
      modifies this`view, this`Repr
      requires this in Repr && |view| == |serviceRecords|
      requires forall k :: 0 <= k < |serviceRecords| ==>
                 var r := serviceRecords[k];
                 r in Repr && this !in r.Repr && r.Valid() && (k != i ==> r.Repr <= Repr && r.State() == view[k])
      requires forall j, k :: 0 <= j < k < |serviceRecords| ==> serviceRecords[j].Repr !! serviceRecords[k].Repr
      ensures Valid() && State() == Update(old(State()), i, serviceRecords[i].State())
      ensures Repr == old(Repr) + serviceRecords[i].Repr
    {
      view, Repr := view[i := serviceRecords[i].State()], Repr + serviceRecords[i].Repr;
    }

    method DisconnectAbilityTask(sid: Sid, client: nat)
      requires Valid()
      modifies Repr
      ensures Valid() && fresh(Repr - old(Repr)) && State() == Step(old(State()), DisconnectRequested(sid, client))
    {
      hide ServiceRecord.Valid;
      var i := FindByConnection(sid, client);
      if i == |serviceRecords| { return; }
      serviceRecords[i].Disconnect(sid);
      Note(i);
    }

    method ConnectDoneTask(token: nat, sid: Sid)
      requires Valid()
      modifies Repr
      ensures Valid() && fresh(Repr - old(Repr)) && State() == Step(old(State()), ConnectAck(token, sid))
    {
      hide ConnectDone;
      var i := FindByToken(token);
      if i == |serviceRecords| { return; }
      serviceRecords[i].ConnectDoneTask(sid);
      Note(i);
    }

    method DisconnectDoneTask(token: nat)
      requires Valid()
      modifies Repr
      ensures Valid() && fresh(Repr - old(Repr)) && State() == Step(old(State()), DisconnectAck(token))
    {
      hide ServiceRecord.Valid;
      var i := FindByToken(token);
      if i == |serviceRecords| { return; }
      serviceRecords[i].DisconnectDoneTask();
      Note(i);
    }

    method TerminateTask(token: nat)
      requires Valid()
      modifies Repr
      ensures Valid() && fresh(Repr - old(Repr)) && State() == Step(old(State()), TerminateByToken(token))
    {
      hide ServiceRecord.Valid;
      var i := FindByToken(token);
      if i == |serviceRecords| { return; }
      serviceRecords[i].ForceStopService();
      Note(i);
    }

    method StateTask(token: nat, state: AbilityState)
      requires Valid()
      modifies Repr
      ensures Valid() && fresh(Repr - old(Repr)) && State() == Step(old(State()), Reported(token, state))
    {
      hide ServiceRecord.Valid;
      var i := FindByToken(token);
      if i == |serviceRecords| { return; }
      serviceRecords[i].ReportState(state);
      Note(i);
    }

    method LaunchPending(token: nat)
      requires Valid()
      modifies Repr
      ensures Valid() && fresh(Repr - old(Repr)) && State() == Step(old(State()), Attached(token))
    {
      hide ServiceRecord.Valid;
      var i := FindByToken(token);
      if i == |serviceRecords| { return; }
      if serviceRecords[i].hasApp { serviceRecords[i].Tell(InactiveRequest); }
      Note(i);
    }

    method TerminateServiceTask(bundleName: string, name: string)
      requires Valid()
      modifies Repr
      ensures Valid() && fresh(Repr - old(Repr)) && State() == Step(old(State()), TerminateRequest(bundleName, name))
    {
      hide ServiceRecord.Valid;
      var i := FindByName(bundleName, name);
      if i == |serviceRecords| { return; }
      if serviceRecords[i].currentState == STATE_UNINITIALIZED {
        RemoveAt(i);
      } else {
        serviceRecords[i].ForceStopService();
        Note(i);
      }
    }

    method ConnectTask(bundleName: string, name: string, sid: Sid, client: nat)
      requires Valid()
      modifies Repr
      ensures Valid() && fresh(Repr - old(Repr))
              && State() == ServiceMissions.ConnectTask(old(State()), bundleName, name, sid, client)
    {
      var i := FindByName(bundleName, name);
      if i == |serviceRecords| { return; }
      var stopping := serviceRecords[i].PerformStop();
      if !stopping { ConnectAt(i, sid, client); }
    }

    method ConnectAt(i: nat, sid: Sid, client: nat)
      requires Valid() && i < |serviceRecords|
      modifies Repr
      ensures Valid() && fresh(Repr - old(Repr))
              && State() == Update(old(State()), i, PerformConnect(old(view[i]), sid, client))
    {
      serviceRecords[i].PerformConnectTask(sid, client);
      Note(i);
    }

    // gap tokens went to page records meanwhile.
    method StartService(bundleName: string, name: string, waitConnect: bool, gap: nat, launch: Launch)
      returns (ok: bool)
      requires Valid()
      modifies Repr
      ensures Valid() && fresh(Repr - old(Repr))
      ensures State() == ServiceMissions.StartService(old(State()), bundleName, name, waitConnect, gap, launch)
      ensures ok == (ByName(old(view), bundleName, name) == |old(view)| && Launched(launch))
    {
      var i := FindByName(bundleName, name);
      if i < |serviceRecords| { return false; }
      ghost var m := State();
      Enlist(bundleName, name, waitConnect, gap, launch);
      StartServiceIs(m, State(), bundleName, name, waitConnect, gap, launch);
      if launch == REFUSED || launch == NOT_SPAWNED {
        RemoveAt(i);
        return false;
      }
      return true;
    }

    method Enlist(bundleName: string, name: string, waitConnect: bool, gap: nat, launch: Launch)
      requires Valid()
      modifies Repr
      ensures Valid() && fresh(Repr - old(Repr)) && |serviceRecords| == |old(serviceRecords)| + 1
      ensures var token := old(tokens) + gap;
              var created := Created(token, bundleName, name, waitConnect, launch);
              State() == Services(old(view) + [created], old(retired), token + 1)
    {
      var i := |serviceRecords|;
      var record := new ServiceRecord(tokens + gap, bundleName, name, waitConnect);
      tokens := tokens + gap + 1;
      PushServiceRecord(record);
      assert view[i] == Created(record.token, bundleName, name, waitConnect, NOT_SPAWNED);
      LaunchAt(i, launch);
      assert [] + [InactiveRequest] == [InactiveRequest];
      assert view == old(view) + [Created(record.token, bundleName, name, waitConnect, launch)];
    }

    method LaunchAt(i: nat, launch: Launch)
      requires Valid() && i < |serviceRecords|
      modifies Repr
      ensures Valid() && Repr == old(Repr) && serviceRecords == old(serviceRecords)
      ensures var s := old(view[i]).(hasApp := launch != NOT_SPAWNED);
              State() == Update(old(State()), i, if launch in {REACHED, REFUSED} then Send(s, InactiveRequest) else s)
    {
      serviceRecords[i].hasApp := launch != NOT_SPAWNED;
      if launch == REACHED || launch == REFUSED { serviceRecords[i].Tell(InactiveRequest); }
      Note(i);
    }

    method PushServiceRecord(record: ServiceRecord)
      requires Valid() && record.Valid() && record.Repr !! Repr
      modifies this`serviceRecords, this`view, this`Repr
      ensures Valid() && Repr == old(Repr) + record.Repr && serviceRecords == old(serviceRecords) + [record]
      ensures view == old(view) + [record.State()]
    {
      serviceRecords, view := serviceRecords + [record], view + [record.State()];
      Repr := Repr + record.Repr;
    }

    method ConnectAbility(bundleName: string, name: string, gap: nat, launch: Launch, sid: Sid, client: nat)
      requires Valid()
      modifies Repr
      ensures Valid() && fresh(Repr - old(Repr))
      ensures State() == Connect(old(State()), bundleName, name, gap, launch, sid, client)
    {
      var i := FindByName(bundleName, name);
      if i == |serviceRecords| {
        var ok := StartService(bundleName, name, true, gap, launch);
        if !ok { return; }
      }
      ConnectTask(bundleName, name, sid, client);
    }

    // The stop acknowledgement of a service, without the decision to end its process.
    method StopTask(token: nat)
      requires Valid()
      modifies Repr
      ensures Valid() && fresh(Repr - old(Repr)) && State() == Stop(old(State()), token)
    {
      hide Changed;
      var i := FindByToken(token);
      if i == |serviceRecords| { return; }
      serviceRecords[i].currentState := STATE_INITIAL;
      Note(i);
      if serviceRecords[i].connectStatus == STOPPED { return; }
      StopAt(i);
    }

    method StopAt(i: nat)
      requires Valid() && i < |serviceRecords|
      modifies Repr
      ensures Valid() && fresh(Repr - old(Repr)) && State() == Retire(old(State()), i, StopAbilityDone(old(view[i])))
    {
      hide ServiceRecord.Valid;
      serviceRecords[i].StopDone();
      Note(i);
      RemoveAt(i);
    }

    method RemoveServiceRecords(bundleName: string)
      requires Valid()
      modifies Repr
      ensures Valid() && fresh(Repr - old(Repr)) && State() == ClearFrom(old(State()), bundleName, 0)
    {
      hide ServiceRecord.Valid;
      var i := 0;
      while i < |serviceRecords|
        invariant Valid() && fresh(Repr - old(Repr)) && i <= |serviceRecords|
        invariant ClearFrom(old(State()), bundleName, 0) == ClearFrom(State(), bundleName, i)
        decreases |serviceRecords| - i
      {
        if serviceRecords[i].bundleName == bundleName {
          StopAt(i);
        } else {
          i := i + 1;
        }
      }
    }

    method RemoveConnectRecordByPageToken(page: nat, bundleName: string)
      requires Valid()
      modifies Repr
      ensures Valid() && fresh(Repr - old(Repr)) && State() == Step(old(State()), PageIsGone(page, bundleName))
    {
      hide ServiceConnects.RemoveConnectRecordByPageToken;
      ghost var before := view;
      for i := 0 to |serviceRecords|
        invariant Valid() && fresh(Repr - old(Repr)) && |serviceRecords| == |before|
        invariant State() == old(State()).(live := view)
        invariant forall k :: 0 <= k < |before| ==>
                    view[k] == if k < i then PageGone(before, page, bundleName)[k] else before[k]
      {
        if serviceRecords[i].bundleName != bundleName {
          serviceRecords[i].RemoveRecordsOfPage(page);
          Note(i);
        }
      }
      assert view == PageGone(before, page, bundleName);
    }

    method RemoveConnectRecordsOfPages(pages: seq<nat>, bundleName: string)
      requires Valid()
      modifies Repr
      ensures Valid() && fresh(Repr - old(Repr)) && State() == PagesGone(old(State()), pages, bundleName)
    {
      ghost var m := State();
      for k := 0 to |pages|
        invariant Valid() && fresh(Repr - old(Repr)) && State() == PagesGone(m, pages[..k], bundleName)
      {
        PagesGoneStep(m, pages, k, bundleName);
        RemoveConnectRecordByPageToken(pages[k], bundleName);
      }
      assert pages[..|pages|] == pages;
    }

    // The application and these pages of it are gone.
    method ClearApp(pages: seq<nat>, bundleName: string)
      requires Valid()
      modifies Repr
      ensures Valid() && fresh(Repr - old(Repr))
      ensures State() == PagesGone(ClearFrom(old(State()), bundleName, 0), pages, bundleName)
    {
      RemoveServiceRecords(bundleName);
      RemoveConnectRecordsOfPages(pages, bundleName);
    }

    // One task, whatever it is.
    method Perform(e: Event)
      requires Valid()
      modifies Repr
      ensures Valid() && fresh(Repr - old(Repr)) && State() == Step(old(State()), e)
    {
      match e {
        case StartRequest(bundle, name, gap, launch) => var ok := StartService(bundle, name, false, gap, launch);
        case ConnectRequested(bundle, name, gap, launch, sid, client) =>
          ConnectAbility(bundle, name, gap, launch, sid, client);
        case Attached(token) => LaunchPending(token);
        case Reported(token, state) => StateTask(token, state);
        case ConnectAck(token, serviceSid) => ConnectDoneTask(token, serviceSid);
        case DisconnectRequested(sid, client) => DisconnectAbilityTask(sid, client);
        case DisconnectAck(token) => DisconnectDoneTask(token);
        case TerminateRequest(bundle, name) => TerminateServiceTask(bundle, name);
        case TerminateByToken(token) => TerminateTask(token);
        case StopAck(token) => StopTask(token);
        case AppGone(bundle) => RemoveServiceRecords(bundle);
        case PageIsGone(page, bundle) => RemoveConnectRecordByPageToken(page, bundle);
      }
    }

    // Any sequence of tasks, from the start of the service.
    method Serve(es: seq<Event>)
      requires Valid() && State() == NO_SERVICES
      modifies Repr
      ensures Valid() && State() == Run(es)
    {
      for n := 0 to |es|
        invariant Valid() && fresh(Repr - old(Repr)) && State() == Run(es[..n])
      {
        assert es[..n + 1][..n] == es[..n];
        Perform(es[n]);
      }
      assert es[..|es|] == es;
    }

    // The counter is shared: others have drawn tokens from it.
    method SetTokens(n: nat)
      requires Valid()
      modifies this`tokens
      ensures Valid() && State() == old(State()).(tokens := n)
    {
      tokens := n;
    }
  }

  lemma StartServiceIs(m: Services, enlisted: Services, bundle: string, name: string, waitConnect: bool, gap: nat,
                       launch: Launch)
    requires ByName(m.live, bundle, name) == |m.live|
    requires var s := Created(m.tokens + gap, bundle, name, waitConnect, launch);
             enlisted == Services(m.live + [s], m.retired, m.tokens + gap + 1)
    ensures var s := enlisted.live[|m.live|];
            ServiceMissions.StartService(m, bundle, name, waitConnect, gap, launch)
            == if Launched(launch) then enlisted else Retire(enlisted, |m.live|, s)
  {
  }

  lemma PagesGoneStep(m: Services, pages: seq<nat>, k: nat, bundle: string)
    requires k < |pages|
    ensures PagesGone(m, pages[..k + 1], bundle) == Step(PagesGone(m, pages[..k], bundle), PageIsGone(pages[k], bundle))
  {
    assert pages[..k + 1][..k] == pages[..k];
  }

  lemma ByTokenIs(ls: seq<Service>, token: nat, i: nat)
    requires i <= |ls| && (i < |ls| ==> ls[i].token == token) && forall j :: 0 <= j < i ==> ls[j].token != token
    ensures ByToken(ls, token) == i
  {
  }

  lemma ByNameIs(ls: seq<Service>, bundle: string, name: string, i: nat)
    requires i <= |ls| && (i < |ls| ==> ls[i].bundle == bundle && ls[i].name == name)
    requires forall j :: 0 <= j < i ==> ls[j].bundle != bundle || ls[j].name != name
    ensures ByName(ls, bundle, name) == i
  {
  }

  lemma ByConnectionIs(ls: seq<Service>, sid: Sid, token: nat, i: nat)
    requires i <= |ls| && (i < |ls| ==> HasConnection(ls[i], sid, token))
    requires forall j :: 0 <= j < i ==> !HasConnection(ls[j], sid, token)
    ensures ByConnection(ls, sid, token) == i
  {
  }

  lemma SidIndexIs(rs: seq<Connection>, sid: Sid, i: nat)
    requires i <= |rs| && (i < |rs| ==> rs[i].sid == sid) && forall j :: 0 <= j < i ==> rs[j].sid != sid
    ensures SidIndex(rs, sid) == i
  {
  }

  lemma NoticesStep(rs: seq<Connection>, i: nat, serviceSid: Sid)
    requires i < |rs|
    ensures Notices(rs[..i + 1], serviceSid) == Notices(rs[..i], serviceSid) + Notices([rs[i]], serviceSid)
  {
    assert rs[..i + 1][..i] == rs[..i] && [rs[i]][..0] == [];
  }
}
