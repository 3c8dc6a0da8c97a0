/** Service abilities of the small-system service: connecting, disconnecting and stopping. */
module ServiceConnects {
  import opened AbilityStates

  datatype ConnectStatus =
    | INIT | WAIT_CONNECT | CONNECTING | CONNECTED | DISCONNECTING | DISCONNECT | STOPPING | STOPPED

  // A service identity: the handle and token of an IPC object.
  type Sid = nat

  // One client's connection; id numbers the connections ever made to the service.
  datatype Connection = Connection(id: nat, sid: Sid, token: nat, status: ConnectStatus)

  // What was sent to the application. A stop request remembers what held when it was sent, and whether the
  // status became STOPPING with it.
  datatype Sent =
    | InactiveRequest
    | ConnectRequest
    | DisconnectRequest
    | StopRequest(stopping: bool, forced: bool, clients: nat, started: bool)
    | ConnectNotice(id: nat, sid: Sid, serviceSid: Sid)
    | DisconnectNotice(sid: Sid)

  datatype Service = Service(token: nat, bundle: string, name: string, hasApp: bool, state: AbilityState,
                             status: ConnectStatus, startDone: bool, forceStop: bool, serviceSid: Sid,
                             records: seq<Connection>, made: nat, log: seq<Sent>)

  // ---------- one service ----------

  function Send(s: Service, what: Sent): Service { s.(log := s.log + [what]) }

  function SendStop(s: Service, stopping: bool): Service {
    Send(s, StopRequest(stopping, s.forceStop, |s.records|, s.startDone))
  }

  function EnterStopping(s: Service): Service { SendStop(s.(status := STOPPING), true) }

  predicate IsPerformStop(s: Service) { s.status == STOPPING || s.status == STOPPED }

  // Position of the connection with this sid, or the number of connections.
  function SidIndex(rs: seq<Connection>, sid: Sid): (r: nat)
    ensures r <= |rs| && (r < |rs| ==> rs[r].sid == sid)
    ensures forall j :: 0 <= j < r ==> rs[j].sid != sid
  {
    if rs == [] || rs[0].sid == sid then 0 else 1 + SidIndex(rs[1..], sid)
  }

  function WithoutSid(rs: seq<Connection>, sid: Sid): seq<Connection> {
    var i := SidIndex(rs, sid);
    if i < |rs| then rs[..i] + rs[i + 1..] else rs
  }

  function WithoutToken(rs: seq<Connection>, token: nat): seq<Connection> {
    if rs == [] then []
    else
      var last := rs[|rs| - 1];
      WithoutToken(rs[..|rs| - 1], token) + if last.token == token then [] else [last]
  }

  function Settled(c: Connection): Connection { if c.status == CONNECTING then c.(status := CONNECTED) else c }

  function AllSettled(rs: seq<Connection>): (r: seq<Connection>)
    ensures |r| == |rs|
  {
    seq(|rs|, k requires 0 <= k < |rs| => Settled(rs[k]))
  }

  // Only those still waiting are told.
  function Notices(rs: seq<Connection>, serviceSid: Sid): seq<Sent> {
    if rs == [] then []
    else
      var last := rs[|rs| - 1];
      Notices(rs[..|rs| - 1], serviceSid)
      + if last.status == CONNECTING then [ConnectNotice(last.id, last.sid, serviceSid)] else []
  }

  function ConnectAbility(s: Service): Service { if s.hasApp then Send(s, ConnectRequest) else s }

  function ConnectAbilityDone(s: Service): Service {
    if !s.hasApp then s
    else s.(records := AllSettled(s.records), log := s.log + Notices(s.records, s.serviceSid))
  }

  function DisconnectAbility(s: Service, sid: Sid): Service {
    if !s.hasApp then s
    else
      var s1 := s.(records := WithoutSid(s.records, sid));
      if s1.status in {DISCONNECT, DISCONNECTING} || IsPerformStop(s1) || s1.records != [] then s1
      else Send(s1.(status := DISCONNECTING), DisconnectRequest)
  }

  function DisconnectAbilityDone(s: Service): Service {
    if !s.hasApp then s
    else if (s.records == [] && !s.startDone) || s.forceStop then EnterStopping(s)
    else s.(status := if s.startDone then INIT else DISCONNECT)
  }

  function ForceStopServiceAbility(s: Service): Service {
    if !s.hasApp then s
    else
      var s1 := s.(forceStop := true);
      if IsPerformStop(s1) || s1.status == DISCONNECTING then s1
      else if s1.status == DISCONNECT || s1.records == [] then EnterStopping(s1)
      else Send(s1.(status := DISCONNECTING), DisconnectRequest)
  }

  function DisconnectNotices(rs: seq<Connection>): seq<Sent> {
    seq(|rs|, k requires 0 <= k < |rs| => DisconnectNotice(rs[k].sid))
  }

  function StopAbilityDone(s: Service): Service {
    if !s.hasApp then s else s.(status := STOPPED, log := s.log + DisconnectNotices(s.records))
  }

  function RemoveConnectRecordByPageToken(s: Service, token: nat): Service {
    if s.records == [] then s
    else
      var s1 := s.(records := WithoutToken(s.records, token));
      if s1.records == [] && !s1.startDone && s1.state == STATE_INACTIVE && s1.hasApp then SendStop(s1, false) else s1
  }

  // The client's connection, made if it has none.
  function Admit(s: Service, sid: Sid, token: nat): (r: Service)
    ensures s.records <= r.records && SidIndex(s.records, sid) < |r.records|
    ensures r.records[SidIndex(s.records, sid)].sid == sid
    ensures SidIndex(s.records, sid) == |s.records| ==>
            r.records[|s.records|] == Connection(s.made, sid, token, CONNECTING)
  {
    if SidIndex(s.records, sid) < |s.records| then s
    else s.(records := s.records + [Connection(s.made, sid, token, CONNECTING)], made := s.made + 1)
  }

  function PerformConnect(s: Service, sid: Sid, token: nat): Service {
    if s.status in {DISCONNECTING, DISCONNECT, STOPPING, STOPPED} then s
    else
      var i := SidIndex(s.records, sid);
      var s1 := Admit(s, sid, token);
      match s.status
      case INIT =>
        if s.state == STATE_UNINITIALIZED then s1.(status := WAIT_CONNECT)
        else ConnectAbility(s1.(status := CONNECTING))
      case CONNECTED => if s1.records[i].status == CONNECTING then ConnectAbilityDone(s1) else s1
      case _ => s1
  }

  function ConnectDone(s: Service, serviceSid: Sid): Service {
    if IsPerformStop(s) then s
    else ConnectAbilityDone(s.(serviceSid := serviceSid)).(status := CONNECTED)
  }

  function DisconnectDone(s: Service): Service { if IsPerformStop(s) then s else DisconnectAbilityDone(s) }

  // The application reports a new state of the service.
  function StateReported(s: Service, state: AbilityState): Service {
    var s1 := s.(state := state);
    if state == STATE_INACTIVE && s.status == WAIT_CONNECT then ConnectAbility(s1.(status := CONNECTING)) else s1
  }

  // ---------- what every service keeps ----------

  predicate IsStopping(e: Sent) { e.StopRequest? && e.stopping }

  function NoticesOf(log: seq<Sent>, id: nat): nat {
    if log == [] then 0
    else NoticesOf(log[..|log| - 1], id) + if log[|log| - 1].ConnectNotice? && log[|log| - 1].id == id then 1 else 0
  }

  // No live client is cut off, the service is told to stop for good at most once, and after that nothing
  // asks it to connect or disconnect and no client is told that it is connected.
  ghost predicate GoodLog(log: seq<Sent>) {
    && (forall i :: 0 <= i < |log| && log[i].StopRequest? ==> log[i].forced || (log[i].clients == 0 && !log[i].started))
    && (forall i, j :: 0 <= i < j < |log| && IsStopping(log[i]) ==>
          !log[j].ConnectRequest? && !log[j].DisconnectRequest? && !log[j].ConnectNotice? && !IsStopping(log[j]))
  }

  ghost predicate GoodStop(s: Service) {
    && GoodLog(s.log)
    && (forall i :: 0 <= i < |s.log| && IsStopping(s.log[i]) ==> IsPerformStop(s))
    && (s.status == STOPPING && !s.forceStop ==> s.records == [] && !s.startDone)
  }

  ghost predicate Distinct(rs: seq<Connection>) {
    forall j, k :: 0 <= j < k < |rs| ==> rs[j].sid != rs[k].sid && rs[j].id != rs[k].id
  }

  // Every client at most one connection; a connected one has been told once, a connecting one never, and
  // none that was ever made twice. When the service is connected, all its connections are.
  ghost predicate GoodConnections(s: Service) {
    && Distinct(s.records)
    && (forall k :: 0 <= k < |s.records| ==> s.records[k].id < s.made && s.records[k].status in {CONNECTING, CONNECTED})
    && (forall k :: 0 <= k < |s.records| ==>
          NoticesOf(s.log, s.records[k].id) == if s.records[k].status == CONNECTED then 1 else 0)
    && (forall id: nat :: NoticesOf(s.log, id) <= if id < s.made then 1 else 0)
    && (s.status == CONNECTED ==> forall k :: 0 <= k < |s.records| ==> s.records[k].status == CONNECTED)
  }

  ghost predicate Good(s: Service) { GoodStop(s) && GoodConnections(s) }

  lemma {:induction false} NoticesAppend(log: seq<Sent>, more: seq<Sent>, id: nat)
    ensures NoticesOf(log + more, id) == NoticesOf(log, id) + NoticesOf(more, id)
  {
    if more == [] {
      assert log + more == log;
    } else {
      assert (log + more)[..|log + more| - 1] == log + more[..|more| - 1];
      NoticesAppend(log, more[..|more| - 1], id);
    }
  }

  // A sent message that is no notice.
  lemma SendKeeps(s: Service, what: Sent)
    requires GoodConnections(s) && !what.ConnectNotice?
    ensures GoodConnections(Send(s, what))
  {
    forall id: nat ensures NoticesOf(s.log + [what], id) == NoticesOf(s.log, id) {
      NoticesAppend(s.log, [what], id);
    }
  }

  lemma SubsetKeeps(s: Service, rs: seq<Connection>)
    requires GoodConnections(s) && Distinct(rs) && forall k :: 0 <= k < |rs| ==> rs[k] in s.records
    ensures GoodConnections(s.(records := rs))
  {
  }

  lemma WithoutSidKeeps(s: Service, sid: Sid)
    requires GoodConnections(s)
    ensures GoodConnections(s.(records := WithoutSid(s.records, sid)))
  {
    var rs, i := WithoutSid(s.records, sid), SidIndex(s.records, sid);
    if i < |s.records| {
      assert forall k :: 0 <= k < |rs| ==> rs[k] == s.records[if k < i then k else k + 1];
      SubsetKeeps(s, rs);
    }
  }

  lemma {:induction false} WithoutTokenIsSubset(rs: seq<Connection>, token: nat)
    requires Distinct(rs)
    ensures Distinct(WithoutToken(rs, token))
    ensures forall k :: 0 <= k < |WithoutToken(rs, token)| ==> WithoutToken(rs, token)[k] in rs
  {
    if rs != [] {
      var but := rs[..|rs| - 1];
      WithoutTokenIsSubset(but, token);
      forall c | c in but ensures c in rs && c.sid != rs[|rs| - 1].sid && c.id != rs[|rs| - 1].id {
        var k :| 0 <= k < |but| && but[k] == c;
        assert rs[k] == c;
      }
    }
  }

  lemma WithoutTokenKeeps(s: Service, token: nat)
    requires GoodConnections(s)
    ensures GoodConnections(s.(records := WithoutToken(s.records, token)))
  {
    WithoutTokenIsSubset(s.records, token);
    SubsetKeeps(s, WithoutToken(s.records, token));
  }

  // How often Notices tells a connection: once if it waits, and nobody else.
  lemma {:induction false} NoticesCount(rs: seq<Connection>, serviceSid: Sid, id: nat)
    requires forall j, k :: 0 <= j < k < |rs| ==> rs[j].id != rs[k].id
    ensures NoticesOf(Notices(rs, serviceSid), id) <= 1
    ensures (forall k :: 0 <= k < |rs| && rs[k].status == CONNECTING ==> rs[k].id != id)
            ==> NoticesOf(Notices(rs, serviceSid), id) == 0
    ensures (exists k :: 0 <= k < |rs| && rs[k].status == CONNECTING && rs[k].id == id)
            ==> NoticesOf(Notices(rs, serviceSid), id) == 1
  {
    if rs != [] {
      var but, last := rs[..|rs| - 1], rs[|rs| - 1];
      var more := if last.status == CONNECTING then [ConnectNotice(last.id, last.sid, serviceSid)] else [];
      NoticesCount(but, serviceSid, id);
      NoticesAppend(Notices(but, serviceSid), more, id);
      if last.id == id {
        assert forall k :: 0 <= k < |but| ==> but[k].id == rs[k].id != id;
      }
    }
  }

  lemma SettleKeeps(s: Service)
    requires GoodConnections(s)
    ensures GoodConnections(s.(records := AllSettled(s.records), log := s.log + Notices(s.records, s.serviceSid)))
    ensures forall k :: 0 <= k < |s.records| ==> AllSettled(s.records)[k].status == CONNECTED
  {
    var rs, log := s.records, s.log + Notices(s.records, s.serviceSid);
    forall id: nat ensures NoticesOf(log, id) <= if id < s.made then 1 else 0 { SettledOnce(s, id); }
    forall k | 0 <= k < |rs| ensures NoticesOf(log, rs[k].id) == 1 { SettledOnce(s, rs[k].id); }
  }

  lemma SettledOnce(s: Service, id: nat)
    requires GoodConnections(s)
    ensures var n := NoticesOf(s.log + Notices(s.records, s.serviceSid), id);
            && n <= (if id < s.made then 1 else 0)
            && ((exists k :: 0 <= k < |s.records| && s.records[k].id == id) ==> n == 1)
  {
    NoticesAppend(s.log, Notices(s.records, s.serviceSid), id);
    NoticesCount(s.records, s.serviceSid, id);
    if k :| 0 <= k < |s.records| && s.records[k].id == id {
      assert forall j :: 0 <= j < |s.records| && j != k ==> s.records[j].id != id;
    }
  }

  // Each waiting client, and nobody else, is told, with its own identity and the service's.
  lemma {:induction false} NoticesGoToWaiting(rs: seq<Connection>, serviceSid: Sid)
    ensures forall e :: e in Notices(rs, serviceSid) <==>
              exists c :: c in rs && c.status == CONNECTING && e == ConnectNotice(c.id, c.sid, serviceSid)
  {
    if rs != [] {
      var but, last := rs[..|rs| - 1], rs[|rs| - 1];
      NoticesGoToWaiting(but, serviceSid);
      assert rs == but + [last];
      assert forall c :: c in rs <==> c in but || c == last;
    }
  }

  lemma NoticesAreNotices(rs: seq<Connection>, serviceSid: Sid)
    ensures forall k :: 0 <= k < |Notices(rs, serviceSid)| ==> Notices(rs, serviceSid)[k].ConnectNotice?
  {
    NoticesGoToWaiting(rs, serviceSid);
  }

  // Disconnecting forgets that client's connection only.
  lemma WithoutSidExact(rs: seq<Connection>, sid: Sid)
    requires Distinct(rs)
    ensures forall c :: c in WithoutSid(rs, sid) <==> c in rs && c.sid != sid
  {
    var r, i := WithoutSid(rs, sid), SidIndex(rs, sid);
    if i < |rs| {
      assert forall k :: 0 <= k < |r| ==> r[k] == rs[if k < i then k else k + 1];
      forall c | c in rs && c.sid != sid ensures c in r {
        var k :| 0 <= k < |rs| && rs[k] == c;
        assert r[if k < i then k else k - 1] == c;
      }
    }
  }

  // A page that is gone loses all its connections, and only those.
  lemma {:induction false} WithoutTokenExact(rs: seq<Connection>, token: nat)
    ensures forall c :: c in WithoutToken(rs, token) <==> c in rs && c.token != token
  {
    if rs != [] {
      var but, last := rs[..|rs| - 1], rs[|rs| - 1];
      WithoutTokenExact(but, token);
      assert rs == but + [last];
      assert forall c :: c in rs <==> c in but || c == last;
    }
  }

  // Messages that are neither requests nor about stopping may be sent, notices of connection only until the
  // service is stopping.
  lemma LogKeeps(s: Service, more: seq<Sent>)
    requires GoodStop(s)
    requires forall k :: 0 <= k < |more| ==>
             more[k].DisconnectNotice? || more[k].InactiveRequest? || (more[k].ConnectNotice? && !IsPerformStop(s))
    ensures GoodStop(s.(log := s.log + more))
  {
  }

  // ---------- every operation keeps it ----------

  // Changes that touch neither the log nor the connections, and are not about stopping.
  lemma StatusKeeps(s: Service, s': Service)
    requires Good(s) && s' == s.(status := s'.status, state := s'.state, serviceSid := s'.serviceSid)
    requires s.status == s'.status || (!IsPerformStop(s) && s'.status !in {CONNECTED, STOPPING})
    ensures Good(s')
  {
  }

  // A request that is not about stopping, while the service is not stopping.
  lemma RequestKeeps(s: Service, what: Sent)
    requires Good(s) && !what.StopRequest? && !what.ConnectNotice? && !IsPerformStop(s)
    ensures Good(Send(s, what))
  {
    SendKeeps(s, what);
  }

  lemma ConnectAbilityKeeps(s: Service)
    requires Good(s) && !IsPerformStop(s)
    ensures Good(ConnectAbility(s))
  {
    RequestKeeps(s, ConnectRequest);
  }

  lemma ConnectAbilityDoneKeeps(s: Service)
    requires Good(s) && s.hasApp && !IsPerformStop(s)
    ensures Good(ConnectAbilityDone(s)) && ConnectAbilityDone(s).hasApp
    ensures forall k :: 0 <= k < |ConnectAbilityDone(s).records| ==>
            ConnectAbilityDone(s).records[k].status == CONNECTED
  {
    SettleKeeps(s);
    NoticesAreNotices(s.records, s.serviceSid);
    LogKeeps(s, Notices(s.records, s.serviceSid));
  }

  lemma EnterStoppingKeeps(s: Service)
    requires Good(s) && !IsPerformStop(s) && (s.forceStop || (s.records == [] && !s.startDone))
    ensures Good(EnterStopping(s))
  {
    SendKeeps(s.(status := STOPPING), StopRequest(true, s.forceStop, |s.records|, s.startDone));
  }

  lemma DisconnectAbilityKeeps(s: Service, sid: Sid)
    requires Good(s) && s.hasApp
    ensures Good(DisconnectAbility(s, sid)) && DisconnectAbility(s, sid).hasApp
  {
    WithoutSidKeeps(s, sid);
    var s1 := s.(records := WithoutSid(s.records, sid));
    if !(s1.status in {DISCONNECT, DISCONNECTING} || IsPerformStop(s1) || s1.records != []) {
      StatusKeeps(s1, s1.(status := DISCONNECTING));
      RequestKeeps(s1.(status := DISCONNECTING), DisconnectRequest);
    }
  }

  lemma DisconnectDoneKeeps(s: Service)
    requires Good(s) && s.hasApp
    ensures Good(DisconnectDone(s)) && DisconnectDone(s).hasApp
  {
    if !IsPerformStop(s) && ((s.records == [] && !s.startDone) || s.forceStop) {
      EnterStoppingKeeps(s);
    }
  }

  lemma ForceStopKeeps(s: Service)
    requires Good(s) && s.hasApp
    ensures Good(ForceStopServiceAbility(s)) && ForceStopServiceAbility(s).hasApp
  {
    var s1 := s.(forceStop := true);
    if !IsPerformStop(s1) && s1.status != DISCONNECTING {
      if s1.status == DISCONNECT || s1.records == [] {
        EnterStoppingKeeps(s1);
      } else {
        StatusKeeps(s1, s1.(status := DISCONNECTING));
        RequestKeeps(s1.(status := DISCONNECTING), DisconnectRequest);
      }
    }
  }

  lemma StopDoneKeeps(s: Service)
    requires Good(s) && s.hasApp
    ensures Good(StopAbilityDone(s))
  {
    var more := DisconnectNotices(s.records);
    LogKeeps(s, more);
    forall id: nat ensures NoticesOf(s.log + more, id) == NoticesOf(s.log, id) {
      NoticesAppend(s.log, more, id);
      NoNotices(more, id);
    }
  }

  lemma NoNotices(log: seq<Sent>, id: nat)
    requires forall k :: 0 <= k < |log| ==> !log[k].ConnectNotice?
    ensures NoticesOf(log, id) == 0
  {
  }

  lemma PageGoneKeeps(s: Service, token: nat)
    requires Good(s) && s.hasApp
    ensures Good(RemoveConnectRecordByPageToken(s, token)) && RemoveConnectRecordByPageToken(s, token).hasApp
  {
    WithoutTokenKeeps(s, token);
    var s1 := s.(records := WithoutToken(s.records, token));
    if s.records != [] && s1.records == [] && !s1.startDone && s1.state == STATE_INACTIVE {
      LastClientKeeps(s1);
    }
  }

  // With its last client gone the service is told to stop whatever its status.
  lemma LastClientKeeps(s: Service)
    requires Good(s) && s.records == [] && !s.startDone
    ensures Good(SendStop(s, false))
  {
    SendKeeps(s, StopRequest(false, s.forceStop, |s.records|, s.startDone));
  }

  // A connection still waiting is at odds only with a connected service.
  lemma AdmitKeeps(s: Service, sid: Sid, token: nat)
    requires Good(s) && !IsPerformStop(s)
    ensures var s1 := Admit(s, sid, token);
            GoodStop(s1) && GoodConnections(s1.(status := INIT)) && (s.status != CONNECTED ==> Good(s1))
  {
  }

  lemma ConnectFromInitKeeps(s: Service)
    requires Good(s) && s.status == INIT
    ensures Good(s.(status := WAIT_CONNECT)) && Good(ConnectAbility(s.(status := CONNECTING)))
  {
    StatusKeeps(s, s.(status := WAIT_CONNECT));
    StatusKeeps(s, s.(status := CONNECTING));
    ConnectAbilityKeeps(s.(status := CONNECTING));
  }

  lemma ConnectWhenConnectedKeeps(s: Service)
    requires GoodStop(s) && GoodConnections(s.(status := INIT)) && s.hasApp && s.status == CONNECTED
    ensures Good(ConnectAbilityDone(s))
  {
    SettleKeeps(s.(status := INIT));
    NoticesAreNotices(s.records, s.serviceSid);
    LogKeeps(s, Notices(s.records, s.serviceSid));
  }

  lemma PerformConnectKeeps(s: Service, sid: Sid, token: nat)
    requires Good(s) && s.hasApp
    ensures Good(PerformConnect(s, sid, token)) && PerformConnect(s, sid, token).hasApp
  {
    hide Good, GoodStop, GoodConnections;
    if !(s.status in {DISCONNECTING, DISCONNECT, STOPPING, STOPPED}) {
      var i, s1 := SidIndex(s.records, sid), Admit(s, sid, token);
      AdmitKeeps(s, sid, token);
      if s.status == INIT {
        ConnectFromInitKeeps(s1);
      } else if s.status == CONNECTED && s1.records[i].status == CONNECTING {
        ConnectWhenConnectedKeeps(s1);
      }
    }
  }

  lemma ConnectDoneKeeps(s: Service, serviceSid: Sid)
    requires Good(s) && s.hasApp
    ensures Good(ConnectDone(s, serviceSid)) && ConnectDone(s, serviceSid).hasApp
  {
    if !IsPerformStop(s) {
      StatusKeeps(s, s.(serviceSid := serviceSid));
      ConnectAbilityDoneKeeps(s.(serviceSid := serviceSid));
    }
  }

  lemma StateReportedKeeps(s: Service, state: AbilityState)
    requires Good(s) && s.hasApp
    ensures Good(StateReported(s, state)) && StateReported(s, state).hasApp
  {
    StatusKeeps(s, s.(state := state));
    if s.status == WAIT_CONNECT {
      StatusKeeps(s.(state := state), s.(state := state, status := CONNECTING));
      ConnectAbilityKeeps(s.(state := state, status := CONNECTING));
    }
  }
}
