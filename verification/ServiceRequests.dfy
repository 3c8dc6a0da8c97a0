/** What a service's application is asked and its clients are told: the connection protocol as a table, and what
    follows from it in every run. */
module ServiceRequests {
  import opened AbilityStates
  import opened ServiceConnects
  import opened ServiceMissions

  // ---------- the protocol ----------

  // What can happen to a service whose application is attached.
  datatype Input =
    | Admitted(sid: Sid, client: nat)
    | Reports(state: AbilityState)
    | ConnectAcked(serviceSid: Sid)
    | Disconnected(sid: Sid)
    | DisconnectAcked
    | Forced
    | PageLost(page: nat)
    | StopAcked

  function Do(s: Service, i: Input): Service {
    match i
    case Admitted(sid, client) => PerformConnect(s, sid, client)
    case Reports(state) => StateReported(s, state)
    case ConnectAcked(sid) => ConnectDone(s, sid)
    case Disconnected(sid) => DisconnectAbility(s, sid)
    case DisconnectAcked => DisconnectDone(s)
    case Forced => ForceStopServiceAbility(s)
    case PageLost(page) => RemoveConnectRecordByPageToken(s, page)
    case StopAcked => StopAbilityDone(s)
  }

  predicate Closing(s: Service) { s.status in {DISCONNECTING, DISCONNECT, STOPPING, STOPPED} }

  predicate Stopping(s: Service) { s.status in {STOPPING, STOPPED} }

  ghost predicate HasClient(s: Service, sid: Sid) { exists k :: 0 <= k < |s.records| && s.records[k].sid == sid }

  // Every connection the service has is this client's, and there is one.
  ghost predicate LastClient(s: Service, sid: Sid) { |s.records| == 1 && s.records[0].sid == sid }

  ghost predicate LastPage(s: Service, page: nat) {
    s.records != [] && forall k :: 0 <= k < |s.records| ==> s.records[k].token == page
  }

  // No client is left once the client has gone.
  ghost predicate LeavesNone(s: Service, sid: Sid) { s.records == [] || LastClient(s, sid) }

  ghost function NextStatus(s: Service, i: Input): ConnectStatus {
    match i
    case Admitted(_, _) =>
      if s.status != INIT then s.status else if s.state == STATE_UNINITIALIZED then WAIT_CONNECT else CONNECTING
    case Reports(state) => if s.status == WAIT_CONNECT && state == STATE_INACTIVE then CONNECTING else s.status
    case ConnectAcked(_) => if Stopping(s) then s.status else CONNECTED
    case Disconnected(sid) => if !Closing(s) && LeavesNone(s, sid) then DISCONNECTING else s.status
    case DisconnectAcked =>
      if Stopping(s) then s.status
      else if s.forceStop || (s.records == [] && !s.startDone) then STOPPING
      else if s.startDone then INIT else DISCONNECT
    case Forced =>
      if Stopping(s) || s.status == DISCONNECTING then s.status
      else if s.status == DISCONNECT || s.records == [] then STOPPING
      else DISCONNECTING
    case PageLost(_) => s.status
    case StopAcked => STOPPED
  }

  // What is sent for it. Clients are told in the order in which they came.
  ghost function Reply(s: Service, i: Input): seq<Sent> {
    match i
    case Admitted(sid, client) =>
      if s.status == INIT && s.state != STATE_UNINITIALIZED then [ConnectRequest]
      else if s.status == CONNECTED && !HasClient(s, sid) then [ConnectNotice(s.made, sid, s.serviceSid)]
      else []
    case Reports(state) => if s.status == WAIT_CONNECT && state == STATE_INACTIVE then [ConnectRequest] else []
    case ConnectAcked(sid) => if Stopping(s) then [] else Notices(s.records, sid)
    case Disconnected(sid) => if !Closing(s) && LeavesNone(s, sid) then [DisconnectRequest] else []
    case DisconnectAcked =>
      if !Stopping(s) && (s.forceStop || (s.records == [] && !s.startDone))
      then [StopRequest(true, s.forceStop, |s.records|, s.startDone)] else []
    case Forced =>
      if Stopping(s) || s.status == DISCONNECTING then []
      else if s.status == DISCONNECT || s.records == [] then [StopRequest(true, true, |s.records|, s.startDone)]
      else [DisconnectRequest]
    case PageLost(page) =>
      if LastPage(s, page) && !s.startDone && s.state == STATE_INACTIVE
      then [StopRequest(false, s.forceStop, 0, false)] else []
    case StopAcked => seq(|s.records|, k requires 0 <= k < |s.records| => DisconnectNotice(s.records[k].sid))
  }

  // The rest of the record: what was asked by force stays so, the identity is the last acknowledged.
  ghost predicate SameOtherwise(s: Service, i: Input, s': Service) {
    && SameService(s, s') && s'.hasApp && s'.startDone == s.startDone
    && s'.state == (if i.Reports? then i.state else s.state)
    && s'.forceStop == (s.forceStop || i.Forced?)
    && s'.serviceSid == (if i.ConnectAcked? && !Stopping(s) then i.serviceSid else s.serviceSid)
  }

  // In every state and for every input, this is the status afterwards and these messages are sent.
  lemma Protocol(s: Service, i: Input)
    requires Good(s) && s.hasApp
    ensures Do(s, i).status == NextStatus(s, i) && Do(s, i).log == s.log + Reply(s, i)
  {
    match i
    case Admitted(sid, client) => AdmissionReply(s, sid, client);
    case Reports(state) =>
    case ConnectAcked(sid) =>
    case Disconnected(sid) => WithoutLast(s, sid);
    case DisconnectAcked =>
    case Forced =>
    case PageLost(page) => WithoutPage(s, page);
    case StopAcked =>
  }

  lemma OtherwiseSame(s: Service, i: Input)
    requires s.hasApp
    ensures SameOtherwise(s, i, Do(s, i))
  {
    hide WithoutSid, WithoutToken, Notices, AllSettled, SidIndex;
  }

  lemma AdmissionReply(s: Service, sid: Sid, client: nat)
    requires Good(s) && s.hasApp
    ensures var i := Admitted(sid, client); Do(s, i).status == NextStatus(s, i) && Do(s, i).log == s.log + Reply(s, i)
  {
    hide Good, Notices, AllSettled;
    if s.status == CONNECTED { ConnectedReply(s, sid, client); }
  }

  // A client that is new to a connected service is told at once.
  lemma ConnectedReply(s: Service, sid: Sid, client: nat)
    requires Good(s) && s.hasApp && s.status == CONNECTED
    ensures var s' := PerformConnect(s, sid, client);
            && s'.status == CONNECTED
            && s'.log == s.log + if HasClient(s, sid) then [] else [ConnectNotice(s.made, sid, s.serviceSid)]
  {
    hide GoodStop, Notices, AllSettled;
    var k := SidIndex(s.records, sid);
    if k < |s.records| {
      assert s.records[k].status == CONNECTED;
    } else {
      NoneWaits(s.records, s.serviceSid);
      NewWaits(s.records, Connection(s.made, sid, client, CONNECTING), s.serviceSid);
    }
  }

  lemma NewWaits(rs: seq<Connection>, c: Connection, serviceSid: Sid)
    requires Notices(rs, serviceSid) == [] && c.status == CONNECTING
    ensures Notices(rs + [c], serviceSid) == [ConnectNotice(c.id, c.sid, serviceSid)]
  {
    assert (rs + [c])[..|rs|] == rs;
  }

  lemma {:induction false} NoneWaits(rs: seq<Connection>, serviceSid: Sid)
    requires forall k :: 0 <= k < |rs| ==> rs[k].status != CONNECTING
    ensures Notices(rs, serviceSid) == []
  {
    if rs != [] { NoneWaits(rs[..|rs| - 1], serviceSid); }
  }

  lemma WithoutLast(s: Service, sid: Sid)
    requires Good(s)
    ensures WithoutSid(s.records, sid) == [] <==> LeavesNone(s, sid)
  {
  }

  lemma {:induction false} WithoutPage(s: Service, page: nat)
    ensures WithoutToken(s.records, page) == [] <==> s.records == [] || LastPage(s, page)
  {
    WithoutTokenExact(s.records, page);
    if WithoutToken(s.records, page) != [] { assert WithoutToken(s.records, page)[0] in s.records; }
    forall k | 0 <= k < |s.records| && s.records[k].token != page ensures WithoutToken(s.records, page) != [] {
      assert s.records[k] in s.records;
    }
  }

  // Who is connected afterwards: a client is admitted unless the service is closing or knows it, and goes when
  // it disconnects or its page is gone.
  lemma ClientsAfter(s: Service, i: Input, sid: Sid, client: nat)
    requires Good(s) && s.hasApp
    ensures HasConnection(Do(s, i), sid, client) <==>
            match i
            case Admitted(x, page) =>
              HasConnection(s, sid, client) || (sid == x && client == page && !Closing(s) && !HasClient(s, x))
            case Disconnected(x) => HasConnection(s, sid, client) && sid != x
            case PageLost(page) => HasConnection(s, sid, client) && client != page
            case _ => HasConnection(s, sid, client)
  {
    hide PerformConnect, AllSettled, WithoutSid, WithoutToken, Notices;
    match i
    case Admitted(x, page) => AdmittedClients(s, x, page, sid, client);
    case Disconnected(x) =>
      WithoutSidExact(s.records, x);
      SameClients(s.records, WithoutSid(s.records, x), sid, client, sid != x);
    case PageLost(page) =>
      WithoutTokenExact(s.records, page);
      SameClients(s.records, WithoutToken(s.records, page), sid, client, client != page);
    case ConnectAcked(_) => SettledClients(s.records, sid, client);
    case _ =>
  }

  lemma SettledClients(rs: seq<Connection>, sid: Sid, client: nat)
    ensures var r := AllSettled(rs);
            (exists k :: 0 <= k < |r| && r[k].sid == sid && r[k].token == client)
            <==> exists k :: 0 <= k < |rs| && rs[k].sid == sid && rs[k].token == client
  {
    var r := AllSettled(rs);
    assert forall k :: 0 <= k < |rs| ==> r[k].sid == rs[k].sid && r[k].token == rs[k].token;
  }

  lemma AdmittedClients(s: Service, x: Sid, page: nat, sid: Sid, client: nat)
    requires Good(s) && s.hasApp
    ensures HasConnection(PerformConnect(s, x, page), sid, client)
       <==> HasConnection(s, sid, client) || (sid == x && client == page && !Closing(s) && !HasClient(s, x))
  {
    hide Notices, Good, SidIndex;
    if !Closing(s) {
      var r := PerformConnect(s, x, page).records;
      assert forall k :: 0 <= k < |s.records| ==> r[k].sid == s.records[k].sid && r[k].token == s.records[k].token;
      if SidIndex(s.records, x) == |s.records| {
        assert r[|s.records|].sid == x && r[|s.records|].token == page;
      } else {
        assert |r| == |s.records|;
      }
    }
  }

  // r has the connections of rs that stay, and this one stays if stays holds.
  lemma SameClients(rs: seq<Connection>, r: seq<Connection>, sid: Sid, client: nat, stays: bool)
    requires forall c :: c in r ==> c in rs
    requires forall c :: c in rs && c.sid == sid && c.token == client ==> (c in r <==> stays)
    ensures (exists k :: 0 <= k < |r| && r[k].sid == sid && r[k].token == client)
       <==> stays && exists k :: 0 <= k < |rs| && rs[k].sid == sid && rs[k].token == client
  {
    if k :| 0 <= k < |r| && r[k].sid == sid && r[k].token == client {
      assert r[k] in rs;
      var j :| 0 <= j < |rs| && rs[j] == r[k];
    }
    if stays {
      forall k | 0 <= k < |rs| && rs[k].sid == sid && rs[k].token == client
        ensures exists j :: 0 <= j < |r| && r[j].sid == sid && r[j].token == client
      {
        assert rs[k] in r;
        var j :| 0 <= j < |r| && r[j] == rs[k];
      }
    }
  }

  // ---------- what was asked ----------

  // Of the requests to connect and to disconnect, the last is this one.
  ghost predicate LastAsked(log: seq<Sent>, what: Sent) {
    exists i :: 0 <= i < |log| && log[i] == what
                && forall j :: i < j < |log| ==> !log[j].ConnectRequest? && !log[j].DisconnectRequest?
  }

  // Every client of the service was told that it is over, as the last thing that was sent.
  ghost predicate ToldAll(s: Service) {
    && |s.records| <= |s.log|
    && forall k :: 0 <= k < |s.records| ==>
         s.log[|s.log| - |s.records| + k] == DisconnectNotice(s.records[k].sid)
  }

  // A service that is connecting was asked to connect and not to disconnect since, one that is disconnecting
  // the other way round, and one that is stopping to stop. None that is inactive waits to be asked.
  ghost predicate Asked(s: Service) {
    && (s.status == CONNECTING ==> LastAsked(s.log, ConnectRequest))
    && (s.status == DISCONNECTING ==> LastAsked(s.log, DisconnectRequest))
    && (s.status == STOPPING ==> exists i :: 0 <= i < |s.log| && IsStopping(s.log[i]))
    && (s.status == WAIT_CONNECT ==> s.state != STATE_INACTIVE)
    && (s.status == STOPPED ==> ToldAll(s))
  }

  lemma LastStays(log: seq<Sent>, more: seq<Sent>, what: Sent)
    requires LastAsked(log, what)
    requires forall k :: 0 <= k < |more| ==> !more[k].ConnectRequest? && !more[k].DisconnectRequest?
    ensures LastAsked(log + more, what)
  {
    var i :| 0 <= i < |log| && log[i] == what
             && forall j :: i < j < |log| ==> !log[j].ConnectRequest? && !log[j].DisconnectRequest?;
    assert (log + more)[i] == what;
  }

  lemma JustAsked(log: seq<Sent>, what: Sent)
    ensures LastAsked(log + [what], what)
  {
    assert (log + [what])[|log|] == what;
  }

  lemma StoppingStays(log: seq<Sent>, more: seq<Sent>)
    requires exists i :: 0 <= i < |log| && IsStopping(log[i])
    ensures exists i :: 0 <= i < |log + more| && IsStopping((log + more)[i])
  {
    var i :| 0 <= i < |log| && IsStopping(log[i]);
    assert (log + more)[i] == log[i];
  }

  lemma DoAsks(s: Service, i: Input)
    requires Good(s) && s.hasApp && s.status != STOPPED && Asked(s)
    ensures Asked(Do(s, i))
  {
    hide Good, Do, LastAsked, ToldAll;
    var s', reply := Do(s, i), Reply(s, i);
    Protocol(s, i);
    if i.StopAcked? {
      StopTells(s);
      assert i == StopAcked;
    } else {
      OtherwiseSame(s, i);
      NoRequest(s, i);
      if s'.status == CONNECTING {
        if reply == [ConnectRequest] {
          JustAsked(s.log, ConnectRequest);
        } else {
          LastStays(s.log, reply, ConnectRequest);
        }
      } else if s'.status == DISCONNECTING {
        if reply == [DisconnectRequest] {
          JustAsked(s.log, DisconnectRequest);
        } else {
          LastStays(s.log, reply, DisconnectRequest);
        }
      } else if s'.status == STOPPING {
        if s.status == STOPPING { StoppingStays(s.log, reply); } else { assert IsStopping(s'.log[|s.log|]); }
      }
    }
  }

  lemma StopTells(s: Service)
    requires s.hasApp
    ensures Do(s, StopAcked).status == STOPPED && ToldAll(Do(s, StopAcked))
  {
    var s', n := Do(s, StopAcked), |s.log|;
    assert s'.log == s.log + DisconnectNotices(s.records) && |s'.log| == n + |s.records|;
    forall k | 0 <= k < |s.records| ensures s'.log[n + k] == DisconnectNotice(s.records[k].sid) {
      assert s'.log[n + k] == DisconnectNotices(s.records)[k];
    }
  }

  // A reply of more than one message holds notices only.
  lemma NoRequest(s: Service, i: Input)
    ensures |Reply(s, i)| == 1 || forall k :: 0 <= k < |Reply(s, i)| ==>
              !Reply(s, i)[k].ConnectRequest? && !Reply(s, i)[k].DisconnectRequest?
    ensures |Reply(s, i)| == 1 && (Reply(s, i)[0].ConnectRequest? || Reply(s, i)[0].DisconnectRequest?) ==>
              Reply(s, i) == [Reply(s, i)[0]]
  {
    if i.ConnectAcked? { NoticesAreNotices(s.records, i.serviceSid); }
  }

  // ---------- which services an event reaches ----------

  // A new service's record. A process that runs already is told at once to make it inactive.
  function Fresh(token: nat, bundle: string, name: string, attached: bool, connects: bool, told: bool): Service {
    Service(token, bundle, name, attached, STATE_UNINITIALIZED, if connects then WAIT_CONNECT else INIT, !connects,
      false, 0, [], 0, if told then [InactiveRequest] else [])
  }

  function FreshFor(m: Services, bundle: string, name: string, connects: bool, gap: nat, launch: Launch): Service {
    Fresh(m.tokens + gap, bundle, name, launch != NOT_SPAWNED, connects, launch == REACHED || launch == REFUSED)
  }

  ghost predicate Known(m: Services, bundle: string, name: string) {
    exists k :: 0 <= k < |m.live| && m.live[k].bundle == bundle && m.live[k].name == name
  }

  predicate Succeeds(launch: Launch) { launch == REACHED || launch == SPAWNED }

  // A service that is not known gets a record with a token of its own, which is kept if its process runs.
  lemma StartLists(m: Services, bundle: string, name: string, gap: nat, launch: Launch)
    ensures var m', s := Step(m, StartRequest(bundle, name, gap, launch)),
                         FreshFor(m, bundle, name, false, gap, launch);
            if Known(m, bundle, name) then m' == m
            else if Succeeds(launch) then m' == Services(m.live + [s], m.retired, m.tokens + gap + 1)
            else m' == Services(m.live, m.retired + [s], m.tokens + gap + 1)
  {
  }

  // A client is admitted to the service it names, which is started for it if it is not known; a stopping one
  // is left alone.
  lemma ConnectReaches(m: Services, bundle: string, name: string, gap: nat, launch: Launch, sid: Sid, client: nat)
    requires Sound(m)
    ensures var m' := Step(m, ConnectRequested(bundle, name, gap, launch, sid, client));
            var s := FreshFor(m, bundle, name, true, gap, launch);
            if Known(m, bundle, name) then
              && |m'.live| == |m.live| && m' == m.(live := m'.live)
              && forall k :: 0 <= k < |m.live| ==>
                   m'.live[k] == if m.live[k].bundle == bundle && m.live[k].name == name && !Stopping(m.live[k])
                                 then Do(m.live[k], Admitted(sid, client)) else m.live[k]
            else if Succeeds(launch) then
              m' == Services(m.live + [Do(s, Admitted(sid, client))], m.retired, m.tokens + gap + 1)
            else m' == Services(m.live, m.retired + [s], m.tokens + gap + 1)
  {
    hide PerformConnect, Good;
    if !Known(m, bundle, name) && Succeeds(launch) {
      var s := FreshFor(m, bundle, name, true, gap, launch);
      var ls := m.live + [s];
      assert ls[|m.live|] == s;
      assert ByName(ls, bundle, name) == |m.live|;
      assert ls[|m.live| := Do(s, Admitted(sid, client))] == m.live + [Do(s, Admitted(sid, client))];
    }
  }

  predicate ForToken(e: Event) { e.Reported? || e.ConnectAck? || e.DisconnectAck? || e.TerminateByToken? }

  function InputOf(e: Event): Input
    requires ForToken(e)
  {
    match e
    case Reported(_, state) => Reports(state)
    case ConnectAck(_, sid) => ConnectAcked(sid)
    case DisconnectAck(_) => DisconnectAcked
    case TerminateByToken(_) => Forced
  }

  // An event that names a token reaches exactly the service that has it.
  lemma TokenReaches(m: Services, e: Event)
    requires Sound(m) && (ForToken(e) || e.Attached?)
    ensures var m' := Step(m, e);
            && |m'.live| == |m.live| && m' == m.(live := m'.live)
            && forall k :: 0 <= k < |m.live| ==>
                 m'.live[k] == if m.live[k].token != e.token then m.live[k]
                               else if e.Attached? then m.live[k].(log := m.live[k].log + [InactiveRequest])
                               else Do(m.live[k], InputOf(e))
  {
    hide Good, StateReported, ConnectDone, DisconnectDone, ForceStopServiceAbility;
  }

  // A disconnection reaches one service that has that client's connection, if there is one.
  lemma DisconnectReaches(m: Services, sid: Sid, client: nat)
    ensures var m' := Step(m, DisconnectRequested(sid, client));
            || (m' == m && forall k :: 0 <= k < |m.live| ==> !HasConnection(m.live[k], sid, client))
            || exists i :: 0 <= i < |m.live| && HasConnection(m.live[i], sid, client)
                           && m' == m.(live := m.live[i := Do(m.live[i], Disconnected(sid))])
  {
    hide DisconnectAbility;
    var i := ByConnection(m.live, sid, client);
    if i < |m.live| { assert HasConnection(m.live[i], sid, client); }
  }

  // The death of a page reaches the services of all other applications.
  lemma PageGoneReaches(m: Services, page: nat, bundle: string)
    ensures var m' := Step(m, PageIsGone(page, bundle));
            && |m'.live| == |m.live| && m' == m.(live := m'.live)
            && forall k :: 0 <= k < |m.live| ==>
                 m'.live[k] == if m.live[k].bundle == bundle then m.live[k] else Do(m.live[k], PageLost(page))
  {
  }

  // A service that has not run yet leaves the list at once; any other is stopped by force.
  lemma TerminateReaches(m: Services, bundle: string, name: string)
    requires Sound(m)
    ensures var m' := Step(m, TerminateRequest(bundle, name));
            || (m' == m && !Known(m, bundle, name))
            || exists i :: 0 <= i < |m.live| && m.live[i].bundle == bundle && m.live[i].name == name
                 && m' == if m.live[i].state == STATE_UNINITIALIZED
                          then Services(m.live[..i] + m.live[i + 1..], m.retired + [m.live[i]], m.tokens)
                          else m.(live := m.live[i := Do(m.live[i], Forced)])
  {
    hide Good, ForceStopServiceAbility;
    var i := ByName(m.live, bundle, name);
    if i < |m.live| { assert m.live[i].bundle == bundle && m.live[i].name == name; }
  }

  // A service that has stopped leaves the list, with its clients told.
  lemma StopReaches(m: Services, token: nat)
    requires Sound(m)
    ensures var m' := Step(m, StopAck(token));
            || (m' == m && forall k :: 0 <= k < |m.live| ==> m.live[k].token != token)
            || exists i :: 0 <= i < |m.live| && m.live[i].token == token
                 && m' == Services(m.live[..i] + m.live[i + 1..],
                                   m.retired + [Do(m.live[i].(state := STATE_INITIAL), StopAcked)], m.tokens)
  {
    hide Good, StopAbilityDone;
    var i := ByToken(m.live, token);
    if i < |m.live| { assert m.live[i].token == token; }
  }

  function Elsewhere(ls: seq<Service>, bundle: string): seq<Service> {
    if ls == [] then [] else (if ls[0].bundle == bundle then [] else [ls[0]]) + Elsewhere(ls[1..], bundle)
  }

  function Ended(ls: seq<Service>, bundle: string): seq<Service> {
    if ls == [] then []
    else (if ls[0].bundle == bundle then [Do(ls[0], StopAcked)] else []) + Ended(ls[1..], bundle)
  }

  // When an application is gone all its services leave the list, with their clients told, and no other.
  lemma AppGoneReaches(m: Services, bundle: string)
    ensures Step(m, AppGone(bundle)) == Services(Elsewhere(m.live, bundle), m.retired + Ended(m.live, bundle), m.tokens)
  {
    ClearReaches(m, bundle, 0);
  }

  lemma {:induction false} ClearReaches(m: Services, bundle: string, i: nat)
    requires i <= |m.live|
    ensures ClearFrom(m, bundle, i)
            == Services(m.live[..i] + Elsewhere(m.live[i..], bundle), m.retired + Ended(m.live[i..], bundle), m.tokens)
    decreases |m.live| - i
  {
    hide StopAbilityDone;
    if i == |m.live| {
      assert m.live[i..] == [];
    } else {
      hide Elsewhere, Ended;
      var s, rest := m.live[i], m.live[i + 1..];
      assert m.live[i..] == [s] + rest;
      SplitFirst(s, rest, bundle);
      if s.bundle == bundle {
        var m1 := Retire(m, i, StopAbilityDone(s));
        assert m1.live[i..] == rest && m1.live[..i] == m.live[..i];
        ClearReaches(m1, bundle, i);
        Regroup(m.retired, Do(s, StopAcked), Ended(rest, bundle));
        assert Elsewhere([s] + rest, bundle) == Elsewhere(rest, bundle);
      } else {
        ClearReaches(m, bundle, i + 1);
        Regroup(m.live[..i], s, Elsewhere(rest, bundle));
        assert m.live[..i + 1] == m.live[..i] + [s] && Ended([s] + rest, bundle) == Ended(rest, bundle);
      }
    }
  }

  lemma Regroup(a: seq<Service>, s: Service, b: seq<Service>)
    ensures (a + [s]) + b == a + ([s] + b)
  {
  }

  lemma SplitFirst(s: Service, rest: seq<Service>, bundle: string)
    ensures Elsewhere([s] + rest, bundle) == (if s.bundle == bundle then [] else [s]) + Elsewhere(rest, bundle)
    ensures Ended([s] + rest, bundle) == (if s.bundle == bundle then [Do(s, StopAcked)] else []) + Ended(rest, bundle)
  {
    assert ([s] + rest)[1..] == rest;
  }

  // ---------- every run ----------

  ghost predicate AllAsked(m: Services) {
    && (forall k :: 0 <= k < |m.live| ==> Asked(m.live[k]))
    && (forall k :: 0 <= k < |m.retired| ==> Asked(m.retired[k]))
  }

  // One more notice, or another state of a service that does not wait, asks for nothing.
  lemma ToldAsks(s: Service)
    requires Asked(s) && s.status != STOPPED
    ensures Asked(s.(log := s.log + [InactiveRequest])) && Asked(s.(state := STATE_INITIAL))
  {
    var s' := s.(log := s.log + [InactiveRequest]);
    if s.status == CONNECTING { LastStays(s.log, [InactiveRequest], ConnectRequest); }
    if s.status == DISCONNECTING { LastStays(s.log, [InactiveRequest], DisconnectRequest); }
    if s.status == STOPPING { StoppingStays(s.log, [InactiveRequest]); }
  }

  lemma FreshAsks(s: Service)
    requires s.status in {INIT, WAIT_CONNECT} && s.state == STATE_UNINITIALIZED
    ensures Asked(s)
  {
  }

  lemma EachAsks(m: Services, i: Input)
    requires Sound(m) && AllAsked(m)
    ensures forall k :: 0 <= k < |m.live| ==> Asked(Do(m.live[k], i))
  {
    hide Good, Asked, Do;
    forall k | 0 <= k < |m.live| ensures Asked(Do(m.live[k], i)) { DoAsks(m.live[k], i); }
  }

  lemma NewAsks(m: Services, bundle: string, name: string, gap: nat, launch: Launch, sid: Sid, client: nat)
    ensures var s := FreshFor(m, bundle, name, true, gap, launch);
            Asked(s) && (s.hasApp ==> Asked(Do(s, Admitted(sid, client))))
  {
    hide Good, Asked, Do;
    var s := FreshFor(m, bundle, name, true, gap, launch);
    FreshAsks(s);
    CreatedIsGood(m.tokens + gap, bundle, name, true, launch);
    if s.hasApp { DoAsks(s, Admitted(sid, client)); }
  }

  lemma StopAsks(m: Services, token: nat)
    requires Sound(m) && AllAsked(m)
    ensures AllAsked(Step(m, StopAck(token)))
  {
    hide Good, Do, Step, ToldAll;
    StopReaches(m, token);
    forall k | 0 <= k < |m.live| ensures Asked(Do(m.live[k].(state := STATE_INITIAL), StopAcked)) {
      StopTells(m.live[k].(state := STATE_INITIAL));
    }
  }

  lemma {:induction false} EndedAsk(ls: seq<Service>, bundle: string)
    requires forall k :: 0 <= k < |ls| ==> ls[k].hasApp && Asked(ls[k])
    ensures forall k :: 0 <= k < |Elsewhere(ls, bundle)| ==> Asked(Elsewhere(ls, bundle)[k])
    ensures forall k :: 0 <= k < |Ended(ls, bundle)| ==> Asked(Ended(ls, bundle)[k])
  {
    hide Do, ToldAll;
    if ls != [] {
      EndedAsk(ls[1..], bundle);
      StopTells(ls[0]);
    }
  }

  lemma TokenAsks(m: Services, e: Event)
    requires Sound(m) && AllAsked(m) && (ForToken(e) || e.Attached?)
    ensures AllAsked(Step(m, e))
  {
    hide Good, Asked, Do, Step;
    TokenReaches(m, e);
    if ForToken(e) { EachAsks(m, InputOf(e)); }
    forall k | 0 <= k < |m.live| ensures Asked(m.live[k].(log := m.live[k].log + [InactiveRequest])) {
      ToldAsks(m.live[k]);
    }
  }

  lemma StepAsks(m: Services, e: Event)
    requires Sound(m) && AllAsked(m)
    ensures AllAsked(Step(m, e))
  {
    hide Good, Asked, Do, Step;
    match e
    case StartRequest(bundle, name, gap, launch) =>
      StartLists(m, bundle, name, gap, launch);
      FreshAsks(FreshFor(m, bundle, name, false, gap, launch));
    case ConnectRequested(bundle, name, gap, launch, sid, client) =>
      ConnectReaches(m, bundle, name, gap, launch, sid, client);
      NewAsks(m, bundle, name, gap, launch, sid, client);
      EachAsks(m, Admitted(sid, client));
    case DisconnectRequested(sid, client) =>
      DisconnectReaches(m, sid, client);
      EachAsks(m, Disconnected(sid));
    case PageIsGone(page, bundle) =>
      PageGoneReaches(m, page, bundle);
      EachAsks(m, PageLost(page));
    case TerminateRequest(bundle, name) =>
      TerminateReaches(m, bundle, name);
      EachAsks(m, Forced);
    case StopAck(token) => StopAsks(m, token);
    case AppGone(bundle) =>
      AppGoneReaches(m, bundle);
      EndedAsk(m.live, bundle);
    case _ => TokenAsks(m, e);
  }

  lemma {:induction false} RunsAsk(es: seq<Event>)
    ensures AllAsked(Run(es))
  {
    if es != [] {
      RunsStaySound(es[..|es| - 1]);
      RunsAsk(es[..|es| - 1]);
      StepAsks(Run(es[..|es| - 1]), es[|es| - 1]);
    }
  }

  // Every service that ever was, in any run: what its status says was asked of it or told was asked or told.
  lemma RequestsWereSent(es: seq<Event>, s: Service)
    requires Ever(es, s)
    ensures s.status == CONNECTING ==> LastAsked(s.log, ConnectRequest)
    ensures s.status == DISCONNECTING ==> LastAsked(s.log, DisconnectRequest)
    ensures s.status == STOPPING ==> exists i :: 0 <= i < |s.log| && IsStopping(s.log[i])
    ensures s.status == STOPPED ==> ToldAll(s)
    ensures s.status == WAIT_CONNECT ==> s.state != STATE_INACTIVE
  {
    RunsAsk(es);
  }

  // The last client of a service nobody started leaves: the service is asked to disconnect, then to stop, and
  // is done, with nothing else sent in between.
  lemma LastClientEndsIt(s: Service, sid: Sid)
    requires Good(s) && s.hasApp && s.status == CONNECTED && LastClient(s, sid) && !s.startDone && !s.forceStop
    ensures var s' := Do(Do(Do(s, Disconnected(sid)), DisconnectAcked), StopAcked);
            && s'.status == STOPPED && s'.records == []
            && s'.log == s.log + [DisconnectRequest, StopRequest(true, false, 0, false)]
  {
    hide Good;
    WithoutLast(s, sid);
    var s1 := Do(s, Disconnected(sid));
    DisconnectAbilityKeeps(s, sid);
    Protocol(s, Disconnected(sid));
    DisconnectDoneKeeps(s1);
    Protocol(s1, DisconnectAcked);
  }
}
