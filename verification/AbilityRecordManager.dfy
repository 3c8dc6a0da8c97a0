/** The ability manager itself: fields updated in place, records reached through pointers. Every
    method is proved against the state machine of module Scheduler. */
module AbilityRecordManagers {
  import opened Options
  import opened Sequences
  import opened SliteTypes
  import opened MruList
  import opened SavedState
  import opened Scheduler
  import opened SchedulerProofs
  import opened SchedulerRuns
  import opened AbilityLists

  // A message in flight; it carries a pointer to the record's saved data, not a copy.
  datatype Message = Message(token: nat, life: Life, done: bool, data: Bytes, saved: AbilitySavedData?)

  ghost function MailOf(l: seq<Message>): (v: seq<Mail>)
    ensures |v| == |l|
    ensures forall i :: 0 <= i < |l| ==> v[i] == Mail(l[i].token, l[i].life, l[i].done, l[i].data, l[i].saved != null)
  {
    seq(|l|, i requires 0 <= i < |l| => Mail(l[i].token, l[i].life, l[i].done, l[i].data, l[i].saved != null))
  }

  // A saved-data pointer still to be used is the one of the record it was sent to.
  ghost predicate MailPoints(messages: seq<Message>, l: seq<AbilityRecord>)
    reads l
  {
    forall m :: 0 <= m < |messages| && messages[m].saved != null && !messages[m].done ==>
      exists i :: 0 <= i < |l| && l[i].token == messages[m].token && l[i].abilitySavedData == messages[m].saved
  }

  // What the service is handed: a client's request, an app thread's turn (with what the app passes to
  // HandleSave), or an acknowledgement.
  datatype Input =
    | Requested(r: Request)
    | Taken(m: nat, data: Option<Bytes>, userData: Option<Bytes>, code: ResultCode)
    | Acknowledged(m: nat)

  function EventOf(input: Input): Event {
    match input
    case Requested(r) => Client(r)
    case Taken(m, data, userData, code) => App(m, Saved(Stored([], data), Stored([], userData), code))
    case Acknowledged(m) => Ack(m)
  }

  function EventsOf(inputs: seq<Input>): (events: seq<Event>)
    ensures |events| == |inputs|
  {
    seq(|inputs|, n requires 0 <= n < |inputs| => EventOf(inputs[n]))
  }

  class AbilityRecordManager {
    const env: Env
    const abilityList_: AbilityList
    var isAppScheduling_: bool
    var pendingToken_: nat
    var abilityOperation_: seq<Request>
    var messages: seq<Message>
    var nextToken: nat          // the static counters of GenerateToken and GenerateMission
    var nextMission: nat
    ghost var generated: nat
    var log: Log  // history; its lengths say which answers of the environment come next

    ghost function List(): seq<AbilityRecord>
      reads abilityList_
    {
      abilityList_.abilityList_
    }

    ghost function Records(): set<AbilityRecord>
      reads abilityList_
    {
      set r | r in List()
    }

    // Records that came onto the list are new objects, and so is saved data that came to a record.
    twostate predicate Grows()
      reads abilityList_, List()
    {
      forall r :: r in List() ==>
        && (r in old(List()) || fresh(r))
        && (r.abilitySavedData == null || fresh(r.abilitySavedData)
            || (r in old(List()) && r.abilitySavedData == old(r.abilitySavedData)))
    }

    twostate lemma ShrunkGrows()
      requires Records() <= old(Records())
      requires forall r :: r in old(List()) ==> r.abilitySavedData == old(r.abilitySavedData)
      ensures Grows()
    {
      forall r | r in List() ensures r in old(List()) {
        assert r in Records();
      }
    }

    ghost function State(): Sched
      reads this, abilityList_
    {
      Sched(abilityList_.view, isAppScheduling_, pendingToken_, abilityOperation_, MailOf(messages),
            generated, nextMission, log)
    }

    ghost predicate Valid()
      reads this`messages, this`nextToken, this`generated
      reads abilityList_, List(), set r | r in List() :: r.abilitySavedData
    {
      && env.Ok() && abilityList_.capacity == env.capacity && abilityList_.Valid()
      && nextToken <= TOKEN_PERIOD && nextToken % TOKEN_PERIOD == TokenOf(generated)
      && MailPoints(messages, List())
    }

    lemma ListIsValid()
      requires Valid()
      ensures abilityList_.Valid() && abilityList_.capacity == env.capacity && env.Ok()
    {
    }

    constructor (env: Env)
      requires env.Ok()
      ensures this.env == env && fresh(abilityList_) && Valid() && State() == NOTHING
    {
      this.env := env;
      abilityList_ := new AbilityList(env.capacity);
      isAppScheduling_, pendingToken_, abilityOperation_, messages := false, 0, [], [];
      nextToken, nextMission, generated, log := 0, 0, 0, Log([], [], map[], []);
    }

    method GenerateToken() returns (token: nat)
      requires nextToken <= TOKEN_PERIOD && nextToken % TOKEN_PERIOD == TokenOf(generated)
      modifies this`nextToken, this`generated
      ensures token == TokenOf(old(generated)) && generated == old(generated) + 1
      ensures nextToken <= TOKEN_PERIOD && nextToken % TOKEN_PERIOD == TokenOf(generated)
    {
      if nextToken == TOKEN_PERIOD { nextToken := 0; }
      token := nextToken;
      nextToken := nextToken + 1;
      generated := generated + 1;
    }

    method GenerateMission() returns (mission: nat)
      modifies this`nextMission
      ensures mission == NextMission(old(nextMission)) && nextMission == mission + 1
    {
      if nextMission == UINT32_MAX { nextMission := 0; }
      mission := nextMission;
      nextMission := nextMission + 1;
    }

    method SendMsgToAbilityThread(life: Life, record: AbilityRecord) returns (ok: bool)
      requires Valid()
      requires var i := Find(State(), record.token); i < |List()| && List()[i] == record
      modifies this`messages
      ensures Valid() && (State(), ok) == Send(old(State()), old(record.View()), life)
    {
      if record.abilityThread == null { return false; }
      var data: Bytes := [];
      var saved: AbilitySavedData? := null;
      match life {
        case CREATE =>
          data := record.wantData;
          if !record.isTerminated { saved := record.abilitySavedData; }
        case TO_FOREGROUND => data := record.wantData;
        case TO_BACKGROUND =>
        case DESTROY => if !record.isTerminated { saved := record.abilitySavedData; }
      }
      messages := messages + [Message(record.token, life, false, data, saved)];
      assert MailOf(messages) == MailOf(old(messages)) + [Mail(record.token, life, false, data, saved != null)];
      return true;
    }

    method SchedulerLifecycle(token: nat, life: Life) returns (ok: bool)
      requires Valid()
      modifies this`messages
      ensures Valid()
      ensures var i := Find(old(State()), token);
              (State(), ok) == if i == |List()| then (old(State()), false)
                               else Send(old(State()), old(State()).list[i], life)
    {
      var record := abilityList_.Get(token);
      if record == null { return false; }
      ok := SendMsgToAbilityThread(life, record);
    }

    method CreateAppTask(record: AbilityRecord) returns (ok: bool)
      requires Valid() && abilityList_.At(record, Find(State(), record.token))
      modifies this`messages, record`abilityThread, record`state, abilityList_`view
      ensures Valid() && ok
      ensures State() == CreateTask(old(State()), Find(old(State()), record.token))
    {
      ghost var i := Find(State(), record.token);
      ok := abilityList_.AttachThread(record, i);
      assert Items(State().list) == Items(old(State()).list);
      var sent := SchedulerLifecycle(record.token, CREATE);
    }

    method SetAbilityStateAndNotify(token: nat, state: RecordState)
      requires Valid()
      modifies List()`state, abilityList_`view
      ensures Valid()
      ensures var i := Find(old(State()), token);
              var l := old(State()).list;
              State() == old(State()).(list := if i == |l| then l else l[i := l[i].(state := state)])
    {
      var record := abilityList_.Get(token);
      if record == null { return; }
      abilityList_.SetState(record, state, Find(State(), token));
    }

    method OnCreateDone(token: nat)
      requires Valid()
      modifies this`messages, List()`state, abilityList_`view
      ensures Valid() && State() == LifecycleDone(env, old(State()), token, CREATE)
    {
      SetAbilityStateAndNotify(token, INITED);
      assert Items(State().list) == Items(old(State()).list);
      var sent := SchedulerLifecycle(token, TO_FOREGROUND);
    }

    // Readies the saved data of the record and asks its app to save and go.
    method SendDestroy(record: AbilityRecord, ghost i: nat)
      requires Valid() && messages == [] && i == Find(State(), record.token) && abilityList_.At(record, i)
      modifies this`messages, record`abilitySavedData, record.abilitySavedData, abilityList_`view
      ensures Valid()
      ensures List() == old(List()) && Grows()
      ensures var s, r := old(State()), old(State()).list[i];
              var r' := r.(saved := if r.terminated && r.saved.None? then None else Some(NOTHING_SAVED));
              State() == Send(s.(list := s.list[i := r']), r', DESTROY).0
    {
      abilityList_.PrepareSavedData(record, i);
      assert Items(State().list) == Items(old(State()).list);
      assert record.View() == State().list[i];
      var sent := SendMsgToAbilityThread(DESTROY, record);
    }

    method OnBackgroundDone(token: nat)
      requires Valid() && messages == []
      modifies this`messages, abilityList_`view
      modifies List(), set r | r in List() :: r.abilitySavedData
      ensures Valid() && State() == LifecycleDone(env, old(State()), token, TO_BACKGROUND)
      ensures List() == old(List()) && Grows()
    {
      SetAbilityStateAndNotify(token, BACKGROUND);
      assert Items(State().list) == Items(old(State()).list);
      var record := abilityList_.Get(token);
      if record == null { return; }
      ghost var i, s := Find(State(), token), State();
      SendDestroy(record, i);
      UpdateTwice(old(State()).list, i, s.list[i],
                  s.list[i].(saved := if s.list[i].terminated && s.list[i].saved.None? then None
                                      else Some(NOTHING_SAVED)));
    }

    method DeleteRecordInfo(token: nat)
      requires Valid() && messages == []
      modifies abilityList_, List()`abilityThread
      ensures Valid()
      ensures var i := Find(old(State()), token);
              if i == |old(List())| then State() == old(State()) && List() == old(List())
              else State() == old(State()).(list := Drop(old(State()).list, i)) && List() == Drop(old(List()), i)
    {
      var record := abilityList_.Get(token);
      if record == null { return; }
      ghost var i := Find(State(), token);
      abilityList_.DeleteAbilityThread(record, i);
      assert Items(State().list) == Items(old(State()).list);
      abilityList_.Erase(token);
      assert State().list == Drop(old(State()).list, i);
    }

    // The ability to create next: the pending one, or else the one on top.
    method StartNext()
      requires Valid() && messages == [] && List() != []
      modifies this`messages, this`pendingToken_, abilityList_`view, List()`abilityThread, List()`state
      ensures Valid() && List() == old(List())
      ensures var s := old(State());
              var j := Find(s, s.pending);
              State() == if s.pending == 0 then CreateTask(s, 0)
                         else if j == |s.list| then s else CreateTask(s, j).(pending := 0)
    {
      hide Scheduler.CreateTask, TokenIndex;
      if pendingToken_ != 0 {
        var record := abilityList_.Get(pendingToken_);
        if record == null { return; }
        var ok := CreateAppTask(record);
        pendingToken_ := 0;
      } else {
        var topAbilityRecord := abilityList_.GetTopAbility();
        assert topAbilityRecord.View() == State().list[0];
        assert Find(State(), topAbilityRecord.token) == 0;
        var ok := CreateAppTask(topAbilityRecord);
      }
    }

    // The record goes off the list when it is terminated; otherwise only its thread goes.
    method LeaveForeground(record: AbilityRecord, ghost i: nat)
      requires Valid() && messages == [] && i == Find(State(), record.token) && abilityList_.At(record, i)
      modifies abilityList_, List()`abilityThread
      ensures Valid()
      ensures var s, r := old(State()), old(State()).list[i];
              if r.terminated then State() == s.(list := Drop(s.list, i)) && List() == Drop(old(List()), i)
              else State() == s.(list := s.list[i := r.(thread := false)]) && List() == old(List())
      ensures Records() <= old(Records())
    {
      assert record.View() == State().list[i];
      if record.isTerminated {
        DeleteRecordInfo(record.token);
      } else {
        abilityList_.DeleteAbilityThread(record, i);
      }
    }

    method OnDestroyDone(token: nat)
      requires Valid() && messages == []
      requires var i := Find(State(), token);
               i < |State().list| && State().list[i].terminated ==> 2 <= |State().list|
      modifies this`messages, this`pendingToken_, abilityList_, List()`state, List()`abilityThread
      ensures Valid() && State() == DestroyDone(old(State()), token)
      ensures Records() <= old(Records())
    {
      hide TokenIndex, NameIndex, Drop, Separate;
      ListIsValid();
      hide Valid;
      ghost var i, l := Find(State(), token), State().list;
      SetAbilityStateAndNotify(token, STOP);
      if i < |l| { assert Items(State().list) == Items(l); }
      var onDestroyRecord := abilityList_.Get(token);
      if onDestroyRecord == null { return; }
      LeaveForeground(onDestroyRecord, i);
      DropUpdated(l, i, l[i].(state := STOP));
      UpdateTwice(l, i, l[i].(state := STOP), l[i].(state := STOP, thread := false));
      assert State().list == if l[i].terminated then Drop(l, i) else l[i := l[i].(state := STOP, thread := false)];
      StartNext();
    }

    // ---------- requests ----------

    method AddAbilityOperation(r: Request) returns (ok: bool)
      requires Valid()
      modifies this`abilityOperation_, this`log
      ensures Valid() && ok && State() == Enqueue(env, old(State()), r)
    {
      ok := true;
      var r' := CopyForQueue(env, |log.received|, r);
      abilityOperation_ := abilityOperation_ + [r'];
      log := log.(received := log.received + [r']);
    }

    // The state in which a request may be carried out: no message in flight, tokens and names distinct,
    // an app running on top.
    ghost predicate Quiet()
      reads this`messages, abilityList_
    {
      && messages == [] && DistinctItems(Items(abilityList_.view)) && |abilityList_.view| <= env.capacity
      && (abilityList_.view != [] ==> abilityList_.view[0].thread)
    }

    // TerminateAbility with a Want; `want` is the data it carries.
    method TerminateAbilityWith(token: nat, want: Option<Bytes>) returns (ok: bool)
      requires Valid() && Quiet()
      modifies this, abilityList_
      modifies List()`wantData, List()`mission, List()`isTerminated, List()`abilityThread
      ensures Valid() && (State(), ok) == Scheduler.TerminateAbility(env, old(State()), token, want)
      ensures Records() <= old(Records())
    {
      ListIsValid();
      hide Valid;
      var topRecord := abilityList_.GetTopAbility();
      if topRecord == null {
        isAppScheduling_ := false;
        return false;
      }
      assert topRecord.View() == State().list[0];
      // 1. only home in the ability stack
      if |abilityList_.abilityList_| == 1 && topRecord.IsPermanentAbility() {
        isAppScheduling_ := false;
        return true;
      }
      if token != topRecord.token {
        // 2. not the top ability
        ok := TerminateNonTop(token);
      } else if |abilityList_.abilityList_| == 1 {
        abilityList_.PopAbility();
        isAppScheduling_ := false;
        ok := false;
      } else if !topRecord.IsPermanentAbility() {
        // 3. the top ability, popped and added again as terminated
        ok := TerminateTopRecord(topRecord, want);
      } else {
        ok := TerminateTopHome(topRecord, want);
      }
    }

    method TerminateNonTop(token: nat) returns (ok: bool)
      requires Valid() && Quiet()
      modifies this`isAppScheduling_, abilityList_, List()`abilityThread
      ensures Valid()
      ensures var s := old(State());
              var i := Find(s, token);
              (State(), ok) == if i == |s.list| || IsPermanent(s.list[i].item) then (s.(scheduling := false), false)
                               else (s.(list := Drop(s.list, i), scheduling := false), true)
      ensures Records() <= old(Records())
    {
      hide TokenIndex, Drop, Separate;
      var abilityRecord := abilityList_.Get(token);
      assert abilityRecord != null ==> abilityRecord.View() == State().list[Find(State(), token)];
      if abilityRecord == null || abilityRecord.IsPermanentAbility() {
        isAppScheduling_ := false;
        return false;
      }
      DeleteRecordInfo(token);
      isAppScheduling_ := false;
      return true;
    }

    method TerminateTopRecord(topRecord: AbilityRecord, want: Option<Bytes>) returns (ok: bool)
      requires Valid() && messages == [] && 2 <= |List()| && topRecord == List()[0]
      requires !IsPermanent(State().list[0].item)
      modifies this`pendingToken_, this`messages, abilityList_`view
      modifies List()`wantData, List()`mission, List()`isTerminated
      ensures Valid() && (State(), ok) == TerminateTop(env, old(State()), want)
    {
      ghost var l := State().list;
      var newTopRecord := abilityList_.abilityList_[1];
      assert topRecord.View() == l[0] && newTopRecord.View() == l[1];
      abilityList_.RetireTop(topRecord, newTopRecord, want);
      pendingToken_ := newTopRecord.token;
      ok := SendMsgToAbilityThread(TO_BACKGROUND, topRecord);
    }

    // Home is not removed; it changes places with the ability under it.
    method TerminateTopHome(topRecord: AbilityRecord, want: Option<Bytes>) returns (ok: bool)
      requires Valid() && Quiet() && 2 <= |List()| && topRecord == List()[0]
      requires IsPermanent(State().list[0].item)
      modifies this`pendingToken_, this`messages, abilityList_, List()`wantData, List()`mission
      ensures Records() <= old(Records())
      ensures Valid() && (State(), ok) == TerminateTop(env, old(State()), want)
    {
      hide TokenIndex, Drop, Separate, MailPoints;
      ghost var l := State().list;
      var newTopRecord := abilityList_.abilityList_[1];
      assert topRecord.View() == l[0] && newTopRecord.View() == l[1];
      abilityList_.ExchangeTop(topRecord, newTopRecord, want);
      pendingToken_ := newTopRecord.token;
      SecondOf(State().list, l);
      ok := SendMsgToAbilityThread(TO_BACKGROUND, topRecord);
    }

    method TerminateAbility(token: nat) returns (ok: bool)
      requires Valid() && token < 0x1_0000 && (isAppScheduling_ || Quiet())
      modifies this, abilityList_
      modifies List()`wantData, List()`mission, List()`isTerminated, List()`abilityThread
      ensures Valid()
      ensures var s := old(State());
              if s.scheduling then ok && State() == Enqueue(env, s, Terminate(token))
              else (State(), ok) == Scheduler.TerminateAbility(env, s.(scheduling := true), token, None)
      ensures Records() <= old(Records())
    {
      if isAppScheduling_ {
        ok := AddAbilityOperation(Terminate(token));
        return;
      }
      isAppScheduling_ := true;
      ok := TerminateAbilityWith(token, None);
    }

    method TerminateMission(mission: nat) returns (ok: bool)
      requires Valid() && (isAppScheduling_ || Quiet())
      requires isAppScheduling_ || forall i :: 0 <= i < |State().list| ==> State().list[i].item.token < 0x1_0000
      modifies this, abilityList_
      modifies Records()`wantData, Records()`mission, Records()`isTerminated, Records()`abilityThread
      ensures Valid()
      ensures var s := old(State());
              if s.scheduling then ok && State() == Enqueue(env, s, Request.TerminateMission(mission))
              else (State(), ok) == TerminateMissionAbilities(s, mission)
      ensures Records() <= old(Records())
    {
      hide Scheduler.Enqueue, LeftAfter, DistinctItems, KeepRecs, MissionTokens;
      if isAppScheduling_ {
        ok := AddAbilityOperation(Request.TerminateMission(mission));
        return;
      }
      var topRecord := abilityList_.GetTopAbility();
      if topRecord == null { return false; }
      ghost var v := State().list;
      assert topRecord.View() == v[0];
      var tokens := abilityList_.GetAbilityList(mission);
      ghost var done := TerminateEach(tokens, topRecord.token);
      LeftAfterMission(v, done, mission);
      return true;
    }

    // The loop of TerminateMission: the abilities named, but not the one on top.
    method TerminateEach(tokens: seq<nat>, topToken: nat) returns (ghost done: set<nat>)
      requires Valid() && Quiet() && !isAppScheduling_ && List() != [] && State().list[0].item.token == topToken
      requires forall t :: t in tokens ==> t < 0x1_0000
      modifies this, abilityList_
      modifies Records()`wantData, Records()`mission, Records()`isTerminated, Records()`abilityThread
      ensures Valid() && Records() <= old(Records())
      ensures forall t :: t in done <==> t in tokens
      ensures var s := old(State()); State() == s.(list := [s.list[0]] + LeftAfter(s.list[1..], done))
    {
      hide LeftAfter, LeftAfterFound, DistinctItems;
      ghost var v := State().list;
      done := {};
      LeftAfterNothing(v[1..]);
      assert v == [v[0]] + v[1..];
      for n := 0 to |tokens|
        invariant Valid() && Quiet() && !isAppScheduling_
        invariant Records() <= old(Records())
        invariant forall t :: t in done <==> t in tokens[..n]
        invariant State() == old(State()).(list := [v[0]] + LeftAfter(v[1..], done))
      {
        TerminateOneMore(v, done, tokens[n]);
        InPrefix(tokens, n);
        TerminateIfNotTop(tokens[n], topToken);
        done := done + {tokens[n]};
        TerminateOneMore(v, done, tokens[n]);
      }
      assert tokens[..|tokens|] == tokens;
    }

    // One turn of the loop of TerminateMission.
    method TerminateIfNotTop(token: nat, topToken: nat)
      requires Valid() && Quiet() && !isAppScheduling_ && token < 0x1_0000
      requires List() != [] && State().list[0].item.token == topToken
      modifies this, abilityList_
      modifies Records()`wantData, Records()`mission, Records()`isTerminated, Records()`abilityThread
      ensures Valid() && Records() <= old(Records())
      ensures var s := old(State());
              State() == s.(list := if token == topToken then s.list else LeftAfterFound(s.list, token))
    {
      if token != topToken {
        var ignored := TerminateAbility(token);
      }
    }

    method TerminateAll(excludedBundleName: Option<string>) returns (ok: bool)
      requires Valid() && (isAppScheduling_ || messages == [])
      modifies this, abilityList_
      ensures Valid()
      ensures var s := old(State());
              if s.scheduling then ok && State() == Enqueue(env, s, Request.TerminateAll(excludedBundleName))
              else (State(), ok) == TerminateAllAbilities(s.(scheduling := true), excludedBundleName)
      ensures Records() <= old(Records())
    {
      ListIsValid();
      hide Valid;
      if isAppScheduling_ {
        ok := AddAbilityOperation(Request.TerminateAll(excludedBundleName));
        return;
      }
      isAppScheduling_ := true;
      ghost var l := List();
      ok := abilityList_.PopAllAbility(excludedBundleName);
      isAppScheduling_ := false;
      if ok { KeepRecordsKeep(excludedBundleName, l[1..]); }
    }

    method ForceStop(bundleName: Option<string>, data: Bytes) returns (ok: bool)
      requires Valid() && (isAppScheduling_ || Quiet())
      modifies this, abilityList_
      modifies List()`wantData, List()`mission, List()`isTerminated, List()`abilityThread
      ensures Valid()
      ensures var s := old(State());
              if s.scheduling then ok && State() == Enqueue(env, s, Request.ForceStop(bundleName, data))
              else (State(), ok) == ForceStopByName(env, s.(scheduling := true), bundleName, data)
      ensures Records() <= old(Records())
    {
      hide TokenIndex, NameIndex, Drop, Separate;
      ListIsValid();
      hide Valid, Scheduler.TerminateAbility, Scheduler.Enqueue, DistinctItems;
      if isAppScheduling_ {
        ok := AddAbilityOperation(Request.ForceStop(bundleName, data));
        return;
      }
      isAppScheduling_ := true;
      if bundleName.None? {
        isAppScheduling_ := false;
        return false;
      }
      var terminateRecord := abilityList_.GetByName(bundleName.value);
      if terminateRecord == null {
        isAppScheduling_ := false;
        return false;
      }
      assert terminateRecord.View() == State().list[NameIndex(Items(State().list), bundleName.value)];
      ok := TerminateAbilityWith(terminateRecord.token, Some(data));
    }

    // Deleting the record on top needs another one to go to.
    method ForceStopBundle(token: nat) returns (ok: bool)
      requires Valid() && token < 0x1_0000
      requires isAppScheduling_ || (Quiet() && List() != [] && (State().list[0].item.token == token ==> 2 <= |List()|))
      modifies this, abilityList_
      modifies List()`wantData, List()`mission, List()`isTerminated, List()`abilityThread, List()`state
      ensures Valid()
      ensures var s := old(State());
              if s.scheduling then ok && State() == Enqueue(env, s, TerminateApp(token))
              else (State(), ok) == Scheduler.ForceStopBundle(env, s.(scheduling := true), token)
      ensures Records() <= old(Records())
    {
      if isAppScheduling_ {
        ok := AddAbilityOperation(TerminateApp(token));
        return;
      }
      isAppScheduling_ := true;
      var topRecord := abilityList_.GetTopAbility();
      assert topRecord.View() == State().list[0];
      if topRecord.token != token {
        ok := TerminateAbilityWith(token, None);
        return;
      }
      abilityList_.SetTerminated(topRecord, 0);
      assert Items(State().list)[0].token == token;
      OnDestroyDone(token);
      return true;
    }

    // ---------- start ----------

    method StartKnownAbility(record: AbilityRecord, data: Bytes, mission: nat, ghost i: nat) returns (ok: bool)
      requires Valid() && Quiet() && isAppScheduling_ && 0 < i && abilityList_.At(record, i)
      modifies this, abilityList_, List()`wantData, List()`mission, List()`isTerminated
      ensures Valid() && (State(), ok) == StartKnownRecord(env, old(State()), i, data, mission)
      ensures Grows() && (!ok || !isAppScheduling_ ==> List() == old(List()))
    {
      assert record.View() == State().list[i];
      if !record.isNativeApp && !env.check(|log.executed|, record.appName) {
        isAppScheduling_ := false;
        return false;
      }
      ok := SwitchTo(record, data, if mission == UINT32_MAX then record.mission else mission, i);
    }

    method SwitchTo(record: AbilityRecord, data: Bytes, mission: nat, ghost i: nat) returns (ok: bool)
      requires Valid() && Quiet() && 0 < i && abilityList_.At(record, i)
      modifies this`messages, abilityList_, List()`wantData, List()`mission, List()`isTerminated
      ensures Valid() && Grows()
      ensures var s := old(State());
              var top := Leaver(env, s);
              var r := s.list[i].(item := s.list[i].item.(data := data, mission := mission));
              (State(), ok) == Send(s.(list := Add(env.capacity, Drop(s.list[0 := top], i), r)), top, TO_BACKGROUND)
    {
      hide Scheduler.Add, TokenIndex, Drop;
      ghost var l := State().list;
      var topRecord := abilityList_.GetTopAbility();
      assert topRecord.View() == l[0];
      var retire := env.temporary(|log.executed|, topRecord.appName);
      abilityList_.Promote(record, data, mission, topRecord, retire, i);
      PromotedTop(env.capacity, l, i, l[i].(item := l[i].item.(data := data, mission := mission)), retire);
      assert topRecord.View() == State().list[1];
      ok := SendMsgToAbilityThread(TO_BACKGROUND, topRecord);
    }

    // Puts a new record on the list.
    method AddRecord(token: nat, name: string, data: Bytes, mission: nat, native: bool) returns (record: AbilityRecord)
      requires Valid() && forall m :: 0 <= m < |messages| ==> messages[m].saved == null
      modifies this`nextMission, abilityList_
      ensures Valid() && (old(List()) == [] ==> List() == [record]) && record.token == token && fresh(record) && Grows()
      ensures var s := old(State());
              State() == s.(list := Add(env.capacity, s.list, NewRecord(s, token, name, data, mission, native)),
                            nextMission := UseToken(s, mission).nextMission)
    {
      hide TokenIndex, Drop, Trim, Scheduler.Add;
      var m := mission;
      if m == UINT32_MAX { m := GenerateMission(); }
      record := new AbilityRecord(token, name, data, m, native);
      abilityList_.Add(record);
    }

    // While another ability is in the foreground the new one has to wait for its turn.
    method PreCheckStartAbility(name: string, data: Bytes, mission: nat, native: bool) returns (ok: bool)
      requires Valid() && forall m :: 0 <= m < |messages| ==> messages[m].saved == null
      requires pendingToken_ == 0 ==> List() == [] && messages == []
      modifies this, abilityList_
      ensures Valid() && ok && Grows()
      ensures var s := old(State());
              s.pending != 0 ==>
                State() == s.(list := Add(env.capacity, s.list, NewRecord(s, s.pending, name, data, mission, native)),
                              nextMission := UseToken(s, mission).nextMission)
      ensures var s := old(State());
              s.pending == 0 ==>
                State() == CreateTask(UseToken(s, mission).(
                                        list := [NewRecord(s, TokenOf(s.generated), name, data, mission, native)]), 0)
    {
      ok := true;
      var token := pendingToken_;
      if token == 0 { token := GenerateToken(); }
      var record := AddRecord(token, name, data, mission, native);
      if pendingToken_ == 0 {
        ghost var s := old(State());
        AddFirst(env.capacity, NewRecord(s, token, name, data, mission, native));
        assert State() == UseToken(s, mission).(list := [NewRecord(s, token, name, data, mission, native)]);
        ok := CreateAppTask(record);
      }
    }

    method StartNewAbility(name: string, data: Bytes, mission: nat) returns (ok: bool)
      requires Valid() && Quiet() && isAppScheduling_
      requires if List() == [] then pendingToken_ == 0
               else 0 < generated && StartNewRecord(env, State(), name, data, mission).0.generated <= TOKEN_PERIOD
      modifies this, abilityList_, List()`isTerminated
      ensures Valid() && (State(), ok) == StartNewRecord(env, old(State()), name, data, mission)
      ensures Grows() && (!ok || !isAppScheduling_ ==> List() == old(List()))
    {
      hide Scheduler.Add, Scheduler.NewRecord;
      var info := env.query(|log.executed|, name);
      if info.None? || name == "" {
        isAppScheduling_ := false;
        return false;
      }
      var topRecord := abilityList_.GetTopAbility();
      if topRecord == null {
        if name != env.home { return false; }
        ok := PreCheckStartAbility(name, data, mission, info.value);
        return;
      }
      if !info.value && !env.check(|log.executed|, name) { return false; }
      ok := StartOverTop(topRecord, name, data, mission, info.value);
    }

    method LeaveTop(topRecord: AbilityRecord)
      requires Valid() && Quiet() && abilityList_.At(topRecord, 0)
      modifies this`messages, abilityList_`view, topRecord`isTerminated
      ensures Valid() && forall m :: 0 <= m < |messages| ==> messages[m].saved == null
      ensures var s, top := old(State()), Leaver(env, old(State()));
              State() == Send(s.(list := s.list[0 := top]), top, TO_BACKGROUND).0
    {
      ghost var l := State().list;
      assert topRecord.View() == l[0];
      assert l[0].(terminated := l[0].terminated || false) == l[0] && l[0 := l[0]] == l;
      if env.temporary(|log.executed|, topRecord.appName) {
        abilityList_.SetTerminated(topRecord, 0);
      }
      assert topRecord.View() == State().list[0];
      var sent := SendMsgToAbilityThread(TO_BACKGROUND, topRecord);
      assert forall m :: 0 <= m < |messages| ==> !MailOf(messages)[m].carriesSaved && messages[m].saved == null;
    }

    method ReserveToken()
      requires Valid()
      modifies this`pendingToken_, this`nextToken, this`generated
      ensures Valid()
      ensures var s := old(State()); State() == s.(pending := TokenOf(s.generated), generated := s.generated + 1)
    {
      pendingToken_ := GenerateToken();
    }

    // The top is told to leave, and a token is set aside for its successor.
    method MakeWay(topRecord: AbilityRecord)
      requires Valid() && Quiet() && abilityList_.At(topRecord, 0)
      modifies this`messages, this`pendingToken_, this`nextToken, this`generated
      modifies abilityList_`view, topRecord`isTerminated
      ensures Valid() && forall m :: 0 <= m < |messages| ==> messages[m].saved == null
      ensures pendingToken_ == TokenOf(old(generated))
      ensures var s, top := old(State()), Leaver(env, old(State()));
              var s1 := Send(s.(list := s.list[0 := top]), top, TO_BACKGROUND).0;
              State() == s1.(pending := TokenOf(s1.generated), generated := s1.generated + 1)
    {
      hide Leaver;
      LeaveTop(topRecord);
      ReserveToken();
    }

    method StartOverTop(topRecord: AbilityRecord, name: string, data: Bytes, mission: nat, native: bool)
      returns (ok: bool)
      requires Valid() && Quiet() && abilityList_.At(topRecord, 0) && TokenOf(generated) != 0
      modifies this, abilityList_, topRecord`isTerminated
      ensures Valid() && ok && Grows()
      ensures var s, top := old(State()), Leaver(env, old(State()));
              var s1 := Send(s.(list := s.list[0 := top]), top, TO_BACKGROUND).0;
              var r := NewRecord(s1, TokenOf(s1.generated), name, data, mission, native);
              State() == UseToken(s1.(pending := TokenOf(s1.generated), list := Add(env.capacity, s1.list, r)), mission)
    {
      hide Scheduler.Add, Scheduler.Send, TokenIndex, Drop, Trim;
      MakeWay(topRecord);
      ok := PreCheckStartAbility(name, data, mission, native);
    }

    method StartAbility(bundleName: Option<string>, data: Bytes, mission: nat) returns (ok: bool)
      requires Valid()
      requires isAppScheduling_ || Quiet()
      requires isAppScheduling_ ||
               if List() == [] then pendingToken_ == 0
               else 0 < generated
                    && var s := State().(scheduling := true);
                       Scheduler.StartAbility(env, s, bundleName, data, mission).0.generated <= TOKEN_PERIOD
      modifies this, abilityList_
      modifies List()`wantData, List()`mission, List()`isTerminated
      ensures Valid()
      ensures var s := old(State());
              if s.scheduling then ok && State() == Enqueue(env, s, Start(bundleName, data, mission))
              else (State(), ok) == Scheduler.StartAbility(env, s.(scheduling := true), bundleName, data, mission)
      ensures Grows() && (!ok || !isAppScheduling_ ==> List() == old(List()))
    {
      if isAppScheduling_ {
        ok := AddAbilityOperation(Start(bundleName, data, mission));
        return;
      }
      isAppScheduling_ := true;
      if bundleName.None? {
        isAppScheduling_ := false;
        return false;
      }
      ok := StartNamed(bundleName.value, data, mission);
    }

    method StartNamed(name: string, data: Bytes, mission: nat) returns (ok: bool)
      requires Valid() && Quiet() && isAppScheduling_
      requires if List() == [] then pendingToken_ == 0
               else 0 < generated
                    && Scheduler.StartAbility(env, State(), Some(name), data, mission).0.generated <= TOKEN_PERIOD
      modifies this, abilityList_
      modifies List()`wantData, List()`mission, List()`isTerminated
      ensures Valid() && (State(), ok) == Scheduler.StartAbility(env, old(State()), Some(name), data, mission)
      ensures Grows() && (!ok || !isAppScheduling_ ==> List() == old(List()))
    {
      hide TokenIndex, NameIndex, Drop, Separate;
      ListIsValid();
      hide Valid, Scheduler.StartKnownRecord, Scheduler.StartNewRecord;
      var abilityRecord := abilityList_.GetByName(name);
      if abilityRecord == null {
        ok := StartNewAbility(name, data, mission);
      } else if abilityRecord == abilityList_.GetTopAbility() {
        isAppScheduling_ := false;
        ok := true;
      } else {
        ok := StartKnownAbility(abilityRecord, data, mission, NameIndex(Items(State().list), name));
      }
    }

    // Home is started once; after that there is nothing to do.
    method StartLauncher()
      requires Valid() && (State() == NOTHING || Find(State(), LAUNCHER_TOKEN) < |List()|)
      modifies this, abilityList_
      ensures Valid() && Grows()
      ensures if old(State()) == NOTHING then State() == Booted(env) && Inv(env, State()) else State() == old(State())
    {
      var launcherRecord := abilityList_.Get(LAUNCHER_TOKEN);
      if launcherRecord != null { return; }
      BootSteps(env);
      var ok := StartAbility(Some(env.home), [], env.bootMission);
    }

    // ---------- the dispatcher ----------

    method SetIsAppScheduling(runState: bool)
      requires Valid()
      modifies this`isAppScheduling_
      ensures Valid() && State() == old(State()).(scheduling := runState)
    {
      isAppScheduling_ := runState;
    }

    // Carries out one request, or puts it off while a switch is under way.
    method Execute(r: Request) returns (ok: bool)
      requires Valid()
      requires isAppScheduling_ || Executable(env, State(), r)
      modifies this, abilityList_
      modifies List()`wantData, List()`mission, List()`isTerminated, List()`abilityThread, List()`state
      ensures Valid()
      ensures var s := old(State());
              if s.scheduling then ok && State() == Enqueue(env, s, r) else (State(), ok) == Perform(env, s, r)
      ensures Grows() && (!ok || !isAppScheduling_ ==> Records() <= old(Records()))
    {
      if !isAppScheduling_ { ExecutableMeans(env, State(), r); }
      hide Valid, Executable, Scheduler.StartAbility, Enqueue;
      if r.Start? {
        ok := StartAbility(r.bundle, r.data, r.mission);
      } else {
        ok := ExecuteStop(r);
        ShrunkGrows();
      }
    }

    // Every request but a start.
    method ExecuteStop(r: Request) returns (ok: bool)
      requires Valid() && !r.Start?
      requires isAppScheduling_ || (Quiet() && List() != [])
      requires isAppScheduling_ || forall i :: 0 <= i < |State().list| ==> State().list[i].item.token < 0x1_0000
      requires isAppScheduling_ || !r.TerminateApp? || State().list[0].item.token != Narrow(r.value) || 2 <= |List()|
      modifies this, abilityList_
      modifies List()`wantData, List()`mission, List()`isTerminated, List()`abilityThread, List()`state
      ensures Valid()
      ensures var s := old(State());
              if s.scheduling then ok && State() == Enqueue(env, s, r) else (State(), ok) == Perform(env, s, r)
      ensures Records() <= old(Records())
    {
      hide Valid, Enqueue, Scheduler.TerminateAbility, Scheduler.TerminateMissionAbilities;
      hide Scheduler.ForceStopByName, Scheduler.TerminateAllAbilities, Scheduler.ForceStopBundle;
      match r {
        case Terminate(v) =>
          QueueNarrows(env, State(), v);
          ok := TerminateAbility(Narrow(v));
        case TerminateMission(mission) => ok := TerminateMission(mission);
        case TerminateApp(v) =>
          QueueNarrows(env, State(), v);
          ok := ForceStopBundle(Narrow(v));
        case ForceStop(bundle, data) => ok := ForceStop(bundle, data);
        case TerminateAll(excluded) => ok := TerminateAll(excluded);
      }
    }

    // ServiceMessageHandle, for a message from a client.
    method HandleRequest(r: Request)
      requires Valid() && Inv(env, State()) && Regular(env, Scheduler.HandleRequest(env, State(), r))
      modifies this, abilityList_, Records()
      ensures Valid() && State() == Scheduler.HandleRequest(env, old(State()), r) && Grows()
    {
      hide Valid, Scheduler.Perform, Scheduler.RunOperation, Related, Ready;
      if !isAppScheduling_ {
        Accept(r);
      }
      var ok := Execute(r);
      if !ok || !isAppScheduling_ {
        SetIsAppScheduling(false);
        RunOperation();
      }
    }

    // A request that will be carried out at once.
    method Accept(r: Request)
      requires Valid() && Inv(env, State()) && !isAppScheduling_
      requires Regular(env, Scheduler.HandleRequest(env, State(), r))
      modifies this`log
      ensures Valid() && Executable(env, State(), r) && !isAppScheduling_
      ensures var (s1, ok) := Perform(env, State(), r);
              if !ok || !s1.scheduling
              then Runnable(env, s1.(scheduling := false))
                   && Scheduler.HandleRequest(env, old(State()), r)
                      == Scheduler.RunOperation(env, s1.(scheduling := false))
              else Scheduler.HandleRequest(env, old(State()), r) == s1
    {
      log := log.(received := log.received + [r], executed := log.executed + [r]);
      AcceptSteps(env, old(State()), r, State());
    }

    // ServiceMessageHandle, for the acknowledgement of the m-th message in flight.
    method HandleTransactionDone(m: nat)
      requires Valid() && Inv(env, State()) && m < |messages| && messages[m].done
      requires Regular(env, HandleAck(env, State(), m))
      modifies this, abilityList_, Records(), set r | r in List() :: r.abilitySavedData
      ensures Valid() && State() == HandleAck(env, old(State()), m) && Grows()
    {
      var token, life := messages[m].token, messages[m].life;
      AckExpected(env, State(), m);
      RemoveMessage(m);
      SchedulerLifecycleDone(token, life);
    }

    method RemoveMessage(m: nat)
      requires Valid() && m < |messages|
      modifies this`messages
      ensures Valid() && State() == old(State()).(mail := Drop(old(State()).mail, m))
    {
      messages := messages[..m] + messages[m + 1..];
      assert State().mail == Drop(old(State()).mail, m);
    }

    method RunOperation()
      requires Valid() && (isAppScheduling_ || Runnable(env, State()))
      modifies this, abilityList_, Records()
      ensures Valid() && State() == Scheduler.RunOperation(env, old(State())) && Grows()
      decreases |abilityOperation_|
    {
      hide Valid, Scheduler.Perform, Scheduler.RunOperation, Related, Ready;
      NothingToRun(env, State());
      if abilityOperation_ == [] {
        isAppScheduling_ := false;
        return;
      }
      if isAppScheduling_ { return; }
      var operation := TakeOperation();
      var ok := Execute(operation);
      if !ok || !isAppScheduling_ {
        isAppScheduling_ := false;
        RunOperation();
      }
    }

    method TakeOperation() returns (operation: Request)
      requires Valid() && Runnable(env, State()) && abilityOperation_ != []
      modifies this`abilityOperation_, this`log
      ensures var s := old(State());
              operation == s.queue[0]
              && State() == s.(queue := s.queue[1..], log := s.log.(executed := s.log.executed + [operation]))
      ensures Valid() && Executable(env, State(), operation) && !isAppScheduling_
      ensures var (s2, ok) := Perform(env, State(), operation);
              if !ok || !s2.scheduling
              then Runnable(env, s2.(scheduling := false))
                   && Scheduler.RunOperation(env, old(State())) == Scheduler.RunOperation(env, s2.(scheduling := false))
              else Scheduler.RunOperation(env, old(State())) == s2
    {
      operation := abilityOperation_[0];
      abilityOperation_ := abilityOperation_[1..];
      log := log.(executed := log.executed + [operation]);
      OperationSteps(env, old(State()), State());
    }

    method SchedulerLifecycleDone(token: nat, life: Life)
      requires Valid() && messages == [] && Expected(env, State(), token, life)
      modifies this, abilityList_, Records(), set r | r in List() :: r.abilitySavedData
      ensures Valid() && State() == LifecycleDone(env, old(State()), token, life) && Grows()
    {
      hide Valid, Scheduler.DestroyDone, Scheduler.RunOperation, Scheduler.Send, Runnable;
      match life {
        case CREATE => OnCreateDone(token);
        case TO_FOREGROUND => OnForegroundDone(token);
        case TO_BACKGROUND => OnBackgroundDone(token);
        case DESTROY =>
          OnDestroyDone(token);
          ShrunkGrows();
      }
    }

    // The switch is over: the requests that waited have their turn.
    method OnForegroundDone(token: nat)
      requires Valid() && messages == [] && Expected(env, State(), token, TO_FOREGROUND)
      modifies this, abilityList_, Records(), set r | r in List() :: r.abilitySavedData
      ensures Valid() && State() == LifecycleDone(env, old(State()), token, TO_FOREGROUND) && Grows()
    {
      hide Valid, Scheduler.RunOperation, Runnable;
      ghost var s, i := State(), Find(State(), token);
      ghost var l := if i == |s.list| then s.list else s.list[i := s.list[i].(state := FOREGROUND)];
      SetAbilityStateAndNotify(token, FOREGROUND);
      SetIsAppScheduling(false);
      assert State() == s.(list := l, scheduling := false);
      RunOperation();
    }

    // ---------- the app threads ----------

    // ProcessMessage for the m-th message in flight: HandleCreate then HandleRestore, or HandleSave
    // then HandleDestroy. The app answers HandleSave with the three arguments.
    method ProcessMessage(m: nat, data: Option<Bytes>, userData: Option<Bytes>, code: ResultCode)
        returns (restored: Option<Saved>)
      requires Valid() && Inv(env, State()) && m < |messages| && !messages[m].done
      modifies this`messages, this`log, abilityList_`view, set r | r in List() :: r.abilitySavedData
      ensures Valid()
      ensures State() == AppStep(old(State()), m, Saved(Stored([], data), Stored([], userData), code))
      ensures messages[m].life == CREATE ==>
              State().log.restored == old(State()).log.restored + [Delivery(messages[m].token, restored)]
    {
      restored := HandleMessage(m, data, userData, code);
      MarkDone(m);
    }

    method MarkDone(m: nat)
      requires Valid() && m < |messages|
      modifies this`messages
      ensures Valid() && |messages| == |old(messages)| && messages[m] == old(messages)[m].(done := true)
      ensures var s := old(State()); State() == s.(mail := s.mail[m := s.mail[m].(done := true)])
    {
      messages := messages[m := messages[m].(done := true)];
      assert State().mail == old(State()).mail[m := old(State()).mail[m].(done := true)];
    }

    // What the app does with the message.
    method HandleMessage(m: nat, data: Option<Bytes>, userData: Option<Bytes>, code: ResultCode)
        returns (restored: Option<Saved>)
      requires Valid() && Inv(env, State()) && m < |messages| && !messages[m].done
      modifies this`log, abilityList_`view, set r | r in List() :: r.abilitySavedData
      ensures Valid()
      ensures var s := old(State());
              State() == AppStep(s, m, Saved(Stored([], data), Stored([], userData), code)).(mail := s.mail)
      ensures messages[m].life == CREATE ==>
                State().log.restored == old(State()).log.restored + [Delivery(messages[m].token, restored)]
    {
      hide Inv;
      var msg := messages[m];
      ghost var i := PointedTo(m);
      assert State().mail[m].carriesSaved == (msg.saved != null);
      restored := None;
      if msg.life == CREATE {
        if msg.saved != null {
          assert List()[i].View() == State().list[i];
          restored := Some(Saved(msg.saved.savedData, msg.saved.userSavedData, msg.saved.savedResult));
        }
        log := log.(restored := log.restored + [Delivery(msg.token, restored)]);
      } else if msg.life == DESTROY && msg.saved != null {
        SaveThrough(msg.saved, msg.token, data, userData, code, i);
      }
    }

    method SaveThrough(saved: AbilitySavedData, token: nat, data: Option<Bytes>, userData: Option<Bytes>,
                       code: ResultCode, ghost i: nat)
      requires Valid() && i < |List()| && List()[i].abilitySavedData == saved
      requires State().list[i].saved == Some(NOTHING_SAVED)
      modifies this`log, abilityList_`view, saved
      ensures Valid()
      ensures var s, saves := old(State()), Saved(Stored([], data), Stored([], userData), code);
              State() == s.(list := s.list[i := s.list[i].(saved := Some(saves))],
                            log := s.log.(stored := s.log.stored[token := saves]))
    {
      abilityList_.HandleSave(saved, data, userData, code, i);
      log := log.(stored := log.stored[token := Saved(Stored([], data), Stored([], userData), code)]);
    }

    // The record whose saved data a message carries.
    lemma PointedTo(m: nat) returns (i: nat)
      requires Valid() && Inv(env, State()) && m < |messages| && !messages[m].done
      ensures i == Find(State(), messages[m].token)
      ensures messages[m].saved != null && (messages[m].life == CREATE || messages[m].life == DESTROY) ==>
                i < |List()| && List()[i].abilitySavedData == messages[m].saved
                && (messages[m].life == DESTROY ==> State().list[i].saved == Some(NOTHING_SAVED))
    {
      i := Find(State(), messages[m].token);
      if messages[m].saved != null {
        var k :| 0 <= k < |List()| && List()[k].token == messages[m].token
                 && List()[k].abilitySavedData == messages[m].saved;
        assert List()[k].View() == State().list[k];
        FindDistinct(Items(State().list), k);
        MailIsOnly(env, State());
      }
    }

    // ---------- runs ----------

    // One input.
    method Handle(input: Input)
      requires Valid() && Inv(env, State()) && Regular(env, Step(env, State(), EventOf(input)))
      modifies this, abilityList_, Records(), set r | r in List() :: r.abilitySavedData
      ensures Valid() && State() == Step(env, old(State()), EventOf(input)) && Grows()
    {
      NeverEmpty(env, State());
      hide Valid, Inv, Regular, Grows, AppStep, HandleAck, Scheduler.HandleRequest;
      match input {
        case Requested(r) => HandleRequest(r);
        case Taken(m, data, userData, code) => TakeMessage(m, data, userData, code);
        case Acknowledged(m) => TakeAcknowledgement(m);
      }
    }

    // Nothing happens if no such message is on its way to its app thread.
    method TakeMessage(m: nat, data: Option<Bytes>, userData: Option<Bytes>, code: ResultCode)
      requires Valid() && Inv(env, State())
      modifies this`messages, this`log, abilityList_`view, set r | r in List() :: r.abilitySavedData
      ensures Valid() && Grows()
      ensures State() == Step(env, old(State()), App(m, Saved(Stored([], data), Stored([], userData), code)))
    {
      hide Inv, AppStep;
      if m < |messages| && !messages[m].done {
        var restored := ProcessMessage(m, data, userData, code);
      }
    }

    // Nothing happens if no such message is on its way back.
    method TakeAcknowledgement(m: nat)
      requires Valid() && Inv(env, State()) && Regular(env, Step(env, State(), Ack(m)))
      modifies this, abilityList_, Records(), set r | r in List() :: r.abilitySavedData
      ensures Valid() && State() == Step(env, old(State()), Ack(m)) && Grows()
    {
      hide Inv, HandleAck;
      if m < |messages| && messages[m].done {
        HandleTransactionDone(m);
      }
    }

    // The service from its start, through any sequence of inputs: it ends where the state machine does.
    method Serve(inputs: seq<Input>)
      requires Valid() && State() == NOTHING && Legal(env, EventsOf(inputs))
      modifies this, abilityList_
      ensures Valid() && State() == Run(env, EventsOf(inputs))
    {
      hide Inv, Step, Regular, Legal;
      StartLauncher();
      for n := 0 to |inputs|
        invariant Valid() && State() == Run(env, EventsOf(inputs[..n]))
        invariant forall r :: r in List() ==> fresh(r) && (r.abilitySavedData != null ==> fresh(r.abilitySavedData))
      {
        NextLegal(env, inputs, n);
        Handle(inputs[n]);
      }
      assert inputs[..|inputs|] == inputs;
    }
  }

  lemma NeverEmpty(env: Env, s: Sched)
    requires env.Ok() && Inv(env, s)
    ensures s.list != []
  {
  }

  // The next input of a legal run can be handled.
  lemma NextLegal(env: Env, inputs: seq<Input>, n: nat)
    requires env.Ok() && n < |inputs| && Legal(env, EventsOf(inputs))
    ensures Run(env, EventsOf(inputs[..n + 1])) == Step(env, Run(env, EventsOf(inputs[..n])), EventOf(inputs[n]))
    ensures Regular(env, Run(env, EventsOf(inputs[..n + 1]))) && Inv(env, Run(env, EventsOf(inputs[..n])))
  {
    var all, next := EventsOf(inputs), EventsOf(inputs[..n + 1]);
    assert next[..n] == EventsOf(inputs[..n]) && next[n] == EventOf(inputs[n]);
    assert next + all[n + 1..] == all;
    LegalPrefix(env, next, all[n + 1..]);
    assert next == next[..n] + next[n..];
    LegalPrefix(env, next[..n], next[n..]);
    RunKeeps(env, next[..n]);
  }

  lemma MailIsOnly(env: Env, s: Sched)
    requires env.Ok() && Inv(env, s)
    ensures forall m :: 0 <= m < |s.mail| && s.mail[m].life == DESTROY && !s.mail[m].done && s.mail[m].carriesSaved ==>
              var i := Find(s, s.mail[m].token); i < |s.list| && s.list[i].saved == Some(NOTHING_SAVED)
  {
    if Leaving(env, s) {
      FindDistinct(Items(s.list), Current(s));
      assert Items(s.list)[Current(s)] == s.list[Current(s)].item;
    }
  }

  // What each kind of request relies on when it is carried out.
  lemma ExecutableMeans(env: Env, s: Sched, r: Request)
    requires Executable(env, s, r)
    ensures !s.scheduling && s.mail == [] && s.list != [] && s.list[0].thread && 0 < s.generated
    ensures DistinctItems(Items(s.list)) && |s.list| <= env.capacity
    ensures forall i :: 0 <= i < |s.list| ==> s.list[i].item.token < 0x1_0000
    ensures r.TerminateApp? && s.list[0].item.token == Narrow(r.value) ==> 2 <= |s.list|
    ensures r.Start? ==>
            Scheduler.StartAbility(env, s.(scheduling := true), r.bundle, r.data, r.mission).0.generated <= TOKEN_PERIOD
  {
    assert s.list[0].item == Items(s.list)[0];
    assert forall i :: 0 <= i < |s.list| ==> ItemOk(env, Raw(s), Items(s.list)[i]);
    var h :| 0 <= h < |s.list| && Items(s.list)[h].token == LAUNCHER_TOKEN;
  }

  lemma QueueNarrows(env: Env, s: Sched, v: nat)
    ensures Enqueue(env, s, Terminate(Narrow(v))) == Enqueue(env, s, Terminate(v))
    ensures Enqueue(env, s, TerminateApp(Narrow(v))) == Enqueue(env, s, TerminateApp(v))
  {
  }

  lemma AddFirst(capacity: nat, r: Rec)
    requires 2 <= capacity
    ensures Add(capacity, [], r) == [r] && TokenIndex(Items([r]), r.item.token) == 0
  {
  }

  lemma NothingToRun(env: Env, s: Sched)
    ensures s.queue == [] ==> Scheduler.RunOperation(env, s) == s.(scheduling := false)
    ensures s.queue != [] && s.scheduling ==> Scheduler.RunOperation(env, s) == s
  {
  }

  ghost predicate Runnable(env: Env, s: Sched) {
    env.Ok() && Ready(env, s) && Related(env, s) && Regular(env, Scheduler.RunOperation(env, s))
  }

  // A request is carried out from rest, and the queue after it if it starts no switch.
  lemma CarriedOut(env: Env, s0: Sched, r: Request, before: seq<Request>, final: Sched)
    requires env.Ok() && Ready(env, s0) && Abs(s0) == Fold(env, before)
    requires s0.log.executed == before + [r] && s0.log.executed + s0.queue == s0.log.received
    requires var (s1, ok) := Perform(env, s0, r);
             final == if !ok || !s1.scheduling then Scheduler.RunOperation(env, s1.(scheduling := false)) else s1
    requires Regular(env, final)
    ensures Executable(env, s0, r)
    ensures var (s1, ok) := Perform(env, s0, r);
            !ok || !s1.scheduling ==> Runnable(env, s1.(scheduling := false))
  {
    hide Perform, Fold, Switching, ItemOk, HomeSpared;
    assert s0.log.executed[..|before|] == before;
    RunOperationMonotone(env, Perform(env, s0, r).0.(scheduling := false));
    SparedNext(env, before, r, final.log.executed);
    PerformRelated(env, s0, r);
  }

  // Taking the first operation off the queue leaves a state from which it can be carried out.
  lemma OperationSteps(env: Env, s: Sched, s1: Sched)
    requires Runnable(env, s) && s.queue != []
    requires s1 == s.(queue := s.queue[1..], log := s.log.(executed := s.log.executed + [s.queue[0]]))
    ensures Executable(env, s1, s.queue[0])
    ensures var (s2, ok) := Perform(env, s1, s.queue[0]);
            !ok || !s2.scheduling ==> Runnable(env, s2.(scheduling := false))
  {
    hide Perform, Fold, ItemOk, HomeSpared;
    OperationBooks(s, s1);
    CarriedOut(env, s1, s.queue[0], s.log.executed, Scheduler.RunOperation(env, s));
  }

  // What the manager relies on when an acknowledgement comes in.
  ghost predicate Expected(env: Env, s: Sched, token: nat, life: Life) {
    var i := Find(s, token);
    && (life == DESTROY && i < |s.list| && s.list[i].terminated ==> 2 <= |s.list|)
    && (life == TO_FOREGROUND ==>
          var l := if i == |s.list| then s.list else s.list[i := s.list[i].(state := FOREGROUND)];
          Runnable(env, s.(list := l, scheduling := false)))
  }

  lemma AckExpected(env: Env, s: Sched, m: nat)
    requires env.Ok() && Inv(env, s) && m < |s.mail| && s.mail[m].done && Regular(env, HandleAck(env, s, m))
    ensures Drop(s.mail, m) == [] && Expected(env, s.(mail := []), s.mail[m].token, s.mail[m].life)
  {
    if s.mail[m].life == TO_FOREGROUND {
      ForegroundExpected(env, s);
    } else {
      var c := if Leaving(env, s) then Current(s) else 0;
      FindDistinct(Items(s.list), c);
      assert Items(s.list)[c] == s.list[c].item;
    }
  }

  lemma ForegroundExpected(env: Env, s: Sched)
    requires env.Ok() && Inv(env, s) && s.mail != [] && s.mail[0].done && s.mail[0].life == TO_FOREGROUND
    requires Regular(env, HandleAck(env, s, 0))
    ensures |s.mail| == 1 && Drop(s.mail, 0) == [] && Expected(env, s.(mail := []), s.mail[0].token, TO_FOREGROUND)
  {
    var s' := ForegroundDoneSteps(env, s);
    assert s.(mail := []).(list := s'.list, scheduling := false) == s';
  }

  lemma AcceptSteps(env: Env, s: Sched, r: Request, s0: Sched)
    requires env.Ok() && Inv(env, s) && !s.scheduling
    requires Regular(env, Scheduler.HandleRequest(env, s, r))
    requires s0 == s.(log := s.log.(received := s.log.received + [r], executed := s.log.executed + [r]))
    ensures Executable(env, s0, r)
    ensures var (s1, ok) := Perform(env, s0, r);
            !ok || !s1.scheduling ==> Runnable(env, s1.(scheduling := false))
  {
    hide Perform, Fold, ItemOk, HomeSpared;
    assert s0.log.executed + s0.queue == s0.log.received;
    CarriedOut(env, s0, r, s.log.executed, Scheduler.HandleRequest(env, s, r));
  }

  lemma OperationBooks(s: Sched, s1: Sched)
    requires s.queue != []
    requires s1 == s.(queue := s.queue[1..], log := s.log.(executed := s.log.executed + [s.queue[0]]))
    ensures s1.log.executed[..|s1.log.executed| - 1] == s.log.executed
    ensures s1.log.executed + s1.queue == s.log.executed + s.queue
  {
  }

  lemma SecondOf(l: seq<Rec>, l0: seq<Rec>)
    requires 2 <= |l| && 2 <= |l0| && DistinctItems(Items(l0))
    requires l[1] == l0[0] && l[0].item.token == l0[1].item.token
    ensures TokenIndex(Items(l), l[1].item.token) == 1
  {
    assert Items(l0)[0].token != Items(l0)[1].token;
    assert Items(l)[0].token != Items(l)[1].token && Items(l)[1].token == l[1].item.token;
  }

  lemma PromotedTop(capacity: nat, v: seq<Rec>, i: nat, r: Rec, retire: bool)
    requires 0 < i < |v| <= capacity && DistinctItems(Items(v)) && r.item.token == v[i].item.token
    ensures var top := v[0].(terminated := v[0].terminated || retire);
            var l := [r] + Drop(v[0 := top], i);
            && l == Add(capacity, Drop(v[0 := top], i), r)
            && l[1] == top && TokenIndex(Items(l), top.item.token) == 1
  {
    var top := v[0].(terminated := v[0].terminated || retire);
    var rest := Drop(v[0 := top], i);
    forall j | 0 <= j < |rest| ensures rest[j].item.token != r.item.token {
      assert rest[j].item == Items(v)[if j < i then j else j + 1] && Items(v)[i] == v[i].item;
    }
    AddFresh(capacity, rest, r);
    var l := [r] + rest;
    assert Items(l)[0] == r.item && Items(l)[1] == top.item;
  }

  // The records left once those with the given tokens have been terminated.
  function LeftAfter(l: seq<Rec>, tokens: set<nat>): seq<Rec> {
    if l == [] then []
    else (if l[0].item.token in tokens && !IsPermanent(l[0].item) then [] else [l[0]]) + LeftAfter(l[1..], tokens)
  }

  lemma {:induction false} LeftAfterNothing(l: seq<Rec>)
    ensures LeftAfter(l, {}) == l
  {
    if l != [] { LeftAfterNothing(l[1..]); }
  }

  lemma {:induction false} LeftAfterIsKeep(l: seq<Rec>, tokens: set<nat>, mission: nat)
    requires forall i :: 0 <= i < |l| ==> (l[i].item.token in tokens <==> l[i].item.mission == mission)
    ensures LeftAfter(l, tokens) == KeepRecs(ByMission(mission), l)
  {
    if l != [] { LeftAfterIsKeep(l[1..], tokens, mission); }
  }

  lemma {:induction false} LeftAfterSubset(l: seq<Rec>, tokens: set<nat>)
    ensures forall r :: r in LeftAfter(l, tokens) ==> r in l
  {
    if l != [] { LeftAfterSubset(l[1..], tokens); }
  }

  function LeftAfterFound(w: seq<Rec>, token: nat): seq<Rec> {
    var i := TokenIndex(Items(w), token);
    if i == |w| || IsPermanent(w[i].item) then w else Drop(w, i)
  }

  lemma LeftAfterFoundCons(x: Rec, w: seq<Rec>, token: nat)
    ensures if x.item.token == token then LeftAfterFound([x] + w, token) == if IsPermanent(x.item) then [x] + w else w
            else LeftAfterFound([x] + w, token) == [x] + LeftAfterFound(w, token)
  {
    hide Drop;
    var i := TokenIndex(Items(w), token);
    assert Items([x] + w)[1..] == Items(w) && Items([x] + w)[0] == x.item;
    if x.item.token == token {
      assert Drop([x] + w, 0) == w;
    } else if i < |w| {
      assert Drop([x] + w, i + 1) == [x] + Drop(w, i);
    }
  }

  // Terminating one more token.
  lemma {:induction false} LeftAfterMore(l: seq<Rec>, tokens: set<nat>, token: nat)
    requires forall i, j :: 0 <= i < j < |l| ==> l[i].item.token != l[j].item.token
    ensures LeftAfter(l, tokens + {token}) == LeftAfterFound(LeftAfter(l, tokens), token)
  {
    if l != [] {
      var x, rest := l[0], LeftAfter(l[1..], tokens);
      LeftAfterMore(l[1..], tokens, token);
      if x.item.token in tokens && !IsPermanent(x.item) {
        assert LeftAfter(l, tokens) == rest;
        assert LeftAfter(l, tokens + {token}) == LeftAfter(l[1..], tokens + {token});
      } else {
        assert LeftAfter(l, tokens) == [x] + rest;
        LeftAfterFoundCons(x, rest, token);
        if x.item.token == token { LeftAfterLacks(l[1..], tokens, token); }
      }
    }
  }

  lemma LeftAfterLacks(l: seq<Rec>, tokens: set<nat>, token: nat)
    requires forall i :: 0 <= i < |l| ==> l[i].item.token != token
    ensures LeftAfterFound(LeftAfter(l, tokens), token) == LeftAfter(l, tokens)
  {
    var rest := LeftAfter(l, tokens);
    LeftAfterSubset(l, tokens);
    forall j | 0 <= j < |rest| ensures Items(rest)[j].token != token {
      assert rest[j] in rest && rest[j] in l;
    }
  }

  lemma {:induction false} LeftAfterDistinct(l: seq<Rec>, tokens: set<nat>)
    requires DistinctItems(Items(l))
    ensures DistinctItems(Items(LeftAfter(l, tokens))) && |LeftAfter(l, tokens)| <= |l|
    ensures forall it :: it in Items(LeftAfter(l, tokens)) ==> it in Items(l)
  {
    if l != [] {
      assert Items(l)[1..] == Items(l[1..]);
      LeftAfterDistinct(l[1..], tokens);
      CurrentDistinct(l, LeftAfter(l[1..], tokens));
      assert Items([l[0]] + LeftAfter(l[1..], tokens)) == [l[0].item] + Items(LeftAfter(l[1..], tokens));
      assert Items(l) == [l[0].item] + Items(l[1..]);
    }
  }

  lemma TerminateOneMore(v: seq<Rec>, done: set<nat>, token: nat)
    requires v != [] && DistinctItems(Items(v))
    ensures var cur := [v[0]] + LeftAfter(v[1..], done);
            && DistinctItems(Items(cur)) && |cur| <= |v|
            && [v[0]] + LeftAfter(v[1..], done + {token})
               == if token == v[0].item.token then cur else LeftAfterFound(cur, token)
  {
    hide LeftAfter, LeftAfterFound;
    var rest := LeftAfter(v[1..], done);
    assert Items(v[1..]) == Items(v)[1..];
    LeftAfterDistinct(v[1..], done);
    CurrentDistinct(v, rest);
    forall i, j | 0 <= i < j < |v| - 1 ensures v[1..][i].item.token != v[1..][j].item.token {
      assert Items(v)[i + 1].token != Items(v)[j + 1].token;
    }
    LeftAfterMore(v[1..], done, token);
    LeftAfterFoundCons(v[0], rest, token);
    if token == v[0].item.token { HeadOnly(v[0], rest); }
  }

  // No other record of a list of distinct ones has the token of the first.
  lemma HeadOnly(r: Rec, rest: seq<Rec>)
    requires DistinctItems(Items([r] + rest))
    ensures LeftAfterFound(rest, r.item.token) == rest
  {
    forall j | 0 <= j < |rest| ensures Items(rest)[j].token != r.item.token {
      assert Items([r] + rest)[0].token != Items([r] + rest)[j + 1].token;
    }
  }

  lemma CurrentDistinct(v: seq<Rec>, rest: seq<Rec>)
    requires v != [] && DistinctItems(Items(v)) && DistinctItems(Items(rest))
    requires forall it :: it in Items(rest) ==> it in Items(v[1..])
    ensures DistinctItems(Items([v[0]] + rest))
  {
    forall j | 0 <= j < |rest|
      ensures rest[j].item.token != v[0].item.token && rest[j].item.name != v[0].item.name
    {
      assert Items(rest)[j] in Items(v[1..]);
      var k :| 0 <= k < |v| - 1 && Items(v[1..])[k] == Items(rest)[j];
      assert Items(v)[0] == v[0].item && Items(v)[k + 1] == rest[j].item;
    }
    var w := Items([v[0]] + rest);
    assert forall j :: 0 < j < |w| ==> w[j] == Items(rest)[j - 1];
  }

  // The records left when the tokens are those of a mission.
  lemma LeftAfterMission(v: seq<Rec>, tokens: set<nat>, mission: nat)
    requires v != [] && DistinctItems(Items(v))
    requires forall t :: t in tokens <==> t in MissionTokens(v, mission)
    ensures LeftAfter(v[1..], tokens) == KeepRecs(ByMission(mission), v[1..])
  {
    hide *;
    forall i | 0 <= i < |v| - 1 ensures v[1..][i].item.token in tokens <==> v[1..][i].item.mission == mission {
      MissionTokensExact(v, mission, i + 1);
    }
    LeftAfterIsKeep(v[1..], tokens, mission);
  }

  // With distinct tokens, the token of a record is listed exactly when the record is of the mission.
  lemma MissionTokensExact(v: seq<Rec>, mission: nat, i: nat)
    requires i < |v| && DistinctItems(Items(v))
    ensures v[i].item.token in MissionTokens(v, mission) <==> v[i].item.mission == mission
  {
    MissionTokensAre(v, mission, v[i].item.token);
    if v[i].item.token in MissionTokens(v, mission) {
      var k :| 0 <= k < |v| && v[k].item.mission == mission && v[k].item.token == v[i].item.token;
      assert Items(v)[k].token == Items(v)[i].token;
    }
  }
}
