/** The ability manager as a state machine: the list of records, the scheduling flag that works as a
    lock, the pending token, the queue of deferred requests and the lifecycle messages in flight. */
module Scheduler {
  import opened Options
  import opened Sequences
  import opened SliteTypes
  import opened MruList
  import opened SavedState

  datatype RecordState = INITED | FOREGROUND | BACKGROUND | STOP
  datatype Life = CREATE | TO_FOREGROUND | TO_BACKGROUND | DESTROY

  datatype Rec = Rec(item: Item, state: RecordState, thread: bool, terminated: bool, saved: Option<Saved>)

  // A lifecycle message on its way to an app thread, or (done) its acknowledgement on the way back.
  datatype Mail = Mail(token: nat, life: Life, done: bool, data: Bytes, carriesSaved: bool)

  // What HandleRestore handed to an ability on CREATE.
  datatype Delivery = Delivery(token: nat, saved: Option<Saved>)

  // History: requests as accepted, requests carried out, what each ability saved during its last
  // DESTROY, and what was handed back on each CREATE.
  datatype Log = Log(received: seq<Request>, executed: seq<Request>, stored: map<nat, Saved>, restored: seq<Delivery>)

  datatype Sched = Sched(list: seq<Rec>, scheduling: bool, pending: nat, queue: seq<Request>, mail: seq<Mail>,
                         generated: nat, nextMission: nat, log: Log)

  ghost predicate SameLog(s: Sched, s': Sched) {
    s'.queue == s.queue && s'.log == s.log && s.generated <= s'.generated
  }

  function Items(l: seq<Rec>): (r: seq<Item>)
    ensures |r| == |l|
    ensures forall i :: 0 <= i < |l| ==> r[i] == l[i].item
  {
    seq(|l|, i requires 0 <= i < |l| => l[i].item)
  }

  function KeepRecs(p: Purge, l: seq<Rec>): seq<Rec> {
    if l == [] then []
    else (if Spared(p, l[0].item) then [l[0]] else []) + KeepRecs(p, l[1..])
  }

  function Find(s: Sched, token: nat): (i: nat)
    ensures i <= |s.list|
    ensures i < |s.list| ==> s.list[i].item.token == token
    ensures forall j :: 0 <= j < i ==> s.list[j].item.token != token
  {
    TokenIndex(Items(s.list), token)
  }

  // PopBottomAbility, when the list is full.
  function Trim(capacity: nat, l: seq<Rec>): seq<Rec> {
    if 2 <= |l| && capacity <= |l| then Drop(l, EvictIndex(Items(l))) else l
  }

  // AbilityList::Add
  function Add(capacity: nat, l: seq<Rec>, r: Rec): seq<Rec> {
    var l' := Trim(capacity, l);
    if TokenIndex(Items(l'), r.item.token) < |l'| then l' else [r] + l'
  }

  // SendMsgToAbilityThread; fails when the record has no thread.
  function Send(s: Sched, r: Rec, life: Life): (res: (Sched, bool))
    ensures SameLog(s, res.0)
  {
    if !r.thread then (s, false)
    else
      var data := if life == CREATE || life == TO_FOREGROUND then r.item.data else [];
      var carries := (life == CREATE || life == DESTROY) && !r.terminated && r.saved.Some?;
      (s.(mail := s.mail + [Mail(r.item.token, life, false, data, carries)]), true)
  }

  // CreateAppTask, for the record at index i.
  function CreateTask(s: Sched, i: nat): (s': Sched)
    requires i < |s.list|
    ensures SameLog(s, s')
  {
    var r := s.list[i].(thread := true, state := STOP);
    Send(s.(list := s.list[i := r]), r, CREATE).0
  }

  // The ability on top, marked for deletion when it is registered as temporary.
  function Leaver(env: Env, s: Sched): Rec
    requires s.list != []
  {
    s.list[0].(terminated := s.list[0].terminated || env.temporary(|s.log.executed|, s.list[0].item.name))
  }

  function StartKnownRecord(env: Env, s: Sched, i: nat, data: Bytes, mission: nat): (res: (Sched, bool))
    requires 0 < i < |s.list|
    ensures SameLog(s, res.0)
  {
    var k := |s.log.executed|;
    var it := s.list[i].item;
    if !it.native && !env.check(k, it.name) then (s.(scheduling := false), false)
    else
      var it' := it.(data := data, mission := if mission == UINT32_MAX then it.mission else mission);
      var top := Leaver(env, s);
      var rest := Drop(s.list[0 := top], i);
      Send(s.(list := Add(env.capacity, rest, s.list[i].(item := it'))), top, TO_BACKGROUND)
  }

  function NewRecord(s: Sched, token: nat, name: string, data: Bytes, mission: nat, native: bool): Rec {
    var m := if mission == UINT32_MAX then NextMission(s.nextMission) else mission;
    Rec(Item(token, name, data, m, native), STOP, false, false, None)
  }

  function UseToken(s: Sched, mission: nat): (s': Sched)
    ensures SameLog(s, s')
  {
    s.(generated := s.generated + 1,
       nextMission := if mission == UINT32_MAX then NextMission(s.nextMission) + 1 else s.nextMission)
  }

  // The first start of all: home, with nothing to leave.
  function Boot(env: Env, s: Sched, name: string, data: Bytes, mission: nat, native: bool): (res: (Sched, bool))
    ensures SameLog(s, res.0)
  {
    if name != env.home then (s, false)
    else
      var s1 := UseToken(s.(list := [NewRecord(s, TokenOf(s.generated), name, data, mission, native)]), mission);
      (CreateTask(s1, 0), true)
  }

  function StartNewRecord(env: Env, s: Sched, name: string, data: Bytes, mission: nat): (res: (Sched, bool))
    ensures SameLog(s, res.0)
  {
    var k := |s.log.executed|;
    var info := env.query(k, name);
    if info.None? then (s.(scheduling := false), false)
    else if name == "" then (s.(scheduling := false), false)
    else if s.list == [] then Boot(env, s, name, data, mission, info.value)
    else if !info.value && !env.check(k, name) then (s, false)
    else
      var top := Leaver(env, s);
      var s1 := Send(s.(list := s.list[0 := top]), top, TO_BACKGROUND).0;
      var r := NewRecord(s1, TokenOf(s1.generated), name, data, mission, info.value);
      (UseToken(s1.(pending := TokenOf(s1.generated), list := Add(env.capacity, s1.list, r)), mission), true)
  }

  function StartAbility(env: Env, s: Sched, bundle: Option<string>, data: Bytes, mission: nat): (res: (Sched, bool))
    ensures SameLog(s, res.0)
  {
    if bundle.None? then (s.(scheduling := false), false)
    else
      var i := NameIndex(Items(s.list), bundle.value);
      if i < |s.list| then
        if i == 0 then (s.(scheduling := false), true) else StartKnownRecord(env, s, i, data, mission)
      else StartNewRecord(env, s, bundle.value, data, mission)
  }

  function WithData(r: Rec, data: Option<Bytes>): Rec {
    if data.Some? then r.(item := r.item.(data := data.value)) else r
  }

  function TerminateTop(env: Env, s: Sched, data: Option<Bytes>): (res: (Sched, bool))
    requires 2 <= |s.list|
    ensures SameLog(s, res.0)
  {
    var top := s.list[0];
    var next := WithData(s.list[1], data);
    var s1 := s.(pending := next.item.token);
    if !IsPermanent(top.item) then
      var top' := top.(terminated := true);
      Send(s1.(list := [top', next] + s.list[2..]), top', TO_BACKGROUND)
    else
      Send(s1.(list := [next, top] + s.list[2..]), top, TO_BACKGROUND)
  }

  // TerminateAbility(token, want), entered with the flag set.
  function TerminateAbility(env: Env, s: Sched, token: nat, data: Option<Bytes>): (res: (Sched, bool))
    ensures SameLog(s, res.0)
  {
    if s.list == [] then (s.(scheduling := false), false)
    else if |s.list| == 1 && IsPermanent(s.list[0].item) then (s.(scheduling := false), true)
    else if token != s.list[0].item.token then
      var i := Find(s, token);
      if i == |s.list| || IsPermanent(s.list[i].item) then (s.(scheduling := false), false)
      else (s.(list := Drop(s.list, i), scheduling := false), true)
    else if |s.list| == 1 then (s.(list := [], scheduling := false), false)
    else TerminateTop(env, s, data)
  }

  // OnDestroyDone
  function DestroyDone(s: Sched, token: nat): (s': Sched)
    ensures SameLog(s, s')
  {
    var i := Find(s, token);
    if i == |s.list| then s
    else
      var s1 := if s.list[i].terminated then s.(list := Drop(s.list, i))
                else s.(list := s.list[i := s.list[i].(state := STOP, thread := false)]);
      if s1.pending != 0 then
        var j := Find(s1, s1.pending);
        if j == |s1.list| then s1 else CreateTask(s1, j).(pending := 0)
      else if s1.list == [] then s1
      else CreateTask(s1, 0)
  }

  function ForceStopBundle(env: Env, s: Sched, token: nat): (res: (Sched, bool))
    requires s.list != []
    ensures SameLog(s, res.0)
  {
    if s.list[0].item.token != token then TerminateAbility(env, s, token, None)
    else (DestroyDone(s.(list := s.list[0 := s.list[0].(terminated := true)]), token), true)
  }

  function ForceStopByName(env: Env, s: Sched, bundle: Option<string>, data: Bytes): (res: (Sched, bool))
    ensures SameLog(s, res.0)
  {
    if bundle.None? then (s.(scheduling := false), false)
    else
      var i := NameIndex(Items(s.list), bundle.value);
      if i == |s.list| then (s.(scheduling := false), false)
      else TerminateAbility(env, s, s.list[i].item.token, Some(data))
  }

  function TerminateMissionAbilities(s: Sched, mission: nat): (res: (Sched, bool))
    ensures SameLog(s, res.0)
  {
    if s.list == [] then (s, false)
    else (s.(list := [s.list[0]] + KeepRecs(ByMission(mission), s.list[1..])), true)
  }

  function TerminateAllAbilities(s: Sched, excluded: Option<string>): (res: (Sched, bool))
    ensures SameLog(s, res.0)
  {
    if s.list == [] then (s.(scheduling := false), false)
    else (s.(list := [s.list[0]] + KeepRecs(AllBut(excluded), s.list[1..]), scheduling := false), true)
  }

  // Carries out one request while nothing is being scheduled; the flag says whether it returned ERR_OK.
  function Perform(env: Env, s: Sched, r: Request): (res: (Sched, bool))
    requires !s.scheduling && (r.TerminateApp? ==> s.list != [])
    ensures SameLog(s, res.0)
  {
    var s1 := s.(scheduling := true);
    match r
    case Start(bundle, data, mission) => StartAbility(env, s1, bundle, data, mission)
    case Terminate(v) => TerminateAbility(env, s1, Narrow(v), None)
    case TerminateMission(mission) => TerminateMissionAbilities(s, mission)
    case TerminateApp(v) => ForceStopBundle(env, s1, Narrow(v))
    case ForceStop(bundle, data) => ForceStopByName(env, s1, bundle, data)
    case TerminateAll(excluded) => TerminateAllAbilities(s1, excluded)
  }

  // RunOperation: an operation started with the flag clear never enqueues, so the queue shrinks.
  function RunOperation(env: Env, s: Sched): Sched
    decreases |s.queue|
  {
    if s.queue == [] then s.(scheduling := false)
    else if s.scheduling then s
    else
      var r := s.queue[0];
      var s1 := s.(queue := s.queue[1..], log := s.log.(executed := s.log.executed + [r]));
      if r.TerminateApp? && s.list == [] then s1
      else
        var (s2, ok) := Perform(env, s1, r);
        if !ok || !s2.scheduling then RunOperation(env, s2.(scheduling := false)) else s2
  }

  // Tokens are narrowed on the way in, and CopyWant leaves the mission of the copy uninitialised.
  function CopyForQueue(env: Env, k: nat, r: Request): Request {
    match r
    case Start(_, _, _) => r.(mission := env.stale(k))
    case Terminate(v) => Terminate(Narrow(v))
    case TerminateApp(v) => TerminateApp(Narrow(v))
    case _ => r
  }

  // AddAbilityOperation
  function Enqueue(env: Env, s: Sched, r: Request): Sched {
    var r' := CopyForQueue(env, |s.log.received|, r);
    s.(queue := s.queue + [r'], log := s.log.(received := s.log.received + [r']))
  }

  // ServiceMessageHandle for a client request.
  function HandleRequest(env: Env, s: Sched, r: Request): Sched
    requires s.list != []
  {
    if s.scheduling then Enqueue(env, s, r)
    else
      var s0 := s.(log := s.log.(received := s.log.received + [r], executed := s.log.executed + [r]));
      var (s1, ok) := Perform(env, s0, r);
      if !ok || !s1.scheduling then RunOperation(env, s1.(scheduling := false)) else s1
  }

  // SchedulerLifecycleDone
  function LifecycleDone(env: Env, s: Sched, token: nat, life: Life): Sched {
    var i := Find(s, token);
    match life
    case CREATE =>
      if i == |s.list| then s
      else
        var r := s.list[i].(state := INITED);
        Send(s.(list := s.list[i := r]), r, TO_FOREGROUND).0
    case TO_FOREGROUND =>
      var s1 := if i == |s.list| then s else s.(list := s.list[i := s.list[i].(state := FOREGROUND)]);
      RunOperation(env, s1.(scheduling := false))
    case TO_BACKGROUND =>
      if i == |s.list| then s
      else
        var r := s.list[i];
        var saved := if r.terminated && r.saved.None? then None else Some(NOTHING_SAVED);
        var r' := r.(state := BACKGROUND, saved := saved);
        Send(s.(list := s.list[i := r']), r', DESTROY).0
    case DESTROY => DestroyDone(s, token)
  }

  // ABILITY_TRANSACTION_DONE for the m-th message in flight.
  function HandleAck(env: Env, s: Sched, m: nat): Sched
    requires m < |s.mail| && s.mail[m].done
  {
    LifecycleDone(env, s.(mail := Drop(s.mail, m)), s.mail[m].token, s.mail[m].life)
  }

  // The app thread takes its message: HandleCreate then HandleRestore on CREATE, HandleSave (which
  // leaves `saves` in the saved data it is given) then HandleDestroy on DESTROY.
  function AppStep(s: Sched, m: nat, saves: Saved): Sched
    requires m < |s.mail| && !s.mail[m].done
  {
    var msg := s.mail[m];
    var i := Find(s, msg.token);
    var s1 := s.(mail := s.mail[m := msg.(done := true)]);
    if msg.life == CREATE then
      var saved := if msg.carriesSaved && i < |s.list| then s.list[i].saved else None;
      s1.(log := s.log.(restored := s.log.restored + [Delivery(msg.token, saved)]))
    else if msg.life == DESTROY && msg.carriesSaved && i < |s.list| then
      s1.(list := s.list[i := s.list[i].(saved := Some(saves))],
          log := s.log.(stored := s.log.stored[msg.token := saves]))
    else s1
  }

  const NOTHING := Sched([], false, 0, [], [], 0, 0, Log([], [], map[], []))

  // OnFeatureInitialize: StartLauncher.
  function Booted(env: Env): Sched {
    Perform(env, NOTHING, Start(Some(env.home), [], env.bootMission)).0
  }

  datatype Event = Client(r: Request) | App(m: nat, saves: Saved) | Ack(m: nat)

  // An event that does not apply (no such message in flight) leaves the service as it is.
  function Step(env: Env, s: Sched, e: Event): Sched {
    match e
    case Client(r) => if s.list == [] then s else HandleRequest(env, s, r)
    case App(m, saves) => if m < |s.mail| && !s.mail[m].done then AppStep(s, m, saves) else s
    case Ack(m) => if m < |s.mail| && s.mail[m].done then HandleAck(env, s, m) else s
  }

  function Run(env: Env, events: seq<Event>): Sched {
    if events == [] then Booted(env) else Step(env, Run(env, events[..|events| - 1]), events[|events| - 1])
  }
}
