/** What every run of the scheduler keeps. */
module SchedulerProofs {
  import opened Options
  import opened Sequences
  import opened SliteTypes
  import opened MruList
  import opened SavedState
  import opened Scheduler

  // The raw list, with the record that is about to be deleted still on it.
  function Raw(s: Sched): Mru { Mru(Items(s.list), s.generated, s.nextMission) }

  function Settled(l: seq<Rec>): seq<Item> {
    if 0 < |l| && l[0].terminated then Items(l)[1..]
    else if 1 < |l| && l[1].terminated then Drop(Items(l), 1)
    else Items(l)
  }

  // The list a client may rely on.
  function Abs(s: Sched): Mru { Mru(Settled(s.list), s.generated, s.nextMission) }

  ghost predicate Dormant(r: Rec) { r.state == STOP && !r.thread && !r.terminated }

  // The record holds what its app saved during its last DESTROY, and nothing if there was none.
  ghost predicate Remembers(s: Sched, r: Rec) {
    r.saved == if r.item.token in s.log.stored then Some(s.log.stored[r.item.token]) else None
  }

  ghost predicate Resting(s: Sched, r: Rec) { Dormant(r) && Remembers(s, r) }

  ghost predicate Base(env: Env, s: Sched) {
    && WellFormed(env, Raw(s))
    && (forall t :: t in s.log.stored ==> t < s.generated)
  }

  // Nothing is being scheduled: the front is in the foreground and everything else sleeps.
  ghost predicate Ready(env: Env, s: Sched) {
    && Base(env, s)
    && !s.scheduling && s.mail == [] && s.pending == 0
    && s.list[0].state == FOREGROUND && s.list[0].thread && !s.list[0].terminated && Remembers(s, s.list[0])
    && (forall i :: 0 < i < |s.list| ==> Resting(s, s.list[i]))
  }

  // Position of the ability being left.
  function Current(s: Sched): nat { if s.list != [] && s.list[0].thread then 0 else 1 }

  // What an ability is started with is not sent to it when it leaves.
  ghost predicate LeavingMail(s: Sched, r: Rec, m: Mail) {
    && m.token == r.item.token && m.data == []
    && match m.life
       case TO_BACKGROUND => r.state == FOREGROUND && Remembers(s, r)
       case DESTROY =>
         && r.state == BACKGROUND && m.carriesSaved == !r.terminated
         && (!r.terminated ==> if m.done then r.saved.Some? && Remembers(s, r) else r.saved == Some(NOTHING_SAVED))
       case _ => false
  }

  // The old foreground ability is on its way out and exactly one message is in flight.
  ghost predicate Leaving(env: Env, s: Sched) {
    && Base(env, s)
    && s.scheduling && 2 <= |s.list| && |s.mail| == 1
    && var c := Current(s);
    && s.list[c].thread && LeavingMail(s, s.list[c], s.mail[0])
    && (s.list[c].terminated ==> s.list[c].item.token != LAUNCHER_TOKEN)
    && (if c == 0 then s.list[0].terminated && s.pending == s.list[1].item.token
        else s.pending == 0 || s.pending == s.list[0].item.token)
    && (forall i :: 0 <= i < |s.list| && i != c ==> Resting(s, s.list[i]))
  }

  ghost predicate EnteringMail(r: Rec, m: Mail) {
    && m.token == r.item.token && m.data == r.item.data
    && match m.life
       case CREATE => r.state == STOP && m.carriesSaved == r.saved.Some?
       case TO_FOREGROUND => r.state == INITED
       case _ => false
  }

  // The front is being created or brought forward; no other record has a thread.
  ghost predicate Entering(env: Env, s: Sched) {
    && Base(env, s)
    && s.scheduling && s.pending == 0 && |s.mail| == 1
    && s.list[0].thread && !s.list[0].terminated && EnteringMail(s.list[0], s.mail[0]) && Remembers(s, s.list[0])
    && (forall i :: 0 < i < |s.list| ==> Resting(s, s.list[i]))
  }

  ghost predicate Switching(env: Env, s: Sched) { Leaving(env, s) || Entering(env, s) }

  // ---------- requests ----------

  ghost predicate Settles(env: Env, s: Sched, s': Sched, ok: bool) {
    if !ok || !s'.scheduling then Ready(env, s'.(scheduling := false)) else Switching(env, s')
  }

  lemma ItemsOf(l: seq<Rec>, r: Rec, i: nat)
    requires i < |l|
    ensures Items([r] + l) == [r.item] + Items(l)
    ensures Items(Drop(l, i)) == Drop(Items(l), i)
    ensures Items(l[i := r]) == Items(l)[i := r.item]
  {
  }

  lemma AddFresh(capacity: nat, l: seq<Rec>, r: Rec)
    requires |l| < capacity && forall j :: 0 <= j < |l| ==> l[j].item.token != r.item.token
    ensures Add(capacity, l, r) == [r] + l
  {
  }

  // Every way out of the foreground sends TO_BACKGROUND to the old front, which is now at c.
  lemma LeavingIntro(env: Env, s: Sched, s': Sched, c: nat)
    requires Ready(env, s) && Base(env, s') && s'.log == s.log && s'.scheduling
    requires c < 2 <= |s'.list|
    requires s'.list[c] == s.list[0].(terminated := s'.list[c].terminated)
    requires s'.list[c].terminated ==> s.list[0].item.token != LAUNCHER_TOKEN
    requires Send(s, s'.list[c], TO_BACKGROUND).0.mail == s'.mail
    requires if c == 0 then s'.list[0].terminated && s'.pending == s'.list[1].item.token
             else s'.pending == 0 || s'.pending == s'.list[0].item.token
    requires forall i :: 0 <= i < |s'.list| && i != c ==> Resting(s, s'.list[i])
    ensures Leaving(env, s')
  {
    assert forall i :: 0 <= i < |s'.list| && i != c ==> Resting(s', s'.list[i]);
    assert Current(s') == c;
  }

  lemma MovedRest(env: Env, s: Sched, i: nat, top: Rec, r: Rec)
    requires Ready(env, s) && 0 < i < |s.list| && Resting(s, r)
    ensures var l := [r] + Drop(s.list[0 := top], i);
            l[1] == top && forall j :: 0 <= j < |l| && j != 1 ==> Resting(s, l[j])
  {
    var l := [r] + Drop(s.list[0 := top], i);
    forall j | 1 < j < |l| ensures Resting(s, l[j]) {
      assert l[j] == s.list[if j <= i then j - 1 else j];
    }
  }

  lemma AddMoved(env: Env, s: Sched, i: nat, r: Rec)
    requires Ready(env, s) && 0 < i < |s.list| && r.item.token == s.list[i].item.token
    ensures var rest := Drop(s.list[0 := Leaver(env, s)], i); Add(env.capacity, rest, r) == [r] + rest
  {
    var rest := Drop(s.list[0 := Leaver(env, s)], i);
    forall j | 0 <= j < |rest| ensures rest[j].item.token != r.item.token {
      assert rest[j].item == Items(s.list)[if j < i then j else j + 1];
      assert r.item.token == Items(s.list)[i].token;
    }
    AddFresh(env.capacity, rest, r);
  }

  lemma StartKnownShape(env: Env, s: Sched, i: nat, data: Bytes, mission: nat) returns (r: Rec, s': Sched)
    requires env.Ok() && Ready(env, s) && 0 < i < |s.list|
    requires s.list[i].item.native || env.check(|s.log.executed|, s.list[i].item.name)
    ensures r == s.list[i].(item := s.list[i].item.(data := data,
                              mission := if mission == UINT32_MAX then s.list[i].item.mission else mission))
    ensures (s', true) == StartKnownRecord(env, s.(scheduling := true), i, data, mission)
    ensures s'.list == [r] + Drop(s.list[0 := Leaver(env, s)], i)
    ensures s' == Send(s, Leaver(env, s), TO_BACKGROUND).0.(scheduling := true, list := s'.list)
  {
    r := s.list[i].(item := s.list[i].item.(data := data,
                      mission := if mission == UINT32_MAX then s.list[i].item.mission else mission));
    s' := StartKnownRecord(env, s.(scheduling := true), i, data, mission).0;
    AddMoved(env, s, i, r);
  }

  lemma StartKnownSteps(env: Env, s: Sched, i: nat, data: Bytes, mission: nat)
    requires env.Ok() && Ready(env, s) && 0 < i < |s.list|
    ensures var (s', ok) := StartKnownRecord(env, s.(scheduling := true), i, data, mission);
            Settles(env, s, s', ok)
            && Abs(s') == StartKnown(env, |s.log.executed|, Abs(s), i, data, mission)
  {
    if s.list[i].item.native || env.check(|s.log.executed|, s.list[i].item.name) {
      var r, s' := StartKnownShape(env, s, i, data, mission);
      StartKnownItems(env, s, i, r, s'.list);
      MoveKeeps(env, Raw(s), i, r.item);
      MovedRest(env, s, i, Leaver(env, s), r);
      LeavingIntro(env, s, s', 1);
    }
  }

  lemma StartKnownItems(env: Env, s: Sched, i: nat, r: Rec, l: seq<Rec>)
    requires Ready(env, s) && 0 < i < |s.list| && Dormant(r)
    requires l == [r] + Drop(s.list[0 := Leaver(env, s)], i)
    ensures Items(l) == [r.item] + Drop(Items(s.list), i)
    ensures Settled(l) == [r.item] + Retire(env, |s.log.executed|, Drop(Items(s.list), i))
  {
    assert Items(s.list[0 := Leaver(env, s)]) == Items(s.list);
    assert l[1] == Leaver(env, s);
    assert Drop(Items(l), 1) == [r.item] + Drop(Items(s.list), i)[1..];
  }

  // The list after room has been made, with the departing ability still in front.
  function Kept(env: Env, s: Sched): seq<Rec>
    requires s.list != []
  {
    Trim(env.capacity, s.list[0 := Leaver(env, s)])
  }

  lemma KeptList(env: Env, s: Sched)
    requires env.Ok() && Ready(env, s)
    ensures var l := Kept(env, s);
            && 0 < |l| < env.capacity && l[0] == Leaver(env, s)
            && Items(l) == MakeRoom(env, Items(s.list))
            && WellFormed(env, Raw(s).(items := Items(l)))
            && (forall j :: 0 < j < |l| ==> Resting(s, l[j]))
            && (forall j :: 0 <= j < |l| ==> l[j].item in Items(s.list))
  {
    hide ItemOk, HasHome, DistinctItems;
    var l0 := s.list[0 := Leaver(env, s)];
    assert Items(l0) == Items(s.list);
    if env.capacity <= |l0| {
      EvictionIsSafe(env, Raw(s));
      var e := EvictIndex(Items(l0));
      ItemsOf(l0, l0[0], e);
      forall j | 0 <= j < |l0| - 1 ensures Drop(l0, e)[j] == l0[if j < e then j else j + 1] {}
    }
  }

  predicate Granted(env: Env, k: nat, name: string) {
    && env.query(k, name).Some? && name != ""
    && (env.query(k, name).value || env.check(k, name))
  }

  lemma AddKept(env: Env, s: Sched, r: Rec)
    requires env.Ok() && Ready(env, s) && r.item.token == s.generated
    ensures Add(env.capacity, s.list[0 := Leaver(env, s)], r) == [r] + Kept(env, s)
  {
    KeptList(env, s);
    forall j | 0 <= j < |Kept(env, s)| ensures Items(Kept(env, s))[j].token != s.generated {
      var i :| 0 <= i < |s.list| && Items(s.list)[i] == Kept(env, s)[j].item;
      assert ItemOk(env, Raw(s), Items(s.list)[i]);
    }
  }

  // Sending neither looks at the flag and the list nor changes them.
  lemma SendAside(s: Sched, flag: bool, l: seq<Rec>, r: Rec, life: Life)
    ensures Send(s.(scheduling := flag, list := l), r, life).0 == Send(s, r, life).0.(scheduling := flag, list := l)
  {
  }

  lemma StartNewIs(env: Env, s: Sched, r: Rec, name: string, data: Bytes, mission: nat)
    requires s.list != [] && s.generated < TOKEN_PERIOD && Granted(env, |s.log.executed|, name)
    requires r == NewRecord(s, s.generated, name, data, mission, env.query(|s.log.executed|, name).value)
    ensures var s' := UseToken(Send(s, Leaver(env, s), TO_BACKGROUND).0, mission);
            var l := Add(env.capacity, s.list[0 := Leaver(env, s)], r);
            StartNewRecord(env, s.(scheduling := true), name, data, mission)
            == (s'.(scheduling := true, pending := s.generated, list := l), true)
  {
    hide Add;
    var s0, top := s.(scheduling := true), Leaver(env, s);
    var l := s.list[0 := top];
    var s1 := Send(s0.(list := l), top, TO_BACKGROUND).0;
    SendAside(s, true, l, top, TO_BACKGROUND);
    assert s0.(list := l) == s.(scheduling := true, list := l);
    assert s1 == Send(s, top, TO_BACKGROUND).0.(scheduling := true, list := l);
    assert NewRecord(s1, TokenOf(s1.generated), name, data, mission, env.query(|s.log.executed|, name).value) == r;
  }

  lemma StartNewShape(env: Env, s: Sched, name: string, data: Bytes, mission: nat) returns (r: Rec, s': Sched)
    requires env.Ok() && Ready(env, s) && s.generated < TOKEN_PERIOD && Granted(env, |s.log.executed|, name)
    ensures r == NewRecord(s, s.generated, name, data, mission, env.query(|s.log.executed|, name).value)
    ensures (s', true) == StartNewRecord(env, s.(scheduling := true), name, data, mission)
    ensures s'.list == [r] + Kept(env, s)
    ensures s'.generated == s.generated + 1 && s'.nextMission == UseToken(s, mission).nextMission
    ensures s'.log == s.log && s'.scheduling && s'.pending == s.generated
    ensures s'.mail == Send(s, Leaver(env, s), TO_BACKGROUND).0.mail
    ensures Dormant(r) && r.saved.None? && r.item.token == s.generated && r.item.name == name
  {
    r := NewRecord(s, s.generated, name, data, mission, env.query(|s.log.executed|, name).value);
    s' := StartNewRecord(env, s.(scheduling := true), name, data, mission).0;
    StartNewIs(env, s, r, name, data, mission);
    AddKept(env, s, r);
  }

  lemma NewItemOk(env: Env, s: Sched, it: Item, k: nat, name: string)
    requires env.Ok() && Ready(env, s) && s.generated < TOKEN_PERIOD
    requires NameIndex(Items(s.list), name) == |s.list| && Granted(env, k, name)
    requires it.token == s.generated && it.name == name
    ensures ItemOk(env, Raw(s).(generated := s.generated + 1), it)
    ensures forall j :: 0 <= j < |s.list| ==> s.list[j].item.token != it.token && s.list[j].item.name != it.name
  {
    var h :| 0 <= h < |s.list| && Items(s.list)[h].token == LAUNCHER_TOKEN;
    assert ItemOk(env, Raw(s), Items(s.list)[h]);
    assert Items(s.list)[h].name == env.home;
    forall j | 0 <= j < |s.list| ensures s.list[j].item.token != it.token && s.list[j].item.name != it.name {
      assert ItemOk(env, Raw(s), Items(s.list)[j]);
      assert Items(s.list)[j].name != name;
    }
  }

  lemma StartNewSteps(env: Env, s: Sched, name: string, data: Bytes, mission: nat)
    requires env.Ok() && Ready(env, s) && NameIndex(Items(s.list), name) == |s.list|
    requires StartNewRecord(env, s.(scheduling := true), name, data, mission).0.generated <= TOKEN_PERIOD
    ensures var (s', ok) := StartNewRecord(env, s.(scheduling := true), name, data, mission);
            Settles(env, s, s', ok)
            && Abs(s') == StartNew(env, |s.log.executed|, Abs(s), name, data, mission)
  {
    if Granted(env, |s.log.executed|, name) {
      StartNewGranted(env, s, name, data, mission);
    } else {
      StartNewRefused(env, s, name, data, mission);
    }
  }

  lemma StartNewRefused(env: Env, s: Sched, name: string, data: Bytes, mission: nat)
    requires Ready(env, s) && !Granted(env, |s.log.executed|, name)
    ensures var (s', ok) := StartNewRecord(env, s.(scheduling := true), name, data, mission);
            && !ok && s'.(scheduling := false) == s
            && Abs(s') == StartNew(env, |s.log.executed|, Abs(s), name, data, mission)
  {
  }

  lemma StartNewGranted(env: Env, s: Sched, name: string, data: Bytes, mission: nat)
    requires env.Ok() && Ready(env, s) && NameIndex(Items(s.list), name) == |s.list|
             && Granted(env, |s.log.executed|, name)
    requires StartNewRecord(env, s.(scheduling := true), name, data, mission).0.generated <= TOKEN_PERIOD
    ensures var (s', ok) := StartNewRecord(env, s.(scheduling := true), name, data, mission);
            ok && Leaving(env, s') && Abs(s') == StartNew(env, |s.log.executed|, Abs(s), name, data, mission)
  {
    hide *;
    StartNewUsesToken(env, s, name, data, mission);
    var r, s' := StartNewShape(env, s, name, data, mission);
    StartNewLeaves(env, s, s', r);
    StartNewRefines(env, s, s', r, name, data, mission);
  }

  lemma StartNewUsesToken(env: Env, s: Sched, name: string, data: Bytes, mission: nat)
    requires Ready(env, s) && Granted(env, |s.log.executed|, name)
    ensures StartNewRecord(env, s.(scheduling := true), name, data, mission).0.generated == s.generated + 1
    ensures Abs(s).items != []
  {
  }

  lemma StartNewRefines(env: Env, s: Sched, s': Sched, r: Rec, name: string, data: Bytes, mission: nat)
    requires env.Ok() && Ready(env, s) && s.generated < TOKEN_PERIOD && Granted(env, |s.log.executed|, name)
    requires r == NewRecord(s, s.generated, name, data, mission, env.query(|s.log.executed|, name).value)
    requires s'.list == [r] + Kept(env, s) && s'.generated == s.generated + 1
    requires s'.nextMission == UseToken(s, mission).nextMission
    ensures Abs(s).items != [] && Abs(s') == StartNew(env, |s.log.executed|, Abs(s), name, data, mission)
  {
    KeptList(env, s);
    StartNewItems(env, s, r, Kept(env, s));
    hide Kept, ItemOk, DistinctItems, StartNewRecord, Trim;
    assert Settled(s.list) == Items(s.list);
  }

  lemma StartNewLeaves(env: Env, s: Sched, s': Sched, r: Rec)
    requires env.Ok() && Ready(env, s) && s.generated < TOKEN_PERIOD
    requires Granted(env, |s.log.executed|, r.item.name) && NameIndex(Items(s.list), r.item.name) == |s.list|
    requires r.item.token == s.generated && Dormant(r) && r.saved.None?
    requires s'.list == [r] + Kept(env, s) && s'.generated == s.generated + 1 && s'.log == s.log
    requires s'.mail == Send(s, Leaver(env, s), TO_BACKGROUND).0.mail
    requires s'.scheduling && s'.pending == s.generated
    ensures Leaving(env, s')
  {
    hide Kept;
    KeptList(env, s);
    NewItemOk(env, s, r.item, |s.log.executed|, r.item.name);
    StartNewBase(env, s, s', r, Kept(env, s));
    LeavingIntro(env, s, s', 1);
  }

  lemma StartNewBase(env: Env, s: Sched, s': Sched, r: Rec, l: seq<Rec>)
    requires env.Ok() && Ready(env, s) && s.generated < TOKEN_PERIOD
    requires s'.list == [r] + l && s'.generated == s.generated + 1 && s'.log == s.log
    requires WellFormed(env, Raw(s).(items := Items(l))) && |l| < env.capacity
    requires ItemOk(env, Raw(s).(generated := s'.generated), r.item)
    requires forall j :: 0 <= j < |l| ==> l[j].item.token != r.item.token && l[j].item.name != r.item.name
    ensures Base(env, s')
  {
    ItemsOf(l, r, 0);
    PushKeeps(env, Raw(s).(items := Items(l)), Raw(s'), r.item);
  }

  lemma StartNewItems(env: Env, s: Sched, r: Rec, l: seq<Rec>)
    requires Ready(env, s) && Dormant(r)
    requires l != [] && l[0] == Leaver(env, s) && Items(l) == MakeRoom(env, Items(s.list))
    ensures Settled([r] + l) == [r.item] + Retire(env, |s.log.executed|, MakeRoom(env, Items(s.list)))
  {
    ItemsOf(l, r, 0);
    assert Drop(Items([r] + l), 1) == [r.item] + Items(l)[1..];
  }

  lemma TerminateHomeSteps(env: Env, s: Sched, data: Option<Bytes>, s': Sched)
    requires env.Ok() && Ready(env, s) && 2 <= |s.list| && IsPermanent(s.list[0].item)
    requires (s', true) == TerminateTop(env, s.(scheduling := true), data)
    ensures Leaving(env, s')
    ensures Settled(s'.list) == [WithData(s.list[1], data).item, s.list[0].item] + Items(s.list)[2..]
  {
    var next, items := WithData(s.list[1], data), Items(s.list);
    assert s'.list == [next, s.list[0]] + s.list[2..];
    MoveKeeps(env, Raw(s), 1, next.item);
    assert Items(s'.list) == [next.item] + Drop(items, 1) == [next.item, items[0]] + items[2..];
    LeavingIntro(env, s, s', 1);
  }

  lemma TerminateOtherSteps(env: Env, s: Sched, data: Option<Bytes>, s': Sched)
    requires env.Ok() && Ready(env, s) && 2 <= |s.list| && !IsPermanent(s.list[0].item)
    requires (s', true) == TerminateTop(env, s.(scheduling := true), data)
    ensures Leaving(env, s')
    ensures Settled(s'.list) == [WithData(s.list[1], data).item] + Items(s.list)[2..]
  {
    hide DistinctItems, ItemOk, HasHome;
    var next, items := WithData(s.list[1], data), Items(s.list);
    assert s'.list == [s.list[0].(terminated := true), next] + s.list[2..];
    UpdateKeeps(env, Raw(s), 1, next.item);
    assert Items(s'.list) == items[1 := next.item];
    LeavingIntro(env, s, s', 0);
    assert Items(s'.list)[1..] == [next.item] + items[2..];
  }

  lemma TerminateTopSteps(env: Env, s: Sched, data: Option<Bytes>)
    requires env.Ok() && Ready(env, s) && 2 <= |s.list|
    ensures var (s', ok) := TerminateTop(env, s.(scheduling := true), data);
            ok && Leaving(env, s') && Abs(s') == TerminateToken(Abs(s), s.list[0].item.token, data)
  {
    var (s', ok) := TerminateTop(env, s.(scheduling := true), data);
    FindDistinct(Items(s.list), 0);
    if IsPermanent(s.list[0].item) {
      TerminateHomeSteps(env, s, data, s');
    } else {
      TerminateOtherSteps(env, s, data, s');
    }
  }

  lemma DropReady(env: Env, s: Sched, i: nat)
    requires Ready(env, s) && 0 < i < |s.list| && s.list[i].item.token != LAUNCHER_TOKEN
    ensures Ready(env, s.(list := Drop(s.list, i)))
    ensures Items(Drop(s.list, i)) == Drop(Items(s.list), i)
  {
    var l := Drop(s.list, i);
    ItemsOf(s.list, s.list[0], i);
    DropKeeps(env, Raw(s), i);
    forall j | 0 < j < |l| ensures Resting(s.(list := l), l[j]) {
      assert l[j] == s.list[if j < i then j else j + 1];
    }
  }

  lemma TerminateSteps(env: Env, s: Sched, token: nat, data: Option<Bytes>)
    requires env.Ok() && Ready(env, s)
    ensures var (s', ok) := TerminateAbility(env, s.(scheduling := true), token, data);
            Settles(env, s, s', ok) && Abs(s') == TerminateToken(Abs(s), token, data)
  {
    hide Leaving, Entering, TerminateTop, TokenIndex;
    var i := Find(s, token);
    assert ItemOk(env, Raw(s), Items(s.list)[0]);
    if |s.list| == 1 {
      var h :| 0 <= h < |s.list| && Items(s.list)[h].token == LAUNCHER_TOKEN;
    } else if token == s.list[0].item.token {
      TerminateTopSteps(env, s, data);
    } else if i < |s.list| && !IsPermanent(s.list[i].item) {
      assert ItemOk(env, Raw(s), Items(s.list)[i]);
      DropReady(env, s, i);
      assert s.(list := Drop(s.list, i)) == s.(scheduling := true).(list := Drop(s.list, i), scheduling := false);
    }
  }

  lemma {:induction false} KeepMatches(p: Purge, l: seq<Rec>)
    ensures Items(KeepRecs(p, l)) == KeepItems(p, Items(l))
  {
    if l != [] {
      KeepMatches(p, l[1..]);
      assert Items(l)[1..] == Items(l[1..]);
      assert Items(KeepRecs(p, l)) == (if Spared(p, l[0].item) then [l[0].item] else []) + Items(KeepRecs(p, l[1..]));
    }
  }

  lemma PurgeOne(env: Env, s: Sched, a: seq<Rec>, b: seq<Rec>)
    requires Ready(env, s) && s.list == a + b && a != [] && b != [] && !IsPermanent(b[0].item)
    ensures Ready(env, s.(list := a + b[1..]))
  {
    assert s.list[|a|] == b[0];
    DropReady(env, s, |a|);
    DropMiddle(a, b);
  }

  // a has been looked at, b has not.
  lemma {:induction false} PurgeReady(env: Env, s: Sched, p: Purge, a: seq<Rec>, b: seq<Rec>)
    requires Ready(env, s) && s.list == a + b && a != []
    ensures Ready(env, s.(list := a + KeepRecs(p, b)))
    decreases |b|
  {
    hide Ready;
    if b == [] {
      assert a + KeepRecs(p, b) == s.list;
    } else if Spared(p, b[0].item) {
      assert s.list == (a + [b[0]]) + b[1..];
      PurgeReady(env, s, p, a + [b[0]], b[1..]);
      assert a + KeepRecs(p, b) == (a + [b[0]]) + KeepRecs(p, b[1..]);
    } else {
      PurgeOne(env, s, a, b);
      PurgeReady(env, s.(list := a + b[1..]), p, a, b[1..]);
      assert KeepRecs(p, b) == KeepRecs(p, b[1..]);
    }
  }

  lemma PurgeSteps(env: Env, s: Sched, p: Purge)
    requires Ready(env, s)
    ensures var l := [s.list[0]] + KeepRecs(p, s.list[1..]);
            Ready(env, s.(list := l)) && Items(l) == [Items(s.list)[0]] + KeepItems(p, Items(s.list)[1..])
  {
    hide KeepItems, KeepRecs;
    var l := [s.list[0]] + KeepRecs(p, s.list[1..]);
    assert s.list == [s.list[0]] + s.list[1..];
    PurgeReady(env, s, p, [s.list[0]], s.list[1..]);
    KeepMatches(p, s.list[1..]);
    ItemsOf(KeepRecs(p, s.list[1..]) + [s.list[0]], s.list[0], 0);
    assert Items(s.list[1..]) == Items(s.list)[1..];
    assert Items(l) == [s.list[0].item] + Items(KeepRecs(p, s.list[1..]));
  }

  // CreateAppTask for the front of a list in which nothing runs.
  lemma CreateEnters(env: Env, s: Sched)
    requires Base(env, s) && s.scheduling && s.pending == 0 && s.mail == []
    requires forall j :: 0 <= j < |s.list| ==> Resting(s, s.list[j])
    ensures Entering(env, CreateTask(s, 0)) && Items(CreateTask(s, 0).list) == Items(s.list)
    ensures CreateTask(s, 0).list[1..] == s.list[1..]
  {
    var r := s.list[0].(thread := true, state := STOP);
    assert Items(s.list[0 := r]) == Items(s.list);
  }

  lemma TailRests(env: Env, s: Sched, s': Sched)
    requires Ready(env, s) && s.list[0].item.token != LAUNCHER_TOKEN
    requires s' == s.(scheduling := true, list := s.list[1..])
    ensures Base(env, s') && forall j :: 0 <= j < |s'.list| ==> Resting(s', s'.list[j])
    ensures Items(s'.list) == Items(s.list)[1..]
  {
    hide DistinctItems, ItemOk, HasHome;
    assert Drop(Items(s.list), 0) == Items(s.list)[1..] == Items(s'.list);
    DropKeeps(env, Raw(s), 0);
  }

  lemma ForceStopTopSteps(env: Env, s: Sched)
    requires env.Ok() && Ready(env, s) && s.list[0].item.token != LAUNCHER_TOKEN
    ensures var (s', ok) := ForceStopBundle(env, s.(scheduling := true), s.list[0].item.token);
            ok && Entering(env, s') && Settled(s'.list) == Items(s.list)[1..]
            && s'.generated == s.generated && s'.nextMission == s.nextMission
  {
    var top := s.list[0].(terminated := true);
    var s1 := s.(scheduling := true, list := s.list[0 := top]);
    assert Items(s1.list)[0] == top.item;
    var s2 := s.(scheduling := true, list := s.list[1..]);
    assert Drop(s1.list, 0) == s.list[1..];
    TailRests(env, s, s2);
    CreateEnters(env, s2);
    assert DestroyDone(s1, top.item.token) == CreateTask(s2, 0);
  }

  // One request, carried out from rest: the list a client sees changes exactly as Apply says, and the
  // manager is either at rest again or in the middle of one switch.
  lemma PerformSteps(env: Env, s: Sched, r: Request)
    requires env.Ok() && Ready(env, s) && !StopsHome(Abs(s), r)
    requires Perform(env, s, r).0.generated <= TOKEN_PERIOD
    ensures var (s', ok) := Perform(env, s, r);
            Settles(env, s, s', ok) && Abs(s') == Apply(env, |s.log.executed|, Abs(s), r)
  {
    hide Leaving, Entering;
    match r
    case Start(bundle, data, mission) =>
      if bundle.Some? {
        var i := NameIndex(Items(s.list), bundle.value);
        if 0 < i < |s.list| {
          StartKnownSteps(env, s, i, data, mission);
        } else if i == |s.list| {
          StartNewSteps(env, s, bundle.value, data, mission);
        }
      }
    case Terminate(v) => TerminateSteps(env, s, Narrow(v), None);
    case TerminateMission(mission) => PurgeSteps(env, s, ByMission(mission));
    case TerminateApp(v) =>
      if Narrow(v) == s.list[0].item.token {
        ForceStopTopSteps(env, s);
      } else {
        TerminateSteps(env, s, Narrow(v), None);
      }
    case ForceStop(bundle, data) =>
      if bundle.Some? {
        var i := NameIndex(Items(s.list), bundle.value);
        if i < |s.list| { TerminateSteps(env, s, s.list[i].item.token, Some(data)); }
      }
    case TerminateAll(excluded) => PurgeSteps(env, s, AllBut(excluded));
  }
}
