/** What each request does to the most-recently-used list: who is on it afterwards, in which order and with
    what data and mission. */
module Recency {
  import opened Options
  import opened Sequences
  import opened SliteTypes
  import opened MruList
  import opened Scheduler
  import opened SchedulerRuns

  predicate IsHome(it: Item) { it.token == LAUNCHER_TOKEN }

  // ---------- making room ----------

  // Of s one entry is gone: neither the front nor home, and nothing but home is behind it.
  ghost predicate LeastRecentGone(s: seq<Item>, r: seq<Item>) {
    exists e :: 0 < e < |s| && r == s[..e] + s[e + 1..] && !IsHome(s[e]) && forall j :: e < j < |s| ==> IsHome(s[j])
  }

  // r is what is left of s when another ability is to be put on the list.
  ghost predicate HasRoom(env: Env, s: seq<Item>, r: seq<Item>) {
    if |s| == env.capacity then LeastRecentGone(s, r) else r == s
  }

  lemma FullListLosesLeastRecent(env: Env, m: Mru)
    requires env.Ok() && WellFormed(env, m)
    ensures HasRoom(env, m.items, MakeRoom(env, m.items))
  {
    if |m.items| == env.capacity {
      EvictionIsSafe(env, m);
      var s, n := m.items, |m.items|;
      assert ItemOk(env, m, s[n - 1]) && ItemOk(env, m, s[n - 2]);
      var e := if IsHome(s[n - 1]) then n - 2 else n - 1;
      assert MakeRoom(env, s) == s[..e] + s[e + 1..];
    }
  }

  // ---------- starting ----------

  // The ability in front before goes if it is registered as temporary.
  function WithoutTemporary(env: Env, k: nat, front: Item, s: seq<Item>): seq<Item>
    requires s != []
  {
    if env.temporary(k, front.name) then s[1..] else s
  }

  // An ability on the list comes to the front with the data of the start, and with its mission if it has one;
  // a JS application only if it passes the check.
  lemma StartOfListed(env: Env, k: nat, m: Mru, i: nat, data: Bytes, mission: nat)
    requires WellFormed(env, m) && 0 < i < |m.items|
    ensures var x := m.items[i];
            var m' := Apply(env, k, m, Start(Some(x.name), data, mission));
            if x.native || env.check(k, x.name) then
              && m'.items == [x.(data := data, mission := if mission == 0xFFFF_FFFF then x.mission else mission)]
                             + WithoutTemporary(env, k, m.items[0], m.items[..i] + m.items[i + 1..])
              && m'.generated == m.generated && m'.nextMission == m.nextMission
            else m' == m
  {
    FindDistinct(m.items, i);
  }

  // Any other ability is put in front with a token of its own, once there is room.
  lemma StartOfNew(env: Env, k: nat, m: Mru, name: string, data: Bytes, mission: nat)
    requires env.Ok() && WellFormed(env, m) && m.generated < TOKEN_PERIOD
    requires name != "" && forall j :: 0 <= j < |m.items| ==> m.items[j].name != name
    ensures var m' := Apply(env, k, m, Start(Some(name), data, mission));
            match env.query(k, name)
            case None => m' == m
            case Some(native) =>
              if !native && !env.check(k, name) then m' == m
              else exists rest :: rest != [] && HasRoom(env, m.items, rest)
                                  && StartedNew(env, k, m, m', rest, name, data, mission, native)
  {
    hide ItemOk, DistinctItems, HasRoom, MakeRoom;
    assert NameIndex(m.items, name) == |m.items|;
    FullListLosesLeastRecent(env, m);
    var rest := MakeRoom(env, m.items);
    assert rest != [] && rest[0] == m.items[0] by { RoomKeepsFront(env, m.items, rest); }
  }

  lemma RoomKeepsFront(env: Env, s: seq<Item>, r: seq<Item>)
    requires s != [] && HasRoom(env, s, r)
    ensures r != [] && r[0] == s[0]
  {
  }

  ghost predicate StartedNew(env: Env, k: nat, m: Mru, m': Mru, rest: seq<Item>, name: string, data: Bytes,
                             mission: nat, native: bool)
    requires m.items != [] && rest != []
  {
    var next := if m.nextMission == 0xFFFF_FFFF then 0 else m.nextMission;
    && m'.items == [Item(m.generated, name, data, if mission == 0xFFFF_FFFF then next else mission, native)]
                   + WithoutTemporary(env, k, m.items[0], rest)
    && m'.generated == m.generated + 1
    && m'.nextMission == if mission == 0xFFFF_FFFF then next + 1 else m.nextMission
  }

  // Without a name, or for the ability in front, nothing changes.
  lemma StartOfFront(env: Env, k: nat, m: Mru, bundle: Option<string>, data: Bytes, mission: nat)
    requires env.Ok() && WellFormed(env, m) && (bundle == None || bundle == Some("") || bundle == Some(m.items[0].name))
    ensures Apply(env, k, m, Start(bundle, data, mission)) == m
  {
    if bundle == Some("") { assert forall j :: 0 <= j < |m.items| ==> ItemOk(env, m, m.items[j]); }
  }

  // ---------- terminating ----------

  // The front goes and the next comes in its place; home in front changes places with the next instead. One
  // further down is taken out; home there, or nobody, is left alone, and so is home alone on the list.
  ghost predicate StopsOne(s: seq<Item>, token: nat, r: seq<Item>)
    requires s != []
  {
    if |s| == 1 then r == s
    else if s[0].token == token then r == if IsHome(s[0]) then [s[1], s[0]] + s[2..] else s[1..]
    else if token == LAUNCHER_TOKEN || forall j :: 0 <= j < |s| ==> s[j].token != token then r == s
    else exists i :: 0 < i < |s| && s[i].token == token && r == s[..i] + s[i + 1..]
  }

  lemma TokenStops(env: Env, m: Mru, token: nat)
    requires env.Ok() && WellFormed(env, m)
    ensures StopsOne(m.items, token, TerminateToken(m, token, None).items)
    ensures TerminateToken(m, token, None) == m.(items := TerminateToken(m, token, None).items)
  {
    var s, i := m.items, TokenIndex(m.items, token);
    assert ItemOk(env, m, s[0]);
    if |s| == 1 { assert IsHome(s[0]); }
    if 0 < i < |s| {
      assert ItemOk(env, m, s[i]);
      assert Drop(s, i) == s[..i] + s[i + 1..];
    }
  }

  // A token is 16 bits wide.
  lemma TerminateStops(env: Env, k: nat, m: Mru, value: nat)
    requires env.Ok() && WellFormed(env, m)
    ensures var m' := Apply(env, k, m, Terminate(value));
            m' == m.(items := m'.items) && StopsOne(m.items, value % 0x1_0000, m'.items)
  {
    hide WellFormed;
    TokenStops(env, m, value % 0x1_0000);
  }

  // By force the front goes even if it is home.
  lemma TerminateAppStops(env: Env, k: nat, m: Mru, value: nat)
    requires env.Ok() && WellFormed(env, m)
    ensures var m' := Apply(env, k, m, TerminateApp(value));
            && m' == m.(items := m'.items)
            && if value % 0x1_0000 == m.items[0].token then m'.items == m.items[1..]
               else StopsOne(m.items, value % 0x1_0000, m'.items)
  {
    TokenStops(env, m, value % 0x1_0000);
  }

  // By name; the next ability is given the data if it is the front that stops.
  lemma ForceStopStops(env: Env, k: nat, m: Mru, i: nat, data: Bytes)
    requires env.Ok() && WellFormed(env, m) && i < |m.items|
    ensures var m' := Apply(env, k, m, ForceStop(Some(m.items[i].name), data));
            var s := if i == 0 && |m.items| > 1 then m.items[1 := m.items[1].(data := data)] else m.items;
            m' == m.(items := m'.items) && StopsOne(s, m.items[i].token, m'.items)
  {
    hide ItemOk;
    FindDistinct(m.items, i);
    TokenStops(env, m, m.items[i].token);
  }

  lemma ForceStopOfNobody(env: Env, k: nat, m: Mru, bundle: Option<string>, data: Bytes)
    requires m.items != []
    requires bundle.None? || forall j :: 0 <= j < |m.items| ==> m.items[j].name != bundle.value
    ensures Apply(env, k, m, ForceStop(bundle, data)) == m
  {
    if bundle.Some? { assert NameIndex(m.items, bundle.value) == |m.items|; }
  }

  // ---------- bulk termination ----------

  // r is s with some entries left out.
  predicate InOrder(r: seq<Item>, s: seq<Item>)
    decreases |s|
  {
    r == [] || (s != [] && (InOrder(r, s[1..]) || (r[0] == s[0] && InOrder(r[1..], s[1..]))))
  }

  lemma BulkStops(env: Env, k: nat, m: Mru, r: Request)
    requires env.Ok() && WellFormed(env, m) && (r.TerminateMission? || r.TerminateAll?)
    ensures var m' := Apply(env, k, m, r);
            && m' == m.(items := m'.items) && m'.items != [] && m'.items[0] == m.items[0]
            && InOrder(m'.items[1..], m.items[1..])
            && forall x :: x in m'.items[1..] <==> x in m.items[1..] && Outlives(r, x)
  {
    var p, rest := PurgeOf(r), m.items[1..];
    forall x | x in rest ensures Spared(p, x) <==> Outlives(r, x) {
      var j :| 0 <= j < |rest| && rest[j] == x;
      assert ItemOk(env, m, m.items[j + 1]);
    }
    Filtered(p, rest);
    assert Apply(env, k, m, r).items[1..] == KeepItems(p, rest);
  }

  lemma {:induction false} Filtered(p: Purge, s: seq<Item>)
    ensures InOrder(KeepItems(p, s), s)
    ensures forall x :: x in KeepItems(p, s) <==> x in s && Spared(p, x)
  {
    if s != [] {
      Filtered(p, s[1..]);
      assert forall x :: x in s <==> x == s[0] || x in s[1..];
      var kept := KeepItems(p, s[1..]);
      assert ([s[0]] + kept)[1..] == kept && [] + kept == kept;
    }
  }

  // ---------- whole runs ----------

  // The list begins with home alone.
  lemma HomeFirst(env: Env)
    requires env.Ok()
    ensures Fold(env, []).items
            == [Item(0, env.home, [], if env.bootMission == 0xFFFF_FFFF then 0 else env.bootMission,
                     env.query(0, env.home).value)]
    ensures Fold(env, []).generated == 1
  {
  }

  // While an ability is started as the last executed request asks, it is sent the data of that request.
  lemma StartDelivers(env: Env, events: seq<Event>, name: string, data: Bytes, mission: nat)
    requires env.Ok() && Legal(env, events)
    requires var executed := Run(env, events).log.executed;
             && executed != [] && executed[|executed| - 1] == Start(Some(name), data, mission)
             && var m, m' := Fold(env, executed[..|executed| - 1]), Fold(env, executed);
             m.items != [] && m'.items != [] && Front(m).name != name && Front(m').name == name
    ensures forall x :: x in Run(env, events).mail && (x.life == CREATE || x.life == TO_FOREGROUND) ==> x.data == data
  {
    MessagesCarryData(env, events);
    var executed := Run(env, events).log.executed;
    StartSetsData(env, |executed|, Fold(env, executed[..|executed| - 1]), name, data, mission);
  }

  lemma StartSetsData(env: Env, k: nat, m: Mru, name: string, data: Bytes, mission: nat)
    requires m.items != [] && Front(m).name != name
    requires var m' := Apply(env, k, m, Start(Some(name), data, mission)); m'.items != [] && Front(m').name == name
    ensures Front(Apply(env, k, m, Start(Some(name), data, mission))).data == data
  {
  }
}
