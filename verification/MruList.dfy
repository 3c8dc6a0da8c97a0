/** What a client sees of the ability manager: every request acts at once on a list of abilities
    kept in most-recently-used order. The scheduler takes four messages to do the same. */
module MruList {
  import opened Options
  import opened Sequences
  import opened SliteTypes

  datatype Mru = Mru(items: seq<Item>, generated: nat, nextMission: nat)

  function Front(m: Mru): Item
    requires m.items != []
  {
    m.items[0]
  }

  function KeepItems(p: Purge, s: seq<Item>): seq<Item> {
    if s == [] then []
    else (if Spared(p, s[0]) then [s[0]] else []) + KeepItems(p, s[1..])
  }

  function NextMission(m: nat): nat { if m == UINT32_MAX then 0 else m }

  // The old front goes when it is registered as temporary; rest starts with it.
  function Retire(env: Env, k: nat, rest: seq<Item>): seq<Item>
    requires rest != []
  {
    if env.temporary(k, rest[0].name) then rest[1..] else rest
  }

  function MakeRoom(env: Env, s: seq<Item>): seq<Item> {
    if 2 <= |s| && env.capacity <= |s| then Drop(s, EvictIndex(s)) else s
  }

  function StartKnown(env: Env, k: nat, m: Mru, i: nat, data: Bytes, mission: nat): Mru
    requires 0 < i < |m.items|
  {
    var it := m.items[i];
    if !it.native && !env.check(k, it.name) then m
    else
      var it' := it.(data := data, mission := if mission == UINT32_MAX then it.mission else mission);
      m.(items := [it'] + Retire(env, k, Drop(m.items, i)))
  }

  function StartNew(env: Env, k: nat, m: Mru, name: string, data: Bytes, mission: nat): Mru
    requires m.items != []
  {
    var info := env.query(k, name);
    if info.None? || name == "" || (!info.value && !env.check(k, name)) then m
    else
      var unset := mission == UINT32_MAX;
      var number := if unset then NextMission(m.nextMission) else mission;
      var it := Item(TokenOf(m.generated), name, data, number, info.value);
      var rest := MakeRoom(env, m.items);
      Mru([it] + (if rest != [] then Retire(env, k, rest) else []), m.generated + 1,
          if unset then NextMission(m.nextMission) + 1 else m.nextMission)
  }

  function TerminateToken(m: Mru, token: nat, data: Option<Bytes>): Mru
    requires m.items != []
  {
    var s := m.items;
    var i := TokenIndex(s, token);
    if |s| == 1 && IsPermanent(s[0]) then m
    else if i == 0 && |s| == 1 then m.(items := [])
    else if i == 0 then
      var next := if data.Some? then s[1].(data := data.value) else s[1];
      m.(items := if IsPermanent(s[0]) then [next, s[0]] + s[2..] else [next] + s[2..])
    else if i == |s| || IsPermanent(s[i]) then m
    else m.(items := Drop(s, i))
  }

  // The effect of the k-th executed request.
  function Apply(env: Env, k: nat, m: Mru, r: Request): Mru
    requires m.items != []
  {
    match r
    case Start(bundle, data, mission) =>
      if bundle.None? then m
      else
        var i := NameIndex(m.items, bundle.value);
        if i == 0 then m
        else if i < |m.items| then StartKnown(env, k, m, i, data, mission)
        else StartNew(env, k, m, bundle.value, data, mission)
    case Terminate(v) => TerminateToken(m, Narrow(v), None)
    case TerminateMission(mission) => m.(items := [m.items[0]] + KeepItems(ByMission(mission), m.items[1..]))
    case TerminateApp(v) =>
      if Narrow(v) == m.items[0].token then m.(items := m.items[1..]) else TerminateToken(m, Narrow(v), None)
    case ForceStop(bundle, data) =>
      if bundle.None? || NameIndex(m.items, bundle.value) == |m.items| then m
      else TerminateToken(m, m.items[NameIndex(m.items, bundle.value)].token, Some(data))
    case TerminateAll(excluded) => m.(items := [m.items[0]] + KeepItems(AllBut(excluded), m.items[1..]))
  }

  // The list after the service has started home.
  function Initial(env: Env): Mru
    requires env.query(0, env.home).Some?
  {
    var unset := env.bootMission == UINT32_MAX;
    Mru([Item(LAUNCHER_TOKEN, env.home, [], if unset then 0 else env.bootMission, env.query(0, env.home).value)],
        1, if unset then 1 else 0)
  }

  // Home started, then each request of the sequence in turn.
  function Fold(env: Env, executed: seq<Request>): Mru
    requires env.query(0, env.home).Some?
  {
    if executed == [] then Initial(env)
    else
      var n := |executed|;
      var m := Fold(env, executed[..n - 1]);
      if m.items == [] then m else Apply(env, n, m, executed[n - 1])
  }

  ghost predicate ItemOk(env: Env, m: Mru, it: Item) {
    && it.token < m.generated && it.name != ""
    && (it.token == LAUNCHER_TOKEN <==> it.name == env.home)
    && (IsPermanent(it) <==> it.token == LAUNCHER_TOKEN)
  }

  ghost predicate HasHome(s: seq<Item>) {
    exists i :: 0 <= i < |s| && s[i].token == LAUNCHER_TOKEN
  }

  ghost predicate WellFormed(env: Env, m: Mru) {
    && m.items != [] && |m.items| <= env.capacity && m.generated <= TOKEN_PERIOD
    && DistinctItems(m.items)
    && (forall i :: 0 <= i < |m.items| ==> ItemOk(env, m, m.items[i]))
    && HasHome(m.items)
  }

  // TERMINATE_APP deletes the record on top without asking whether it is home.
  predicate StopsHome(m: Mru, r: Request)
    requires m.items != []
  {
    r.TerminateApp? && Narrow(r.value) == LAUNCHER_TOKEN && m.items[0].token == LAUNCHER_TOKEN
  }

  lemma FindDistinct(s: seq<Item>, i: nat)
    requires DistinctItems(s) && i < |s|
    ensures TokenIndex(s, s[i].token) == i && NameIndex(s, s[i].name) == i
  {
    var t, n := TokenIndex(s, s[i].token), NameIndex(s, s[i].name);
    assert t <= i && n <= i;
  }

  lemma DropKeeps(env: Env, m: Mru, i: nat)
    requires WellFormed(env, m) && i < |m.items| && m.items[i].token != LAUNCHER_TOKEN
    ensures WellFormed(env, m.(items := Drop(m.items, i)))
  {
    var h :| 0 <= h < |m.items| && m.items[h].token == LAUNCHER_TOKEN;
    assert Drop(m.items, i)[if h < i then h else h - 1].token == LAUNCHER_TOKEN;
  }

  // Moving an entry to the front, with its data and mission brought up to date.
  lemma MoveKeeps(env: Env, m: Mru, i: nat, it: Item)
    requires WellFormed(env, m) && i < |m.items|
    requires it.token == m.items[i].token && it.name == m.items[i].name
    ensures WellFormed(env, m.(items := [it] + Drop(m.items, i)))
  {
    var s := [it] + Drop(m.items, i);
    Moved(m.items, i, it);
    var h :| 0 <= h < |m.items| && m.items[h].token == LAUNCHER_TOKEN;
    assert s[if h == i then 0 else if h < i then h + 1 else h].token == LAUNCHER_TOKEN;
    forall a, b | 0 <= a < b < |s| ensures s[a].token != s[b].token && s[a].name != s[b].name {
      assert s[b] == m.items[WasAt(i, b)] && (a > 0 ==> s[a] == m.items[WasAt(i, a)]);
    }
  }

  // Where an element was before the i-th came to the front.
  function WasAt(i: nat, b: nat): nat
    requires b > 0
  {
    if b <= i then b - 1 else b
  }

  lemma Moved(items: seq<Item>, i: nat, it: Item)
    requires i < |items|
    ensures var s := [it] + Drop(items, i);
            |s| == |items| && forall b :: 0 < b < |s| ==> s[b] == items[WasAt(i, b)]
  {
  }

  lemma PushKeeps(env: Env, m: Mru, m': Mru, it: Item)
    requires WellFormed(env, m) && m'.items == [it] + m.items && |m'.items| <= env.capacity
    requires m.generated <= m'.generated <= TOKEN_PERIOD && ItemOk(env, m', it)
    requires forall j :: 0 <= j < |m.items| ==> m.items[j].token != it.token && m.items[j].name != it.name
    ensures WellFormed(env, m')
  {
    var h :| 0 <= h < |m.items| && m.items[h].token == LAUNCHER_TOKEN;
    assert m'.items[h + 1].token == LAUNCHER_TOKEN;
    assert forall j :: 0 < j < |m'.items| ==> m'.items[j] == m.items[j - 1];
  }

  // Making room never removes home, nor the ability on top.
  lemma EvictionIsSafe(env: Env, m: Mru)
    requires env.Ok() && WellFormed(env, m) && env.capacity <= |m.items|
    ensures var e := EvictIndex(m.items); 0 < e && m.items[e].token != LAUNCHER_TOKEN
    ensures MakeRoom(env, m.items) == Drop(m.items, EvictIndex(m.items))
    ensures WellFormed(env, m.(items := MakeRoom(env, m.items)))
  {
    var n := |m.items|;
    assert ItemOk(env, m, m.items[n - 1]) && m.items[n - 2].token != m.items[n - 1].token;
    DropKeeps(env, m, EvictIndex(m.items));
  }

  // New data or mission for an entry that stays where it is.
  lemma UpdateKeeps(env: Env, m: Mru, i: nat, it: Item)
    requires WellFormed(env, m) && i < |m.items|
    requires it.token == m.items[i].token && it.name == m.items[i].name
    ensures WellFormed(env, m.(items := m.items[i := it]))
  {
    var s := m.items[i := it];
    var h :| 0 <= h < |m.items| && m.items[h].token == LAUNCHER_TOKEN;
    assert s[h].token == LAUNCHER_TOKEN;
    assert forall j :: 0 <= j < |s| ==> s[j].token == m.items[j].token && s[j].name == m.items[j].name;
  }
}
