/** The values the mini-system ("slite") ability manager works with. */
module SliteTypes {
  import opened Options

  type Bytes = seq<bv8>

  const UINT32_MAX: nat := 0xFFFF_FFFF
  // GenerateToken starts over at 0 once its counter has reached UINT16_MAX - 1.
  const TOKEN_PERIOD: nat := 65534

  // The n-th token handed out.
  function TokenOf(n: nat): nat { n % TOKEN_PERIOD }

  // What identifies an ability on the most-recently-used list.
  datatype Item = Item(token: nat, name: string, data: Bytes, mission: nat, native: bool)

  // A message from a client; None stands for the null pointers the service checks for.
  datatype Request =
    | Start(bundle: Option<string>, data: Bytes, mission: nat)
    | Terminate(value: nat)
    | TerminateMission(mission: nat)
    | TerminateApp(value: nat)
    | ForceStop(bundle: Option<string>, data: Bytes)
    | TerminateAll(excluded: Option<string>)

  // The collaborators the manager calls but does not define. The k-th executed request sees
  // query(k, _), check(k, _) and temporary(k, _), so their answers may change from one request to
  // the next. stale(k) is the uninitialised mission number of the k-th copied Want.
  datatype Env = Env(home: string, capacity: nat, bootMission: nat,
                     query: (nat, string) -> Option<bool>,  // None: query failed; Some(isNativeApp)
                     check: (nat, string) -> bool,
                     temporary: (nat, string) -> bool,
                     stale: nat -> nat)
  {
    // The home ability is installed, not temporary, and the only permanent one.
    ghost predicate Ok() {
      && 3 <= capacity
      && home != "" && query(0, home).Some?
      && (forall k :: !temporary(k, home))
      && (home != "main" ==> forall k :: query(k, "main").None?)
    }
  }

  const MAIN_BUNDLE_NAME := "main"
  const LAUNCHER_TOKEN: nat := 0

  predicate IsPermanent(it: Item) {
    it.token == LAUNCHER_TOKEN || it.name == MAIN_BUNDLE_NAME
  }

  // A uint32 message value narrowed to a uint16 token.
  function Narrow(value: nat): nat { value % 0x1_0000 }

  // Which abilities a bulk termination spares; the top one is never asked about.
  datatype Purge = ByMission(mission: nat) | AllBut(excluded: Option<string>)

  predicate Spared(p: Purge, it: Item) {
    || IsPermanent(it)
    || match p
       case ByMission(m) => it.mission != m
       case AllBut(e) => e == Some(it.name)
  }

  // Index of the first item with the token, or |s|.
  function TokenIndex(s: seq<Item>, token: nat): (i: nat)
    ensures i <= |s|
    ensures i < |s| ==> s[i].token == token
    ensures forall j :: 0 <= j < i ==> s[j].token != token
  {
    if s == [] || s[0].token == token then 0 else 1 + TokenIndex(s[1..], token)
  }

  // Index of the first item with the bundle name, or |s|.
  function NameIndex(s: seq<Item>, name: string): (i: nat)
    ensures i <= |s|
    ensures i < |s| ==> s[i].name == name
    ensures forall j :: 0 <= j < i ==> s[j].name != name
  {
    if s == [] || s[0].name == name then 0 else 1 + NameIndex(s[1..], name)
  }

  // The entry PopBottomAbility removes: the last one, or the one before it when the last is home.
  function EvictIndex(s: seq<Item>): (i: nat)
    requires 2 <= |s|
    ensures i < |s|
  {
    if IsPermanent(s[|s| - 1]) then |s| - 2 else |s| - 1
  }

  ghost predicate DistinctItems(s: seq<Item>) {
    forall i, j :: 0 <= i < j < |s| ==> s[i].token != s[j].token && s[i].name != s[j].name
  }
}
