/** The application's side of the lifecycle: state messages from the service, abilities and their slices. */
module AbilityLifecycles {
  import opened Options
  import opened AbilityStates
  import opened AbilitySlices

  // managed: a native page ability, which has slices.
  datatype Ability = Ability(state: AbilityState, managed: bool, slices: Slices)

  const FRESH_ABILITY := Ability(STATE_UNINITIALIZED, false, NO_SLICES)

  // ---------- guarded callbacks; None is exit(-1) ----------

  function Init(managed: bool): Ability { Ability(STATE_INITIAL, managed, NO_SLICES) }

  function OnStart(a: Ability, loaded: Option<nat>): Option<Ability> {
    if a.state != STATE_INITIAL then None
    else Some(a.(slices := if a.managed then HandleStart(a.slices, loaded) else a.slices, state := STATE_INACTIVE))
  }

  // Inactive, active and background are handed on to the top slice.
  function Handed(a: Ability, state: AbilityState): Ability {
    a.(slices := if a.managed then HandleTop(a.slices, state) else a.slices, state := state)
  }

  function OnInactive(a: Ability): Option<Ability> {
    if a.state != STATE_ACTIVE then None else Some(Handed(a, STATE_INACTIVE))
  }

  function OnActive(a: Ability): Option<Ability> {
    if a.state !in {STATE_INACTIVE, STATE_BACKGROUND} then None else Some(Handed(a, STATE_ACTIVE))
  }

  function OnBackground(a: Ability): Option<Ability> {
    if a.state != STATE_INACTIVE then None else Some(Handed(a, STATE_BACKGROUND))
  }

  function OnStop(a: Ability): Option<Ability> {
    if a.state != STATE_BACKGROUND then None
    else Some(Ability(STATE_INITIAL, false, if a.managed then HandleStop(a.slices) else a.slices))
  }

  // ---------- one state message ----------

  function ToInactive(a: Ability, loaded: Option<nat>): Option<Ability> {
    var a1 := if a.state == STATE_INITIAL then OnStart(a, loaded) else Some(a);
    if a1.Some? && a1.value.state == STATE_ACTIVE then OnInactive(a1.value) else a1
  }

  function ToBackground(a: Ability): Option<Ability> {
    if a.state == STATE_INACTIVE then OnBackground(a) else Some(a)
  }

  // target is any number a message may carry.
  function Handle(a: Ability, target: int, loaded: Option<nat>): Option<Ability> {
    var a1 := ToInactive(a, loaded);
    if a1.None? then None
    else if target == Code(STATE_INITIAL) then
      var a2 := ToBackground(a1.value);
      if a2.None? then None else OnStop(a2.value)
    else if target == Code(STATE_ACTIVE) then OnActive(a1.value)
    else if target == Code(STATE_BACKGROUND) then ToBackground(a1.value)
    else a1
  }

  // The abilities of the process, the states reported to the service, and the slices of every ability that
  // has stopped, as they were then.
  datatype Thread = Thread(abilities: map<nat, Ability>, reports: seq<(nat, AbilityState)>, ended: seq<Slices>)

  const NO_ABILITIES := Thread(map[], [], [])

  datatype Message =
    // loadable: the want names an ability the loader finds; managed: it is a native page; loaded: its main slice.
    | Transact(token: nat, target: int, loadable: bool, managed: bool, loaded: Option<nat>)
    | PresentSlice(token: nat, caller: nat, slice: nat)
    | TerminateSlice(token: nat, slice: nat)

  function Report(t: Thread, token: nat, state: AbilityState): Thread { t.(reports := t.reports + [(token, state)]) }

  // The ability is a now; a stopped one is forgotten.
  function Settled(t: Thread, token: nat, a: Ability): Thread {
    if a.state == STATE_INITIAL then t.(abilities := t.abilities - {token}, ended := t.ended + [a.slices])
    else t.(abilities := t.abilities[token := a])
  }

  function PerformTransact(t: Thread, token: nat, target: int, loadable: bool, managed: bool,
                           loaded: Option<nat>): Option<Thread>
  {
    if token !in t.abilities && !loadable then Some(Report(t, token, STATE_INITIAL))
    else
      var a := if token in t.abilities then t.abilities[token] else Init(managed);
      var done := if Code(a.state) != target then Handle(a, target, loaded) else Some(a);
      if done.None? then None else Some(Report(Settled(t, token, done.value), token, done.value.state))
  }

  function OnSlices(t: Thread, token: nat, slices: Slices): Thread
    requires token in t.abilities
  {
    t.(abilities := t.abilities[token := t.abilities[token].(slices := slices)])
  }

  function Step(t: Thread, m: Message): Option<Thread> {
    match m
    case Transact(token, target, loadable, managed, loaded) =>
      PerformTransact(t, token, target, loadable, managed, loaded)
    case PresentSlice(token, caller, slice) =>
      if token !in t.abilities || !t.abilities[token].managed then Some(t)
      else
        var a := t.abilities[token];
        Some(OnSlices(t, token, Present(a.slices, a.state == STATE_ACTIVE, caller, slice)))
    case TerminateSlice(token, slice) =>
      if token !in t.abilities || !t.abilities[token].managed then Some(t)
      else
        var a := t.abilities[token];
        Some(OnSlices(t, token, Terminate(a.slices, a.state == STATE_ACTIVE, slice)))
  }

  // None once the process has exited.
  function Run(ms: seq<Message>): Option<Thread> {
    if ms == [] then Some(NO_ABILITIES)
    else
      var before := Run(ms[..|ms| - 1]);
      if before.None? then None else Step(before.value, ms[|ms| - 1])
  }

  // ---------- whole runs ----------

  ghost predicate Stored(t: Thread) {
    forall token: nat :: token in t.abilities ==>
      t.abilities[token].state in {STATE_INACTIVE, STATE_ACTIVE, STATE_BACKGROUND}
  }

  // What a message to an ability in state prev makes of it; prev is the initial state if there was none.
  function Expected(prev: AbilityState, target: int): AbilityState {
    if target == Code(STATE_INITIAL) then STATE_INITIAL
    else if target == Code(STATE_ACTIVE) then STATE_ACTIVE
    else if target == Code(STATE_BACKGROUND) then STATE_BACKGROUND
    else if prev == STATE_BACKGROUND then STATE_BACKGROUND
    else STATE_INACTIVE
  }

  lemma HandleMeets(a: Ability, target: int, loaded: Option<nat>)
    requires a.state != STATE_UNINITIALIZED && Code(a.state) != target
    ensures Handle(a, target, loaded).Some? && Handle(a, target, loaded).value.state == Expected(a.state, target)
  {
  }

  lemma StepMeets(t: Thread, m: Message)
    requires Stored(t)
    ensures Step(t, m).Some? && Stored(Step(t, m).value)
    ensures match m
            case Transact(token, target, loadable, _, _) =>
              var state := if token in t.abilities then Expected(t.abilities[token].state, target)
                           else if loadable then Expected(STATE_INITIAL, target) else STATE_INITIAL;
              && Step(t, m).value.reports == t.reports + [(token, state)]
              && (token in Step(t, m).value.abilities <==> state != STATE_INITIAL)
            case _ => Step(t, m).value.reports == t.reports
  {
    if m.Transact? {
      var a := if m.token in t.abilities then t.abilities[m.token] else Init(m.managed);
      if Code(a.state) != m.target { HandleMeets(a, m.target, m.loaded); }
    }
  }

  // No sequence of messages, with known or unknown targets, trips a lifecycle guard, and between messages
  // every stored ability is inactive, active or in the background.
  lemma {:induction false} NoRunExits(ms: seq<Message>)
    ensures Run(ms).Some? && Stored(Run(ms).value)
  {
    if ms != [] {
      NoRunExits(ms[..|ms| - 1]);
      StepMeets(Run(ms[..|ms| - 1]).value, ms[|ms| - 1]);
    }
  }

  // The state reported for a message with a valid target is that target, except that an ability in the
  // background is not made inactive.
  lemma ReportedIsTarget(ms: seq<Message>, m: Message, target: AbilityState)
    requires m.Transact? && m.target == Code(target) && target != STATE_UNINITIALIZED
    ensures Run(ms).Some? && Run(ms + [m]).Some?
    ensures var before, after := Run(ms).value, Run(ms + [m]).value;
            var stays := m.token in before.abilities && before.abilities[m.token].state == STATE_BACKGROUND
                         && target == STATE_INACTIVE;
            m.token in before.abilities || m.loadable ==>
              after.reports == before.reports + [(m.token, if stays then STATE_BACKGROUND else target)]
  {
    NoRunExits(ms);
    assert (ms + [m])[..|ms|] == ms;
    StepMeets(Run(ms).value, m);
  }

  // ---------- slices along the way ----------

  ghost predicate GoodAbility(a: Ability) {
    a.state != STATE_UNINITIALIZED ==>
      if a.managed then Good(a.slices, a.state) && (a.state == STATE_INITIAL ==> a.slices == NO_SLICES)
      else a.slices == NO_SLICES
  }

  // The slices of a stopped ability: none on top or stacked, and each that ever ran was stopped, having come
  // there along the lifecycle graph.
  ghost predicate Ended(s: Slices) { Good(s, STATE_INITIAL) && s.top == None }

  // As documented, only a slice that is not started, or destroyed, is presented.
  ghost predicate Documented(t: Thread, m: Message) {
    m.PresentSlice? && m.token in t.abilities ==>
      StateOf(t.abilities[m.token].slices, m.slice) in {STATE_UNINITIALIZED, STATE_INITIAL}
  }

  ghost predicate DocumentedRun(ms: seq<Message>) {
    forall i :: 0 <= i < |ms| && Run(ms[..i]).Some? ==> Documented(Run(ms[..i]).value, ms[i])
  }

  lemma HandedKeeps(a: Ability, state: AbilityState)
    requires GoodAbility(a) && Edge(a.state, state) && Code(a.state) > 1 && Code(state) > 1
    ensures GoodAbility(Handed(a, state))
  {
    if a.managed { TopKeeps(a.slices, a.state, state); }
  }

  lemma ToInactiveKeeps(a: Ability, loaded: Option<nat>)
    requires GoodAbility(a) && a.state != STATE_UNINITIALIZED
    ensures ToInactive(a, loaded).Some? && GoodAbility(ToInactive(a, loaded).value)
  {
    if a.state == STATE_INITIAL && a.managed { StartKeeps(a.slices, loaded); }
    if a.state == STATE_ACTIVE { HandedKeeps(a, STATE_INACTIVE); }
  }

  lemma StopEnds(a: Ability)
    requires GoodAbility(a) && a.state == STATE_BACKGROUND
    ensures OnStop(a).Some? && Ended(OnStop(a).value.slices)
  {
    if a.managed { StopKeeps(a.slices); }
  }

  // Each transaction keeps the slices in order; the one that stops the ability stops each of them.
  lemma HandleKeeps(a: Ability, target: int, loaded: Option<nat>)
    requires GoodAbility(a) && a.state != STATE_UNINITIALIZED && Code(a.state) != target
    ensures Handle(a, target, loaded).Some?
    ensures var a' := Handle(a, target, loaded).value;
            if a'.state == STATE_INITIAL then Ended(a'.slices) else GoodAbility(a')
  {
    hide Good;
    ToInactiveKeeps(a, loaded);
    var a1 := ToInactive(a, loaded).value;
    if a1.state == STATE_INACTIVE { HandedKeeps(a1, STATE_BACKGROUND); }
    if target == Code(STATE_INITIAL) {
      StopEnds(ToBackground(a1).value);
    } else if target == Code(STATE_ACTIVE) {
      HandedKeeps(a1, STATE_ACTIVE);
    }
  }

  ghost predicate GoodThread(t: Thread) {
    && Stored(t)
    && (forall token: nat :: token in t.abilities ==> GoodAbility(t.abilities[token]))
    && (forall i :: 0 <= i < |t.ended| ==> Ended(t.ended[i]))
  }

  lemma TransactKeeps(t: Thread, m: Message)
    requires GoodThread(t) && m.Transact? && Step(t, m).Some? && Stored(Step(t, m).value)
    ensures GoodThread(Step(t, m).value)
  {
    var a := if m.token in t.abilities then t.abilities[m.token] else Init(m.managed);
    if Code(a.state) != m.target { HandleKeeps(a, m.target, m.loaded); }
  }

  lemma StepKeeps(t: Thread, m: Message)
    requires GoodThread(t) && Documented(t, m)
    ensures Step(t, m).Some? && GoodThread(Step(t, m).value)
  {
    StepMeets(t, m);
    if m.Transact? {
      TransactKeeps(t, m);
    } else if m.token in t.abilities && t.abilities[m.token].managed {
      var a := t.abilities[m.token];
      if a.state == STATE_ACTIVE {
        if m.PresentSlice? { PresentKeeps(a.slices, m.caller, m.slice); } else { TerminateKeeps(a.slices, m.slice); }
      }
    }
  }

  // In every run that presents only slices that do not run, the slices of each ability that is there are in
  // order, and those of each that has stopped were all stopped along the lifecycle graph.
  lemma {:induction false} SlicesStayInOrder(ms: seq<Message>)
    requires DocumentedRun(ms)
    ensures Run(ms).Some? && GoodThread(Run(ms).value)
  {
    if ms != [] {
      var but := ms[..|ms| - 1];
      assert forall i :: 0 <= i < |but| ==> but[..i] == ms[..i];
      SlicesStayInOrder(but);
      StepKeeps(Run(but).value, ms[|ms| - 1]);
    }
  }

  // ---------- what reaches the slices ----------

  // A slice's call reaches the slices of its ability, if that has slices; nothing else changes and nothing is
  // reported.
  lemma SliceMessagesReach(t: Thread, m: Message)
    requires !m.Transact?
    ensures Step(t, m).Some?
    ensures var t' := Step(t, m).value;
            && t'.abilities.Keys == t.abilities.Keys && t'.reports == t.reports && t'.ended == t.ended
            && forall token: nat :: token in t.abilities ==>
                 var a := t.abilities[token];
                 var active := a.state == STATE_ACTIVE;
                 t'.abilities[token]
                 == if token != m.token || !a.managed then a
                    else if m.PresentSlice? then a.(slices := Present(a.slices, active, m.caller, m.slice))
                    else a.(slices := Terminate(a.slices, active, m.slice))
  {
  }

  // An ability that shows a slice goes on to show one until it stops.
  ghost predicate Shows(t: Thread, token: nat) {
    token in t.abilities && t.abilities[token].managed && t.abilities[token].slices.top.Some?
  }

  lemma StepShows(t: Thread, m: Message, token: nat)
    requires Stored(t) && Shows(t, token)
    ensures Step(t, m).Some? && (token in Step(t, m).value.abilities ==> Shows(Step(t, m).value, token))
  {
    StepMeets(t, m);
    if m.Transact? && m.token == token && Code(t.abilities[token].state) != m.target {
      HandleShows(t.abilities[token], m.target, m.loaded);
    }
  }

  lemma HandleShows(a: Ability, target: int, loaded: Option<nat>)
    requires a.managed && a.slices.top.Some? && a.state in {STATE_INACTIVE, STATE_ACTIVE, STATE_BACKGROUND}
    ensures Handle(a, target, loaded).Some?
    ensures var a' := Handle(a, target, loaded).value;
            a'.state != STATE_INITIAL ==> a'.managed && a'.slices.top.Some?
  {
  }

  lemma StopGrows(a: Ability)
    requires a.state == STATE_BACKGROUND
    ensures a.slices.moves <= OnStop(a).value.slices.moves
  {
    var s := a.slices;
    if s.top.Some? { StopAllGrows(To(s, s.top.value, STATE_INITIAL)); }
  }

  lemma {:induction false} StopAllGrows(s: Slices)
    ensures s.moves <= StopAll(s).moves
    decreases |s.stack|
  {
    if s.stack != [] { StopAllGrows(To(s.(stack := s.stack[1..]), s.stack[0], STATE_INITIAL)); }
  }

  // The first message for an ability starts the main slice the loader finds for it.
  lemma FirstMessageShows(t: Thread, m: Message)
    requires Stored(t) && m.Transact? && m.token !in t.abilities && m.loadable && m.managed && m.loaded.Some?
    ensures Step(t, m).Some?
    ensures var t' := Step(t, m).value;
            m.token in t'.abilities ==>
              && Shows(t', m.token) && t'.abilities[m.token].slices.top == m.loaded
              && [Move(m.loaded.value, STATE_UNINITIALIZED, STATE_INITIAL),
                  Move(m.loaded.value, STATE_INITIAL, STATE_INACTIVE)] <= t'.abilities[m.token].slices.moves
  {
    StepMeets(t, m);
    if Code(STATE_INITIAL) != m.target { HandleMeets(Init(true), m.target, m.loaded); }
  }

  // In every run, a native page whose main slice was loaded has a slice on top for as long as it is there.
  lemma {:induction false} MainSliceStays(ms: seq<Message>, m: Message, more: seq<Message>)
    requires m.Transact? && m.loadable && m.managed && m.loaded.Some?
    requires Run(ms).Some? && m.token !in Run(ms).value.abilities
    requires forall n :: 0 <= n <= |more| ==> StillThere(ms + [m] + more[..n], m.token)
    ensures StillThere(ms + [m] + more, m.token) && Shows(Run(ms + [m] + more).value, m.token)
    decreases |more|
  {
    hide Step, Shows;
    var all := ms + [m] + more;
    NoRunExits(all[..|all| - 1]);
    assert more[..|more|] == more;
    assert StillThere(ms + [m] + more[..|more|], m.token);
    if more == [] {
      assert all[..|all| - 1] == ms && all[|all| - 1] == m;
      FirstMessageShows(Run(ms).value, m);
    } else {
      var but := more[..|more| - 1];
      assert all[..|all| - 1] == ms + [m] + but && all[|all| - 1] == more[|more| - 1];
      forall n | 0 <= n <= |but| ensures StillThere(ms + [m] + but[..n], m.token) {
        assert but[..n] == more[..n];
      }
      MainSliceStays(ms, m, but);
      StepShows(Run(ms + [m] + but).value, more[|more| - 1], m.token);
    }
  }

  ghost predicate StillThere(ms: seq<Message>, token: nat) { Run(ms).Some? && token in Run(ms).value.abilities }

  // The slices of an ability that stops are kept, with everything that happened to them before.
  lemma StoppedAreKept(t: Thread, m: Message)
    requires GoodThread(t) && m.Transact? && m.token in t.abilities && Step(t, m).Some?
    ensures var t' := Step(t, m).value;
            if m.token in t'.abilities then t'.ended == t.ended
            else exists s :: t'.ended == t.ended + [s] && t.abilities[m.token].slices.moves <= s.moves
  {
    var a := t.abilities[m.token];
    StepMeets(t, m);
    if Code(a.state) != m.target { HandleGrows(a, m.target, m.loaded); }
  }

  lemma HandleGrows(a: Ability, target: int, loaded: Option<nat>)
    requires a.state in {STATE_INACTIVE, STATE_ACTIVE, STATE_BACKGROUND}
    ensures Handle(a, target, loaded).Some? && a.slices.moves <= Handle(a, target, loaded).value.slices.moves
  {
    if target == Code(STATE_INITIAL) { StopGrows(ToBackground(ToInactive(a, loaded).value).value); }
  }
}
