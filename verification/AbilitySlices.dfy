/** The slices of one page ability: the top one, those stacked below it, and how their states move. */
module AbilitySlices {
  import opened Options
  import opened AbilityStates

  // One lifecycle callback of a slice.
  datatype Move = Move(slice: nat, from: AbilityState, to: AbilityState)

  // Slices are known by numbers; one without a recorded state has not been initialised. The stack has its top
  // in front. asked counts the requests to terminate the ability itself.
  datatype Slices = Slices(states: map<nat, AbilityState>, top: Option<nat>, stack: seq<nat>, moves: seq<Move>,
                           asked: nat)

  const NO_SLICES := Slices(map[], None, [], [], 0)

  function StateOf(s: Slices, id: nat): AbilityState { if id in s.states then s.states[id] else STATE_UNINITIALIZED }

  // A callback of the slice.
  function To(s: Slices, id: nat, state: AbilityState): Slices {
    s.(states := s.states[id := state], moves := s.moves + [Move(id, StateOf(s, id), state)])
  }

  // ---------- the ability's own lifecycle ----------

  // loaded is the main slice, if the loader finds one.
  function HandleStart(s: Slices, loaded: Option<nat>): Slices {
    var top := if s.top.Some? then s.top else loaded;
    if top.None? then s
    else To(To(s.(top := top), top.value, STATE_INITIAL), top.value, STATE_INACTIVE)
  }

  // Inactive, active and background go to the top slice.
  function HandleTop(s: Slices, state: AbilityState): Slices { if s.top.None? then s else To(s, s.top.value, state) }

  function StopAll(s: Slices): Slices
    decreases |s.stack|
  {
    if s.stack == [] then s else StopAll(To(s.(stack := s.stack[1..]), s.stack[0], STATE_INITIAL))
  }

  function HandleStop(s: Slices): Slices {
    if s.top.None? then s else StopAll(To(s, s.top.value, STATE_INITIAL)).(top := None)
  }

  // ---------- slices present and terminate each other ----------

  predicate LegalForAdd(s: Slices, active: bool, caller: nat, target: nat) {
    && s.top.Some? && active && Code(StateOf(s, caller)) > Code(STATE_INITIAL)
    && StateOf(s, target) != STATE_ACTIVE && target != s.top.value
  }

  // The target is started as far as it is not, and becomes active.
  function Activated(s: Slices, target: nat): Slices {
    var s1 := if StateOf(s, target) == STATE_UNINITIALIZED then To(s, target, STATE_INITIAL) else s;
    var s2 := if StateOf(s1, target) == STATE_INITIAL then To(s1, target, STATE_INACTIVE) else s1;
    To(s2, target, STATE_ACTIVE)
  }

  function Present(s: Slices, active: bool, caller: nat, target: nat): Slices {
    if !LegalForAdd(s, active, caller, target) then s
    else
      var top := s.top.value;
      var s1 := if StateOf(s, top) == STATE_ACTIVE then To(s, top, STATE_INACTIVE) else s;
      var s2 := Activated(s1, target);
      var s3 := if StateOf(s2, top) == STATE_INACTIVE then To(s2, top, STATE_BACKGROUND) else s2;
      s3.(stack := [top] + s3.stack, top := Some(target))
  }

  predicate MayRemove(s: Slices, active: bool, slice: nat) {
    && s.top.Some? && active && (slice in s.stack || slice == s.top.value)
    && Code(StateOf(s, slice)) > Code(STATE_INITIAL)
  }

  // std::list::remove takes every occurrence.
  function Without(ids: seq<nat>, id: nat): seq<nat> {
    if ids == [] then [] else (if ids[0] == id then [] else [ids[0]]) + Without(ids[1..], id)
  }

  // The last slice asks for the ability to be terminated instead.
  function Terminate(s: Slices, active: bool, slice: nat): Slices {
    if !MayRemove(s, active, slice) then s
    else if s.stack == [] then s.(asked := s.asked + 1)
    else if slice == s.top.value then
      var next := s.stack[0];
      var s1 := To(s, slice, STATE_INACTIVE).(stack := s.stack[1..]);
      To(To(To(s1, next, STATE_ACTIVE), slice, STATE_BACKGROUND), slice, STATE_INITIAL).(top := Some(next))
    else To(s, slice, STATE_INITIAL).(stack := Without(s.stack, slice))
  }

  // ---------- what every run keeps ----------

  // The state of a slice after the first n moves.
  function StateAfter(moves: seq<Move>, n: nat, id: nat): AbilityState
    requires n <= |moves|
  {
    if n == 0 then STATE_UNINITIALIZED
    else if moves[n - 1].slice == id then moves[n - 1].to
    else StateAfter(moves, n - 1, id)
  }

  // Every slice's history runs along the lifecycle graph, from not initialised to its present state.
  ghost predicate GoodHistory(s: Slices) {
    && (forall id: nat :: StateOf(s, id) == StateAfter(s.moves, |s.moves|, id))
    && (forall i :: 0 <= i < |s.moves| ==>
          s.moves[i].from == StateAfter(s.moves, i, s.moves[i].slice) && Edge(s.moves[i].from, s.moves[i].to))
  }

  ghost predicate Unique(ids: seq<nat>) { forall j, k :: 0 <= j < k < |ids| ==> ids[j] != ids[k] }

  // The top slice is in the ability's state, each stacked one in the background and there once, and all others
  // are stopped or were never started.
  ghost predicate GoodStates(s: Slices, state: AbilityState) {
    && (s.top.Some? ==>
          StateOf(s, s.top.value) == state && Code(state) > Code(STATE_INITIAL) && s.top.value !in s.stack)
    && (s.top.None? ==> s.stack == [])
    && Unique(s.stack)
    && (forall id: nat :: id in s.stack ==> StateOf(s, id) == STATE_BACKGROUND)
    && (forall id: nat :: id !in s.stack && s.top != Some(id) ==>
          StateOf(s, id) in {STATE_UNINITIALIZED, STATE_INITIAL})
  }

  ghost predicate Good(s: Slices, state: AbilityState) { GoodHistory(s) && GoodStates(s, state) }

  lemma {:induction false} StateBefore(moves: seq<Move>, m: Move, n: nat, id: nat)
    requires n <= |moves|
    ensures StateAfter(moves + [m], n, id) == StateAfter(moves, n, id)
  {
    if n > 0 { StateBefore(moves, m, n - 1, id); }
  }

  lemma ToKeeps(s: Slices, id: nat, state: AbilityState)
    requires GoodHistory(s) && Edge(StateOf(s, id), state)
    ensures GoodHistory(To(s, id, state))
  {
    var r, m := To(s, id, state), Move(id, StateOf(s, id), state);
    forall x: nat ensures StateOf(r, x) == StateAfter(r.moves, |r.moves|, x) { StateBefore(s.moves, m, |s.moves|, x); }
    forall i | 0 <= i < |r.moves|
      ensures r.moves[i].from == StateAfter(r.moves, i, r.moves[i].slice) && Edge(r.moves[i].from, r.moves[i].to)
    {
      StateBefore(s.moves, m, i, r.moves[i].slice);
    }
  }

  // The main slice, if the loader finds one, is the top one then; it is initialised and started.
  lemma StartKeeps(s: Slices, loaded: Option<nat>)
    requires Good(s, STATE_INITIAL) && (loaded.Some? ==> StateOf(s, loaded.value) == STATE_UNINITIALIZED)
    ensures Good(HandleStart(s, loaded), STATE_INACTIVE)
    ensures var r := HandleStart(s, loaded);
            && r.top == loaded && r.stack == [] && r.asked == s.asked
            && r.moves == s.moves + match loaded
                                    case Some(x) => [Move(x, STATE_UNINITIALIZED, STATE_INITIAL),
                                                     Move(x, STATE_INITIAL, STATE_INACTIVE)]
                                    case None => []
  {
    if loaded.Some? {
      var s1 := To(s.(top := loaded), loaded.value, STATE_INITIAL);
      ToKeeps(s.(top := loaded), loaded.value, STATE_INITIAL);
      ToKeeps(s1, loaded.value, STATE_INACTIVE);
    }
  }

  lemma TopKeeps(s: Slices, state: AbilityState, state': AbilityState)
    requires Good(s, state) && Edge(state, state') && Code(state') > Code(STATE_INITIAL)
    ensures Good(HandleTop(s, state'), state')
    ensures var r := HandleTop(s, state');
            && r.top == s.top && r.stack == s.stack && r.asked == s.asked
            && r.moves == s.moves + if s.top.Some? then [Move(s.top.value, state, state')] else []
  {
    if s.top.Some? { ToKeeps(s, s.top.value, state'); }
  }

  lemma {:induction false} StopAllKeeps(s: Slices)
    requires GoodHistory(s) && Unique(s.stack)
    requires forall id: nat :: id in s.stack ==> StateOf(s, id) == STATE_BACKGROUND
    requires forall id: nat :: id !in s.stack ==> StateOf(s, id) in {STATE_UNINITIALIZED, STATE_INITIAL}
    ensures GoodHistory(StopAll(s)) && StopAll(s).stack == [] && StopAll(s).top == s.top
    ensures forall id: nat :: StateOf(StopAll(s), id) in {STATE_UNINITIALIZED, STATE_INITIAL}
    decreases |s.stack|
  {
    if s.stack != [] {
      var s1 := s.(stack := s.stack[1..]);
      assert forall id: nat :: id in s.stack <==> id == s.stack[0] || id in s.stack[1..];
      ToKeeps(s1, s.stack[0], STATE_INITIAL);
      StopAllKeeps(To(s1, s.stack[0], STATE_INITIAL));
    }
  }

  lemma StopKeeps(s: Slices)
    requires Good(s, STATE_BACKGROUND)
    ensures Good(HandleStop(s), STATE_INITIAL) && HandleStop(s).top == None
  {
    if s.top.Some? {
      ToKeeps(s, s.top.value, STATE_INITIAL);
      StopAllKeeps(To(s, s.top.value, STATE_INITIAL));
    }
  }

  lemma ActivatedKeeps(s: Slices, target: nat)
    requires GoodHistory(s) && StateOf(s, target) != STATE_ACTIVE
    ensures var r := Activated(s, target);
            && GoodHistory(r) && r.stack == s.stack && r.top == s.top && StateOf(r, target) == STATE_ACTIVE
            && forall id: nat :: id != target ==> StateOf(r, id) == StateOf(s, id)
  {
    var s1 := if StateOf(s, target) == STATE_UNINITIALIZED then To(s, target, STATE_INITIAL) else s;
    if StateOf(s, target) == STATE_UNINITIALIZED { ToKeeps(s, target, STATE_INITIAL); }
    var s2 := if StateOf(s1, target) == STATE_INITIAL then To(s1, target, STATE_INACTIVE) else s1;
    if StateOf(s1, target) == STATE_INITIAL { ToKeeps(s1, target, STATE_INACTIVE); }
    ToKeeps(s2, target, STATE_ACTIVE);
  }

  // A present that is let through: the old top goes to the background and onto the stack.
  lemma PresentMoves(s: Slices, caller: nat, target: nat)
    requires Good(s, STATE_ACTIVE) && LegalForAdd(s, true, caller, target)
    ensures var r, top := Present(s, true, caller, target), s.top.value;
            && GoodHistory(r) && r.top == Some(target) && r.stack == [top] + s.stack
            && StateOf(r, target) == STATE_ACTIVE && StateOf(r, top) == STATE_BACKGROUND
            && forall id: nat :: id != target && id != top ==> StateOf(r, id) == StateOf(s, id)
  {
    var top := s.top.value;
    var s1 := To(s, top, STATE_INACTIVE);
    ToKeeps(s, top, STATE_INACTIVE);
    ActivatedKeeps(s1, target);
    ToKeeps(Activated(s1, target), top, STATE_BACKGROUND);
  }

  lemma PresentKeeps(s: Slices, caller: nat, target: nat)
    requires Good(s, STATE_ACTIVE) && target !in s.stack
    ensures Good(Present(s, true, caller, target), STATE_ACTIVE)
  {
    if LegalForAdd(s, true, caller, target) {
      PresentMoves(s, caller, target);
      var r := Present(s, true, caller, target);
      assert forall id: nat :: id in r.stack <==> id == s.top.value || id in s.stack;
    }
  }

  // Presenting keeps everything in order exactly when the target is not a running slice of the stack, which
  // the check before it does not rule out.
  lemma PresentKeepsExactly(s: Slices, caller: nat, target: nat)
    requires Good(s, STATE_ACTIVE)
    ensures Good(Present(s, true, caller, target), STATE_ACTIVE)
       <==> !(LegalForAdd(s, true, caller, target) && target in s.stack)
  {
    if LegalForAdd(s, true, caller, target) && target in s.stack {
      PresentBreaks(s, caller, target);
    } else if target !in s.stack {
      PresentKeeps(s, caller, target);
    }
  }

  lemma PresentBreaks(s: Slices, caller: nat, target: nat)
    requires Good(s, STATE_ACTIVE) && LegalForAdd(s, true, caller, target) && target in s.stack
    ensures !GoodStates(Present(s, true, caller, target), STATE_ACTIVE)
  {
    PresentMoves(s, caller, target);
    var r := Present(s, true, caller, target);
    assert r.top == Some(target) && target in r.stack;
  }

  lemma {:induction false} WithoutIs(ids: seq<nat>, id: nat)
    requires Unique(ids)
    ensures Unique(Without(ids, id)) && forall x: nat :: x in Without(ids, id) <==> x in ids && x != id
  {
    if ids != [] {
      var rest := ids[1..];
      assert forall k :: 0 <= k < |rest| ==> rest[k] == ids[k + 1] != ids[0];
      assert forall x: nat :: x in ids <==> x == ids[0] || x in rest;
      WithoutIs(rest, id);
      assert ids[0] !in rest && ids[0] !in Without(rest, id);
    }
  }

  // The top slice goes: the next one is active, and the one that went is stopped.
  lemma TerminateTopStates(s: Slices, top: nat, next: nat)
    requires s.top == Some(top) && s.stack != [] && next == s.stack[0] && top !in s.stack && MayRemove(s, true, top)
    ensures var r := Terminate(s, true, top);
            && r.top == Some(next) && r.stack == s.stack[1..] && StateOf(r, next) == STATE_ACTIVE
            && StateOf(r, top) == STATE_INITIAL && r.asked == s.asked
            && forall id: nat :: id != top && id != next ==> StateOf(r, id) == StateOf(s, id)
  {
  }

  lemma TerminateTopHistory(s: Slices, top: nat, next: nat)
    requires GoodHistory(s) && s.top == Some(top) && s.stack != [] && next == s.stack[0] && top !in s.stack
    requires StateOf(s, top) == STATE_ACTIVE && StateOf(s, next) == STATE_BACKGROUND
    ensures GoodHistory(Terminate(s, true, top))
  {
    var s1 := To(s, top, STATE_INACTIVE).(stack := s.stack[1..]);
    var s2 := To(s1, next, STATE_ACTIVE);
    var s3 := To(s2, top, STATE_BACKGROUND);
    ToKeeps(s, top, STATE_INACTIVE);
    ToKeeps(s1, next, STATE_ACTIVE);
    ToKeeps(s2, top, STATE_BACKGROUND);
    ToKeeps(s3, top, STATE_INITIAL);
  }

  lemma TerminateTop(s: Slices)
    requires Good(s, STATE_ACTIVE) && s.top.Some? && s.stack != []
    ensures var top, r := s.top.value, Terminate(s, true, s.top.value);
            && GoodHistory(r) && r.top == Some(s.stack[0]) && r.stack == s.stack[1..] && r.asked == s.asked
            && StateOf(r, s.stack[0]) == STATE_ACTIVE && StateOf(r, top) == STATE_INITIAL
            && forall id: nat :: id != top && id != s.stack[0] ==> StateOf(r, id) == StateOf(s, id)
  {
    assert s.stack[0] in s.stack;
    TerminateTopStates(s, s.top.value, s.stack[0]);
    TerminateTopHistory(s, s.top.value, s.stack[0]);
  }

  lemma TerminateKeeps(s: Slices, slice: nat)
    requires Good(s, STATE_ACTIVE)
    ensures Good(Terminate(s, true, slice), STATE_ACTIVE)
  {
    if MayRemove(s, true, slice) && s.stack != [] {
      if slice == s.top.value {
        TerminateTop(s);
        assert forall id: nat :: id in s.stack <==> id == s.stack[0] || id in s.stack[1..];
      } else {
        ToKeeps(s, slice, STATE_INITIAL);
        WithoutIs(s.stack, slice);
      }
    }
  }

  // Presenting a slice that does not run and terminating it again brings back the slices as they were, but for
  // the slice itself, which is then stopped.
  lemma PresentThenTerminate(s: Slices, caller: nat, target: nat)
    requires Good(s, STATE_ACTIVE) && LegalForAdd(s, true, caller, target) && target !in s.stack
    ensures var r := Terminate(Present(s, true, caller, target), true, target);
            && r.top == s.top && r.stack == s.stack && r.asked == s.asked
            && forall id: nat :: StateOf(r, id) == if id == target then STATE_INITIAL else StateOf(s, id)
  {
    PresentKeepsExactly(s, caller, target);
    PresentMoves(s, caller, target);
    TerminateTop(Present(s, true, caller, target));
  }

  // ---------- which calls do something, and the callbacks they make ----------

  // A started slice of an active ability presents any other slice that is neither on top nor active; nothing else
  // is let through.
  lemma PresentsExactly(s: Slices, active: bool, caller: nat, target: nat)
    ensures Present(s, active, caller, target) != s
       <==> active && s.top.Some? && StateOf(s, caller) !in {STATE_UNINITIALIZED, STATE_INITIAL}
            && Some(target) != s.top && StateOf(s, target) != STATE_ACTIVE
  {
    if LegalForAdd(s, active, caller, target) {
      assert |Present(s, active, caller, target).moves| > |s.moves|;
    }
  }

  // A started slice of an active ability terminates if it is on top or on the stack; no other does.
  lemma TerminatesExactly(s: Slices, active: bool, slice: nat)
    ensures Terminate(s, active, slice) != s
       <==> active && s.top.Some? && StateOf(s, slice) !in {STATE_UNINITIALIZED, STATE_INITIAL}
            && (Some(slice) == s.top || slice in s.stack)
  {
    if MayRemove(s, active, slice) && s.stack != [] { assert |Terminate(s, active, slice).moves| > |s.moves|; }
  }

  // Slices in the background that are stopped, one after the other.
  function Stops(ids: seq<nat>): seq<Move> {
    seq(|ids|, k requires 0 <= k < |ids| => Move(ids[k], STATE_BACKGROUND, STATE_INITIAL))
  }

  // With the ability the top slice is stopped first and then the stacked ones from the top down, each once.
  lemma StopCallbacks(s: Slices)
    requires Good(s, STATE_BACKGROUND)
    ensures HandleStop(s).moves == s.moves + match s.top case Some(top) => Stops([top] + s.stack) case None => []
    ensures HandleStop(s).asked == s.asked
  {
    if s.top.Some? {
      StopAllCallbacks(To(s, s.top.value, STATE_INITIAL));
      assert Stops([s.top.value] + s.stack) == [Move(s.top.value, STATE_BACKGROUND, STATE_INITIAL)] + Stops(s.stack);
    }
  }

  lemma {:induction false} StopAllCallbacks(s: Slices)
    requires Unique(s.stack) && forall id: nat :: id in s.stack ==> StateOf(s, id) == STATE_BACKGROUND
    ensures StopAll(s).moves == s.moves + Stops(s.stack) && StopAll(s).asked == s.asked
    decreases |s.stack|
  {
    if s.stack != [] {
      assert forall id: nat :: id in s.stack <==> id == s.stack[0] || id in s.stack[1..];
      var s1 := To(s.(stack := s.stack[1..]), s.stack[0], STATE_INITIAL);
      assert s.stack[0] in s.stack && s1.moves == s.moves + [Move(s.stack[0], STATE_BACKGROUND, STATE_INITIAL)];
      StopAllCallbacks(s1);
      assert Stops(s.stack) == [Move(s.stack[0], STATE_BACKGROUND, STATE_INITIAL)] + Stops(s.stack[1..]);
    }
  }

  // From its state to active.
  function PathToActive(slice: nat, state: AbilityState): seq<Move> {
    var started := [Move(slice, STATE_INITIAL, STATE_INACTIVE), Move(slice, STATE_INACTIVE, STATE_ACTIVE)];
    if state == STATE_UNINITIALIZED then [Move(slice, STATE_UNINITIALIZED, STATE_INITIAL)] + started
    else if state == STATE_INITIAL then started
    else [Move(slice, state, STATE_ACTIVE)]
  }

  // The old top is inactive before the target becomes active, and in the background after it.
  lemma PresentCallbacks(s: Slices, caller: nat, target: nat)
    requires Good(s, STATE_ACTIVE) && LegalForAdd(s, true, caller, target)
    ensures var r, top := Present(s, true, caller, target), s.top.value;
            && r.asked == s.asked
            && r.moves == s.moves + [Move(top, STATE_ACTIVE, STATE_INACTIVE)] + PathToActive(target, StateOf(s, target))
                          + [Move(top, STATE_INACTIVE, STATE_BACKGROUND)]
  {
    var top := s.top.value;
    ActivatedCallbacks(To(s, top, STATE_INACTIVE), target);
    ToKeeps(s, top, STATE_INACTIVE);
    ActivatedKeeps(To(s, top, STATE_INACTIVE), target);
  }

  lemma ActivatedCallbacks(s: Slices, target: nat)
    requires StateOf(s, target) != STATE_ACTIVE
    ensures Activated(s, target).moves == s.moves + PathToActive(target, StateOf(s, target))
    ensures Activated(s, target).asked == s.asked
  {
  }

  // The next slice is active before the one that goes reaches the background and is stopped.
  lemma TerminateTopCallbacks(s: Slices)
    requires Good(s, STATE_ACTIVE) && s.top.Some? && s.stack != []
    ensures var top, next := s.top.value, s.stack[0];
            Terminate(s, true, top).moves
            == s.moves + [Move(top, STATE_ACTIVE, STATE_INACTIVE), Move(next, STATE_BACKGROUND, STATE_ACTIVE),
                          Move(top, STATE_INACTIVE, STATE_BACKGROUND), Move(top, STATE_BACKGROUND, STATE_INITIAL)]
  {
    assert s.stack[0] in s.stack;
  }

  // A slice in the background is stopped and leaves the stack as it was without it.
  lemma TerminateStacked(s: Slices, a: seq<nat>, slice: nat, b: seq<nat>)
    requires Good(s, STATE_ACTIVE) && s.top.Some? && s.stack == a + [slice] + b
    ensures var r := Terminate(s, true, slice);
            && r.top == s.top && r.stack == a + b && r.asked == s.asked
            && r.moves == s.moves + [Move(slice, STATE_BACKGROUND, STATE_INITIAL)]
  {
    assert s.stack[|a|] == slice && slice in s.stack;
    WithoutOne(a, slice, b);
  }

  lemma {:induction false} WithoutOne(a: seq<nat>, id: nat, b: seq<nat>)
    requires Unique(a + [id] + b)
    ensures Without(a + [id] + b, id) == a + b
  {
    var s := a + [id] + b;
    if a == [] {
      assert s[1..] == b;
      WithoutNone(b, id) by { assert forall k :: 0 <= k < |b| ==> s[k + 1] == b[k] && s[k + 1] != s[0]; }
    } else {
      assert s[1..] == a[1..] + [id] + b && s[|a|] == id != s[0] == a[0];
      assert forall j, k :: 0 <= j < k < |s[1..]| ==> s[1..][j] == s[j + 1] && s[1..][k] == s[k + 1];
      WithoutOne(a[1..], id, b);
      assert a + b == [a[0]] + (a[1..] + b);
    }
  }

  lemma {:induction false} WithoutNone(ids: seq<nat>, id: nat)
    requires id !in ids
    ensures Without(ids, id) == ids
  {
    if ids != [] { WithoutNone(ids[1..], id); }
  }

  // The last slice does not go: the ability is asked to, and nothing else happens.
  lemma TerminateLast(s: Slices, slice: nat)
    requires Good(s, STATE_ACTIVE) && s.top == Some(slice) && s.stack == []
    ensures Terminate(s, true, slice) == s.(asked := s.asked + 1)
  {
  }
}
