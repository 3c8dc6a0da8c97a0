/** Slices, their stack and their scheduler, updated in place. */
module AbilitySliceSchedulers {
  import opened Options
  import opened AbilityStates
  import opened AbilitySlices

  datatype SliceCall = INIT | START | INACTIVATE | ACTIVATE | TO_BACKGROUND | STOP

  // The state each callback leads to.
  function LeadsTo(call: SliceCall): AbilityState {
    match call
    case INIT => STATE_INITIAL
    case START => STATE_INACTIVE
    case INACTIVATE => STATE_INACTIVE
    case ACTIVATE => STATE_ACTIVE
    case TO_BACKGROUND => STATE_BACKGROUND
    case STOP => STATE_INITIAL
  }

  class AbilitySlice {
    const id: nat
    var sliceState: AbilityState

    constructor (id: nat)
      ensures this.id == id && sliceState == STATE_UNINITIALIZED
    {
      this.id := id;
      sliceState := STATE_UNINITIALIZED;
    }

    method Init()
      modifies this
      ensures sliceState == STATE_INITIAL
    {
      sliceState := STATE_INITIAL;
    }

    method OnStart()
      modifies this
      ensures sliceState == STATE_INACTIVE
    {
      sliceState := STATE_INACTIVE;
    }

    method OnInactive()
      modifies this
      ensures sliceState == STATE_INACTIVE
    {
      sliceState := STATE_INACTIVE;
    }

    method OnActive()
      modifies this
      ensures sliceState == STATE_ACTIVE
    {
      sliceState := STATE_ACTIVE;
    }

    method OnBackground()
      modifies this
      ensures sliceState == STATE_BACKGROUND
    {
      sliceState := STATE_BACKGROUND;
    }

    method OnStop()
      modifies this
      ensures sliceState == STATE_INITIAL
    {
      sliceState := STATE_INITIAL;
    }

    // One of the callbacks.
    method Receive(call: SliceCall)
      modifies this
      ensures sliceState == LeadsTo(call)
    {
      match call {
        case INIT => Init();
        case START => OnStart();
        case INACTIVATE => OnInactive();
        case ACTIVATE => OnActive();
        case TO_BACKGROUND => OnBackground();
        case STOP => OnStop();
      }
    }
  }

  ghost function Ids(slices: seq<AbilitySlice>): (r: seq<nat>)
    ensures |r| == |slices|
  {
    seq(|slices|, k requires 0 <= k < |slices| => slices[k].id)
  }

  class AbilitySliceStack {
    var slices: seq<AbilitySlice>

    constructor ()
      ensures slices == []
    {
      slices := [];
    }

    method Exist(slice: AbilitySlice) returns (found: bool)
      ensures found == (slice in slices)
    {
      for i := 0 to |slices|
        invariant slice !in slices[..i]
      {
        if slices[i] == slice { return true; }
      }
      return false;
    }

    method Push(slice: AbilitySlice)
      modifies this
      ensures slices == [slice] + old(slices)
    {
      slices := [slice] + slices;
    }

    method Pop() returns (slice: AbilitySlice?)
      modifies this
      ensures if old(slices) == [] then slice == null && slices == []
              else slice == old(slices[0]) && slices == old(slices[1..])
    {
      if |slices| == 0 { return null; }
      slice, slices := slices[0], slices[1..];
    }

    // Every occurrence goes.
    method Remove(slice: AbilitySlice)
      requires forall s :: s in slices && s.id == slice.id ==> s == slice
      modifies this
      ensures Ids(slices) == Without(old(Ids(slices)), slice.id)
      ensures forall s :: s in slices ==> s in old(slices)
    {
      ghost var before := slices;
      var kept: seq<AbilitySlice> := [];
      for i := 0 to |slices|
        invariant slices == before && (forall s :: s in kept ==> s in before)
        invariant Without(Ids(before), slice.id) == Ids(kept) + Without(Ids(before[i..]), slice.id)
      {
        assert Ids(before[i..])[0] == before[i].id && Ids(before[i..])[1..] == Ids(before[i + 1..]);
        if slices[i] != slice {
          assert before[i] in slices;
          kept := kept + [slices[i]];
        }
      }
      slices := kept;
    }
  }

  // Every number with a state is that of a slice.
  ghost predicate Covered(slices: set<AbilitySlice>, states: map<nat, AbilityState>) {
    states.Keys <= set s | s in slices :: s.id
  }

  lemma StaysCovered(slices: set<AbilitySlice>, states: map<nat, AbilityState>, slice: AbilitySlice,
                     state: AbilityState)
    requires Covered(slices, states)
    ensures Covered(slices + {slice}, states[slice.id := state])
  {
    assert slice in slices + {slice} && forall s :: s in slices ==> s in slices + {slice};
  }

  class AbilitySliceScheduler {
    const abilitySliceStack: AbilitySliceStack
    var topAbilitySlice: AbilitySlice?
    var known: set<AbilitySlice>   // the slices it has met; their application keeps them
    ghost var states: map<nat, AbilityState>
    ghost var moves: seq<Move>
    ghost var asked: nat

    ghost predicate Valid()
      reads this, abilitySliceStack, known
    {
      && (forall s :: s in known ==> s.id in states && s.sliceState == states[s.id])
      && Covered(known, states)
      && (forall s, s' :: s in known && s' in known && s.id == s'.id ==> s == s')
      && (topAbilitySlice != null ==> topAbilitySlice in known)
      && (forall s :: s in abilitySliceStack.slices ==> s in known)
    }

    ghost function State(): Slices
      reads this, abilitySliceStack
    {
      var top := if topAbilitySlice == null then None else Some(topAbilitySlice.id);
      Slices(states, top, Ids(abilitySliceStack.slices), moves, asked)
    }

    ghost function Repr(): set<object>
      reads this
    {
      {this, abilitySliceStack} + known
    }

    // A slice it has met, or one that is not initialised and has a number of its own.
    ghost predicate Admits(slice: AbilitySlice)
      reads this, slice
    {
      || slice in known
      || (slice.sliceState == STATE_UNINITIALIZED && slice.id !in states && forall s :: s in known ==> s.id != slice.id)
    }

    constructor ()
      ensures Valid() && fresh(Repr()) && State() == NO_SLICES
    {
      abilitySliceStack := new AbilitySliceStack();
      topAbilitySlice, known, states, moves, asked := null, {}, map[], [], 0;
    }

    // The slice with the number: one it has met, or a new one.
    method SliceFor(id: nat) returns (slice: AbilitySlice)
      requires Valid()
      ensures Admits(slice) && slice.id == id && (slice in known || fresh(slice))
    {
      if s :| s in known && s.id == id {
        return s;
      }
      slice := new AbilitySlice(id);
    }

    // One callback of a slice.
    method Callback(slice: AbilitySlice, call: SliceCall)
      requires Valid() && Admits(slice)
      modifies this`known, this`states, this`moves, slice
      ensures Valid() && State() == To(old(State()), slice.id, LeadsTo(call)) && slice in known
              && known == old(known) + {slice}
      ensures slice.sliceState == LeadsTo(call)
    {
      hide Covered;
      slice.Receive(call);
      ghost var state := LeadsTo(call);
      StaysCovered(known, states, slice, state);
      known := known + {slice};
      moves := moves + [Move(slice.id, StateOf(State(), slice.id), state)];
      states := states[slice.id := state];
    }

    method HandleStartAbilitySlice(loaded: AbilitySlice?)
      requires Valid() && (loaded != null ==> Admits(loaded))
      modifies Repr(), loaded
      ensures Valid() && State() == HandleStart(old(State()), if loaded == null then None else Some(loaded.id))
      ensures (if loaded == null then known == old(known) else known <= old(known) + {loaded})
    {
      hide Covered;
      var slice := if topAbilitySlice == null then loaded else topAbilitySlice;
      if slice == null { return; }
      Callback(slice, INIT);
      topAbilitySlice := slice;
      Callback(slice, START);
    }

    // Inactive, active and background.
    method HandleTopAbilitySlice(call: SliceCall)
      requires Valid()
      modifies Repr()
      ensures Valid() && State() == HandleTop(old(State()), LeadsTo(call)) && known == old(known)
    {
      hide Covered;
      if topAbilitySlice == null { return; }
      Callback(topAbilitySlice, call);
    }

    // Off the stack.
    method TakeNext() returns (slice: AbilitySlice)
      requires Valid() && abilitySliceStack.slices != []
      modifies abilitySliceStack
      ensures Valid() && State() == old(State()).(stack := old(State()).stack[1..])
      ensures slice in known && slice.id == old(State()).stack[0]
    {
      hide Covered;
      ghost var ids := Ids(abilitySliceStack.slices);
      slice := abilitySliceStack.Pop();
      assert Ids(abilitySliceStack.slices) == ids[1..];
    }

    method HandleStopAbilitySlice()
      requires Valid()
      modifies Repr()
      ensures Valid() && State() == HandleStop(old(State())) && known == old(known)
    {
      hide Covered, To;
      if topAbilitySlice == null { return; }
      Callback(topAbilitySlice, STOP);
      ghost var s := State();
      while |abilitySliceStack.slices| > 0
        invariant Valid() && known == old(known) && StopAll(State()) == StopAll(s)
        decreases |abilitySliceStack.slices|
      {
        var slice := TakeNext();
        Callback(slice, STOP);
      }
      topAbilitySlice := null;
    }

    // As far as the target is not started, it is.
    method Activate(target: AbilitySlice)
      requires Valid() && Admits(target)
      modifies this`known, this`states, this`moves, target
      ensures Valid() && State() == Activated(old(State()), target.id) && known == old(known) + {target}
    {
      hide Covered;
      if target.sliceState == STATE_UNINITIALIZED { Callback(target, INIT); }
      if target.sliceState == STATE_INITIAL { Callback(target, START); }
      Callback(target, ACTIVATE);
    }

    method CheckLegalForAdd(active: bool, caller: AbilitySlice, target: AbilitySlice) returns (legal: bool)
      requires Valid() && Admits(caller) && Admits(target)
      ensures legal == LegalForAdd(State(), active, caller.id, target.id)
    {
      hide Covered;
      return topAbilitySlice != null && active && caller.sliceState !in {STATE_UNINITIALIZED, STATE_INITIAL}
             && target.sliceState != STATE_ACTIVE && target != topAbilitySlice;
    }

    method AddAbilitySlice(active: bool, caller: AbilitySlice, target: AbilitySlice)
      requires Valid() && Admits(caller) && Admits(target)
      modifies Repr(), target
      ensures Valid() && State() == Present(old(State()), active, caller.id, target.id)
      ensures known <= old(known) + {target}
    {
      hide Covered, StateOf, Activated;
      var legal := CheckLegalForAdd(active, caller, target);
      if !legal { return; }
      MoveTop(STATE_ACTIVE, INACTIVATE);
      Activate(target);
      MoveTop(STATE_INACTIVE, TO_BACKGROUND);
      ReplaceTop(target);
    }

    // The top slice has a callback if it is in the first state.
    method MoveTop(from: AbilityState, call: SliceCall)
      requires Valid() && topAbilitySlice != null
      modifies this`known, this`states, this`moves, topAbilitySlice
      ensures Valid() && known == old(known)
      ensures var s, top := old(State()), topAbilitySlice.id;
              State() == if StateOf(s, top) == from then To(s, top, LeadsTo(call)) else s
    {
      hide Covered;
      if topAbilitySlice.sliceState == from { Callback(topAbilitySlice, call); }
    }

    method ReplaceTop(target: AbilitySlice)
      requires Valid() && topAbilitySlice != null && target in known
      modifies this`topAbilitySlice, abilitySliceStack
      ensures Valid()
      ensures State() == old(State()).(stack := [old(topAbilitySlice).id] + old(State()).stack, top := Some(target.id))
    {
      hide Covered;
      ghost var ids := Ids(abilitySliceStack.slices);
      abilitySliceStack.Push(topAbilitySlice);
      assert Ids(abilitySliceStack.slices) == [topAbilitySlice.id] + ids;
      topAbilitySlice := target;
    }

    method MayRemoveSlice(active: bool, slice: AbilitySlice) returns (may: bool)
      requires Valid() && Admits(slice)
      ensures may == MayRemove(State(), active, slice.id)
    {
      hide Covered;
      var exist := abilitySliceStack.Exist(slice);
      ghost var slices := abilitySliceStack.slices;
      assert exist == (slice.id in Ids(slices)) by {
        if k :| 0 <= k < |slices| && slices[k] == slice { assert Ids(slices)[k] == slice.id; }
        if slice.id in Ids(slices) {
          var k :| 0 <= k < |slices| && Ids(slices)[k] == slice.id;
          assert slices[k] in slices;
        }
      }
      return topAbilitySlice != null && active && (exist || slice == topAbilitySlice)
             && slice.sliceState !in {STATE_UNINITIALIZED, STATE_INITIAL};
    }

    method RemoveAbilitySlice(active: bool, slice: AbilitySlice)
      requires Valid() && Admits(slice)
      modifies Repr()
      ensures Valid() && State() == Terminate(old(State()), active, slice.id) && known == old(known)
    {
      hide Covered;
      var may := MayRemoveSlice(active, slice);
      if !may { return; }
      if |abilitySliceStack.slices| == 0 {
        asked := asked + 1;
      } else if slice == topAbilitySlice {
        RemoveTop();
      } else {
        RemoveStacked(slice);
      }
    }

    // A slice in the background stops and leaves the stack.
    method RemoveStacked(slice: AbilitySlice)
      requires Valid() && Admits(slice) && slice.id in Ids(abilitySliceStack.slices)
      modifies Repr()
      ensures Valid() && known == old(known)
      ensures var s := old(State());
              State() == To(s, slice.id, STATE_INITIAL).(stack := AbilitySlices.Without(s.stack, slice.id))
    {
      hide Covered;
      ghost var k :| 0 <= k < |abilitySliceStack.slices| && Ids(abilitySliceStack.slices)[k] == slice.id;
      assert abilitySliceStack.slices[k] in known;
      Callback(slice, STOP);
      abilitySliceStack.Remove(slice);
    }

    // The top slice goes, the next one comes to the front.
    method RemoveTop()
      requires Valid() && topAbilitySlice != null && abilitySliceStack.slices != []
      requires MayRemove(State(), true, topAbilitySlice.id)
      modifies Repr()
      ensures Valid() && State() == Terminate(old(State()), true, old(topAbilitySlice).id) && known == old(known)
    {
      hide Covered, To;
      var next := ActivateNext();
      Callback(topAbilitySlice, TO_BACKGROUND);
      Callback(topAbilitySlice, STOP);
      topAbilitySlice := next;
    }

    method ActivateNext() returns (next: AbilitySlice)
      requires Valid() && topAbilitySlice != null && abilitySliceStack.slices != []
      modifies Repr()
      ensures Valid() && known == old(known) && next in known && next.id == old(State()).stack[0]
      ensures topAbilitySlice == old(topAbilitySlice)
      ensures var s := old(State());
              State() == To(To(s, s.top.value, STATE_INACTIVE).(stack := s.stack[1..]), s.stack[0], STATE_ACTIVE)
    {
      hide Covered;
      Callback(topAbilitySlice, INACTIVATE);
      next := TakeNext();
      Callback(next, ACTIVATE);
    }
  }
}
