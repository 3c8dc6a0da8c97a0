/** An application's abilities and the thread that drives them, updated in place. */
module AbilityThreads {
  import opened Options
  import opened AbilityStates
  import opened AbilitySlices
  import opened AbilitySliceSchedulers
  import L = AbilityLifecycles

  ghost function IdOf(slice: AbilitySlice?): Option<nat> { if slice == null then None else Some(slice.id) }

  class Ability {
    var abilityState: AbilityState
    var abilitySliceManager: AbilitySliceScheduler?
    ghost var slices: Slices   // what the slice manager holds
    ghost var Repr: set<object>

    ghost predicate Valid()
      reads this, Repr
    {
      && this in Repr
      && (abilitySliceManager != null ==>
            && abilitySliceManager in Repr && abilitySliceManager.abilitySliceStack in Repr
            && abilitySliceManager.known <= Repr && this !in abilitySliceManager.Repr()
            && abilitySliceManager.Valid() && abilitySliceManager.State() == slices)
    }

    ghost function State(): L.Ability
      reads this
    {
      L.Ability(abilityState, abilitySliceManager != null, slices)
    }

    constructor ()
      ensures Valid() && fresh(Repr) && State() == L.FRESH_ABILITY
    {
      abilityState, abilitySliceManager, slices := STATE_UNINITIALIZED, null, NO_SLICES;
      Repr := {this};
    }

    method Init(managed: bool)
      requires Valid() && State() == L.FRESH_ABILITY
      modifies this
      ensures Valid() && fresh(Repr - old(Repr)) && State() == L.Init(managed)
    {
      if managed {
        abilitySliceManager := new AbilitySliceScheduler();
        Repr := Repr + abilitySliceManager.Repr();
      }
      abilityState := STATE_INITIAL;
    }

    // A slice the ability may work with: its own, or a new one.
    ghost predicate Admits(slice: AbilitySlice)
      requires Valid()
      reads this, Repr, slice
    {
      abilitySliceManager != null ==> abilitySliceManager.Admits(slice) && this as object != slice
    }

    // The slice with the number: its own, or a new one.
    method SliceFor(id: nat) returns (slice: AbilitySlice)
      requires Valid()
      ensures Admits(slice) && slice.id == id && (slice in Repr || fresh(slice))
    {
      if abilitySliceManager == null {
        slice := new AbilitySlice(id);
      } else {
        slice := abilitySliceManager.SliceFor(id);
      }
    }

    ghost predicate Grown(before: set<object>, slice: AbilitySlice?)
      reads this
    {
      before <= Repr && forall o :: o in Repr ==> o in before || o == slice
    }

    method Present(caller: AbilitySlice, target: AbilitySlice)
      requires Valid() && abilitySliceManager != null && Admits(caller) && Admits(target)
      modifies Repr, target
      ensures Valid() && Grown(old(Repr), target)
      ensures var after := AbilitySlices.Present(old(slices), abilityState == STATE_ACTIVE, caller.id, target.id);
              State() == old(State()).(slices := after)
    {
      abilitySliceManager.AddAbilitySlice(abilityState == STATE_ACTIVE, caller, target);
      slices, Repr := abilitySliceManager.State(), Repr + abilitySliceManager.known;
    }

    method Terminate(slice: AbilitySlice)
      requires Valid() && abilitySliceManager != null && Admits(slice)
      modifies Repr
      ensures Valid() && Repr == old(Repr)
      ensures State()
              == old(State()).(slices := AbilitySlices.Terminate(old(slices), abilityState == STATE_ACTIVE, slice.id))
    {
      abilitySliceManager.RemoveAbilitySlice(abilityState == STATE_ACTIVE, slice);
      slices := abilitySliceManager.State();
    }

    // ok is false where the code calls exit(-1).
    method OnStart(loaded: AbilitySlice?) returns (ok: bool)
      requires Valid() && (loaded != null ==> Admits(loaded))
      modifies Repr, loaded
      ensures ok == L.OnStart(old(State()), IdOf(loaded)).Some?
      ensures Valid() && Grown(old(Repr), loaded) && (ok ==> Some(State()) == L.OnStart(old(State()), IdOf(loaded)))
    {
      if abilityState != STATE_INITIAL { return false; }
      if abilitySliceManager != null {
        abilitySliceManager.HandleStartAbilitySlice(loaded);
        slices, Repr := abilitySliceManager.State(), Repr + abilitySliceManager.known;
      }
      abilityState := STATE_INACTIVE;
      return true;
    }

    method Hand(call: SliceCall)
      requires Valid()
      modifies Repr
      ensures Valid() && Repr == old(Repr) && State() == L.Handed(old(State()), LeadsTo(call))
    {
      if abilitySliceManager != null {
        abilitySliceManager.HandleTopAbilitySlice(call);
        slices := abilitySliceManager.State();
      }
      abilityState := LeadsTo(call);
    }

    method OnInactive() returns (ok: bool)
      requires Valid()
      modifies Repr
      ensures ok == L.OnInactive(old(State())).Some?
      ensures Valid() && Repr == old(Repr) && (ok ==> Some(State()) == L.OnInactive(old(State())))
    {
      if abilityState != STATE_ACTIVE { return false; }
      Hand(INACTIVATE);
      return true;
    }

    method OnActive() returns (ok: bool)
      requires Valid()
      modifies Repr
      ensures ok == L.OnActive(old(State())).Some?
      ensures Valid() && Repr == old(Repr) && (ok ==> Some(State()) == L.OnActive(old(State())))
    {
      if abilityState != STATE_INACTIVE && abilityState != STATE_BACKGROUND { return false; }
      Hand(ACTIVATE);
      return true;
    }

    method OnBackground() returns (ok: bool)
      requires Valid()
      modifies Repr
      ensures ok == L.OnBackground(old(State())).Some?
      ensures Valid() && Repr == old(Repr) && (ok ==> Some(State()) == L.OnBackground(old(State())))
    {
      if abilityState != STATE_INACTIVE { return false; }
      Hand(TO_BACKGROUND);
      return true;
    }

    method OnStop() returns (ok: bool)
      requires Valid()
      modifies Repr
      ensures ok == L.OnStop(old(State())).Some?
      ensures Valid() && Repr == old(Repr) && (ok ==> Some(State()) == L.OnStop(old(State())))
    {
      if abilityState != STATE_BACKGROUND { return false; }
      if abilitySliceManager != null {
        abilitySliceManager.HandleStopAbilitySlice();
        slices := abilitySliceManager.State();
      }
      abilitySliceManager := null;
      abilityState := STATE_INITIAL;
      return true;
    }

    // Any state that may still be left goes to inactive first.
    method ToInactive(loaded: AbilitySlice?) returns (ok: bool)
      requires Valid() && (loaded != null ==> Admits(loaded))
      modifies Repr, loaded
      ensures ok == L.ToInactive(old(State()), IdOf(loaded)).Some?
      ensures Valid() && Grown(old(Repr), loaded) && (ok ==> Some(State()) == L.ToInactive(old(State()), IdOf(loaded)))
    {
      ok := true;
      if abilityState == STATE_INITIAL { ok := OnStart(loaded); }
      if ok && abilityState == STATE_ACTIVE { ok := OnInactive(); }
    }

    method ToBackground() returns (ok: bool)
      requires Valid()
      modifies Repr
      ensures ok == L.ToBackground(old(State())).Some?
      ensures Valid() && Repr == old(Repr) && (ok ==> Some(State()) == L.ToBackground(old(State())))
    {
      ok := true;
      if abilityState == STATE_INACTIVE { ok := OnBackground(); }
    }

    method HandleLifecycleTransaction(target: int, loaded: AbilitySlice?) returns (ok: bool)
      requires Valid() && (loaded != null ==> Admits(loaded))
      modifies Repr, loaded
      ensures ok == L.Handle(old(State()), target, IdOf(loaded)).Some?
      ensures Valid() && Grown(old(Repr), loaded)
              && (ok ==> Some(State()) == L.Handle(old(State()), target, IdOf(loaded)))
    {
      ok := ToInactive(loaded);
      if !ok { return; }
      if target == Code(STATE_INITIAL) {
        ok := ToBackground();
        if ok { ok := OnStop(); }
      } else if target == Code(STATE_ACTIVE) {
        ok := OnActive();
      } else if target == Code(STATE_BACKGROUND) {
        ok := ToBackground();
      }
    }
  }

  ghost predicate Fits(a: Ability, v: L.Ability)
    reads a, a.Repr
  {
    a.Valid() && a.State() == v
  }

  class AbilityThread {
    var abilities: map<nat, Ability>
    ghost var view: map<nat, L.Ability>   // what the abilities hold
    ghost var reports: seq<(nat, AbilityState)>
    ghost var ended: seq<Slices>
    ghost var Repr: set<object>

    ghost predicate Valid()
      reads this, Repr
    {
      && this in Repr && abilities.Keys == view.Keys
      && (forall t :: t in abilities ==> Holds(t))
      && (forall t, u :: t in abilities && u in abilities && t != u ==> abilities[t].Repr !! abilities[u].Repr)
    }

    // The ability is as its view says and works with objects of the thread's.
    ghost predicate Holds(t: nat)
      requires t in abilities && abilities.Keys == view.Keys
      reads this, Repr
    {
      && abilities[t] in Repr && abilities[t].Repr <= Repr
      && abilities[t] in abilities[t].Repr && this !in abilities[t].Repr
      && Fits(abilities[t], view[t])
    }

    ghost function State(): L.Thread
      reads this
    {
      L.Thread(view, reports, ended)
    }

    constructor ()
      ensures Valid() && fresh(Repr) && State() == L.NO_ABILITIES
    {
      abilities, view, reports, ended, Repr := map[], map[], [], [], {this};
    }

    // Recording a report stands for telling the service.
    ghost method Report(token: nat, state: AbilityState)
      requires Valid()
      modifies this`reports
      ensures Valid() && State() == L.Report(old(State()), token, state)
    {
      reports := reports + [(token, state)];
    }

    method Create(token: nat, managed: bool)
      requires Valid() && token !in abilities
      modifies this`abilities, this`view, this`Repr
      ensures Valid() && fresh(Repr - old(Repr)) && token in abilities && fresh(abilities[token].Repr)
      ensures view == old(view)[token := L.Init(managed)]
    {
      var ability := new Ability();
      ability.Init(managed);
      Insert(token, ability);
    }

    method Insert(token: nat, ability: Ability)
      requires Valid() && token !in abilities && ability.Valid() && ability.Repr !! Repr
      modifies this`abilities, this`view, this`Repr
      ensures Valid() && Repr == old(Repr) + ability.Repr
      ensures abilities == old(abilities)[token := ability] && view == old(view)[token := ability.State()]
    {
      hide Ability.State;
      abilities, view := abilities[token := ability], view[token := ability.State()];
      Repr := Repr + ability.Repr;
    }

    method Erase(token: nat)
      requires Valid() && token in abilities
      modifies this`abilities, this`view, this`ended
      ensures Valid() && view == old(view) - {token} && ended == old(ended) + [old(view[token]).slices]
    {
      ended := ended + [view[token].slices];
      abilities, view := abilities - {token}, view - {token};
    }

    // A slice the ability may work with: its own, or a new one no other ability works with.
    ghost predicate Admits(token: nat, slice: AbilitySlice)
      requires Valid()
      reads this, Repr, slice
    {
      token in abilities ==> abilities[token].Admits(slice) && slice !in Repr - abilities[token].Repr
    }

    // What the thread works with that it did not work with before is the slice it was given, or new.
    twostate predicate GrownBy(slice: AbilitySlice?)
      reads this
    {
      forall o :: o in Repr ==> o in old(Repr) || o == slice || fresh(o)
    }

    // After the ability has changed.
    ghost method Note(token: nat)
      requires token in abilities && this in Repr && abilities.Keys == view.Keys
      requires abilities[token] in Repr && this !in abilities[token].Repr && abilities[token].Valid()
      requires forall t :: t in abilities && t != token ==> Holds(t)
      requires forall t, u :: t in abilities && u in abilities && t != u ==> abilities[t].Repr !! abilities[u].Repr
      modifies this`view, this`Repr
      ensures Valid() && view == old(view)[token := abilities[token].State()]
              && Repr == old(Repr) + abilities[token].Repr
    {
      view, Repr := view[token := abilities[token].State()], Repr + abilities[token].Repr;
    }

    method Drive(token: nat, target: int, loaded: AbilitySlice?) returns (ok: bool)
      requires Valid() && token in abilities && (loaded != null ==> Admits(token, loaded))
      modifies Repr, loaded
      ensures abilities == old(abilities) && reports == old(reports) && ended == old(ended)
      ensures ok == L.Handle(old(view[token]), target, IdOf(loaded)).Some?
      ensures Valid() && GrownBy(loaded)
      ensures ok ==> view == old(view)[token := L.Handle(old(view[token]), target, IdOf(loaded)).value]
    {
      hide Ability.Valid, L.Handle;
      ok := abilities[token].HandleLifecycleTransaction(target, loaded);
      Note(token);
    }

    // The ability's state goes to the service; a stopped ability is forgotten.
    method Finish(token: nat)
      requires Valid() && token in abilities
      modifies this`abilities, this`view, this`reports, this`ended
      ensures Valid()
      ensures var a := old(view[token]); State() == L.Report(L.Settled(old(State()), token, a), token, a.state)
    {
      assert view == view[token := view[token]];
      var state := abilities[token].abilityState;
      Report(token, state);
      if state == STATE_INITIAL { Erase(token); }
    }

    method DriveTo(token: nat, target: int, loaded: AbilitySlice?) returns (ok: bool)
      requires Valid() && token in abilities && (loaded != null ==> Admits(token, loaded))
      modifies Repr, loaded
      ensures abilities == old(abilities) && reports == old(reports) && ended == old(ended)
      ensures var done := Advanced(old(view[token]), target, IdOf(loaded));
              ok == done.Some? && Valid() && GrownBy(loaded) && (ok ==> view == old(view)[token := done.value])
    {
      if Code(abilities[token].abilityState) == target {
        assert view == view[token := view[token]];
        return true;
      }
      ok := Drive(token, target, loaded);
    }

    // An ability that is there moves to the target.
    method Advance(token: nat, target: int, loaded: AbilitySlice?) returns (ok: bool)
      requires Valid() && token in abilities && (loaded != null ==> Admits(token, loaded))
      modifies Repr, loaded
      ensures var done := Advanced(old(view[token]), target, IdOf(loaded));
              && ok == done.Some? && Valid() && GrownBy(loaded)
              && (ok ==> State() == Finished(old(State()), token, done.value))
    {
      hide Ability.Valid, Fits, L.Settled, L.Handle;
      ghost var before := State();
      ok := DriveTo(token, target, loaded);
      if ok {
        SettledTwice(before, token, view[token]);
        assert State() == before.(abilities := before.abilities[token := view[token]]);
        Finish(token);
      }
    }

    method CreateFor(token: nat, managed: bool, loaded: AbilitySlice?)
      requires Valid() && token !in abilities
      requires loaded != null ==> loaded.sliceState == STATE_UNINITIALIZED && loaded !in Repr
      modifies this`abilities, this`view, this`Repr
      ensures Valid() && fresh(Repr - old(Repr)) && token in abilities && view == old(view)[token := L.Init(managed)]
      ensures loaded != null ==> Admits(token, loaded)
    {
      Create(token, managed);
    }

    method PerformTransactAbilityState(token: nat, target: int, loadable: bool, managed: bool, loaded: AbilitySlice?)
      returns (ok: bool)
      requires Valid() && (loaded != null ==> NewOrOwn(token, loaded))
      modifies Repr, loaded
      ensures ok == L.PerformTransact(old(State()), token, target, loadable, managed, IdOf(loaded)).Some?
      ensures Valid() && GrownBy(loaded)
      ensures ok ==> Some(State()) == L.PerformTransact(old(State()), token, target, loadable, managed, IdOf(loaded))
    {
      TransactIs(State(), token, target, loadable, managed, IdOf(loaded));
      if token !in abilities {
        if !loadable {
          Report(token, STATE_INITIAL);
          return true;
        }
        CreateFor(token, managed, loaded);
      }
      ok := Advance(token, target, loaded);
    }

    // The loader's slices are new ones.
    ghost predicate NewOrOwn(token: nat, slice: AbilitySlice)
      requires Valid()
      reads this, Repr, slice
    {
      if token in abilities then Admits(token, slice) else slice.sliceState == STATE_UNINITIALIZED && slice !in Repr
    }

    method PresentSlice(token: nat, caller: AbilitySlice, target: AbilitySlice)
      requires Valid() && Admits(token, caller) && Admits(token, target)
      modifies Repr, target
      ensures Valid() && GrownBy(target)
      ensures Some(State()) == L.Step(old(State()), L.PresentSlice(token, caller.id, target.id))
    {
      if token !in abilities || abilities[token].abilitySliceManager == null { return; }
      PresentOn(token, caller, target);
    }

    method PresentOn(token: nat, caller: AbilitySlice, target: AbilitySlice)
      requires Valid() && token in abilities && abilities[token].abilitySliceManager != null
      requires Admits(token, caller) && Admits(token, target)
      modifies Repr, target
      ensures Valid() && GrownBy(target) && reports == old(reports) && ended == old(ended)
      ensures var a := old(view[token]);
              var after := AbilitySlices.Present(a.slices, a.state == STATE_ACTIVE, caller.id, target.id);
              view == old(view)[token := a.(slices := after)]
    {
      hide Ability.Valid, AbilitySlices.Present;
      abilities[token].Present(caller, target);
      Note(token);
    }

    method TerminateSlice(token: nat, slice: AbilitySlice)
      requires Valid() && Admits(token, slice)
      modifies Repr
      ensures Valid() && Repr == old(Repr)
      ensures Some(State()) == L.Step(old(State()), L.TerminateSlice(token, slice.id))
    {
      hide Ability.Valid, AbilitySlices.Terminate;
      if token !in abilities || abilities[token].abilitySliceManager == null { return; }
      abilities[token].Terminate(slice);
      Note(token);
    }

    // The slice with the number: the ability's own, or a new one.
    method SliceFor(token: nat, id: nat) returns (slice: AbilitySlice)
      requires Valid()
      ensures Admits(token, slice) && slice.id == id && NewOrOwn(token, slice) && (slice in Repr || fresh(slice))
    {
      if token in abilities {
        slice := abilities[token].SliceFor(id);
      } else {
        slice := new AbilitySlice(id);
      }
    }

    // One message, with the slices it is about.
    method Receive(m: L.Message) returns (ok: bool)
      requires Valid()
      modifies Repr
      ensures ok == L.Step(old(State()), m).Some?
      ensures Valid() && fresh(Repr - old(Repr)) && (ok ==> Some(State()) == L.Step(old(State()), m))
    {
      match m {
        case Transact(token, target, loadable, managed, loaded) =>
          var slice: AbilitySlice? := null;
          if loaded.Some? { slice := SliceFor(token, loaded.value); }
          ok := PerformTransactAbilityState(token, target, loadable, managed, slice);
        case PresentSlice(token, caller, target) =>
          var from := SliceFor(token, caller);
          var to := SliceFor(token, target);
          PresentSlice(token, from, to);
          ok := true;
        case TerminateSlice(token, slice) =>
          var target := SliceFor(token, slice);
          TerminateSlice(token, target);
          ok := true;
      }
    }

    // A whole run: it ends where the runs that the theorems are about end.
    method Serve(ms: seq<L.Message>)
      requires Valid() && State() == L.NO_ABILITIES
      modifies Repr
      ensures Valid() && Some(State()) == L.Run(ms)
    {
      for n := 0 to |ms|
        invariant Valid() && fresh(Repr - old(Repr)) && Some(State()) == L.Run(ms[..n])
      {
        L.NoRunExits(ms[..n + 1]);
        assert ms[..n + 1][..n] == ms[..n];
        var ok := Receive(ms[n]);
      }
      assert ms[..|ms|] == ms;
    }
  }

  ghost function Advanced(a: L.Ability, target: int, loaded: Option<nat>): Option<L.Ability> {
    if Code(a.state) != target then L.Handle(a, target, loaded) else Some(a)
  }

  ghost function Finished(t: L.Thread, token: nat, a: L.Ability): L.Thread {
    L.Report(L.Settled(t, token, a), token, a.state)
  }

  lemma SettledTwice(t: L.Thread, token: nat, a: L.Ability)
    ensures L.Settled(t.(abilities := t.abilities[token := a]), token, a) == L.Settled(t, token, a)
  {
    assert t.abilities[token := a] - {token} == t.abilities - {token};
    assert t.abilities[token := a][token := a] == t.abilities[token := a];
  }

  lemma TransactIs(t: L.Thread, token: nat, target: int, loadable: bool, managed: bool, loaded: Option<nat>)
    ensures var a := if token in t.abilities then t.abilities[token] else L.Init(managed);
            var done := Advanced(a, target, loaded);
            (token in t.abilities ==> t.abilities[token := a] == t.abilities)
            && L.PerformTransact(t, token, target, loadable, managed, loaded)
            == if token !in t.abilities && !loadable then Some(L.Report(t, token, STATE_INITIAL))
               else if done.None? then None
               else Some(Finished(t.(abilities := t.abilities[token := a]), token, done.value))
  {
    var a := if token in t.abilities then t.abilities[token] else L.Init(managed);
    var done := Advanced(a, target, loaded);
    if done.Some? {
      assert t.abilities[token := a][token := done.value] == t.abilities[token := done.value];
      assert t.abilities[token := a] - {token} == t.abilities - {token};
    }
  }
}
