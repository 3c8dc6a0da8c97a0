/** Whole runs of the scheduler, for every order of client requests, app steps and acknowledgements. */
module SchedulerRuns {
  import opened Options
  import opened Sequences
  import opened SliteTypes
  import opened MruList
  import opened SavedState
  import opened Scheduler
  import opened SchedulerProofs

  // When the k-th executed request came up, it was no forced stop of home on top.
  ghost predicate HomeSparedAt(env: Env, executed: seq<Request>, k: nat)
    requires env.Ok() && k < |executed|
  {
    var m := Fold(env, executed[..k]);
    m.items != [] ==> !StopsHome(m, executed[k])
  }

  ghost predicate HomeSpared(env: Env, executed: seq<Request>)
    requires env.Ok()
  {
    forall k :: 0 <= k < |executed| ==> HomeSparedAt(env, executed, k)
  }

  // Home was never stopped by force, and no more tokens have been used up than there are.
  ghost predicate Regular(env: Env, s: Sched)
    requires env.Ok()
  {
    HomeSpared(env, s.log.executed) && s.generated <= TOKEN_PERIOD
  }

  lemma RegularBefore(env: Env, s: Sched, s': Sched)
    requires env.Ok() && Regular(env, s') && s.generated <= s'.generated && s.log.executed <= s'.log.executed
    ensures Regular(env, s)
  {
    var executed, later := s.log.executed, s'.log.executed;
    forall k | 0 <= k < |executed| ensures HomeSparedAt(env, executed, k) {
      assert HomeSparedAt(env, later, k) && later[..k] == executed[..k];
    }
  }

  // The request that came next spared home as well.
  lemma SparedNext(env: Env, executed: seq<Request>, r: Request, later: seq<Request>)
    requires env.Ok() && executed + [r] <= later && HomeSpared(env, later)
    ensures var m := Fold(env, executed); m.items != [] ==> !StopsHome(m, r)
  {
    assert HomeSparedAt(env, later, |executed|) && later[..|executed|] == executed;
    assert later[|executed|] == (executed + [r])[|executed|];
  }

  ghost predicate Related(env: Env, s: Sched)
    requires env.Ok()
  {
    && Abs(s) == Fold(env, s.log.executed)
    && s.log.executed + s.queue == s.log.received
  }

  // The request can be carried out now.
  ghost predicate Executable(env: Env, s: Sched, r: Request) {
    Ready(env, s) && !StopsHome(Abs(s), r) && Perform(env, s, r).0.generated <= TOKEN_PERIOD
  }

  ghost predicate Idle(env: Env, s: Sched) { Ready(env, s) && s.queue == [] }

  ghost predicate Inv(env: Env, s: Sched)
    requires env.Ok()
  {
    (Idle(env, s) || Switching(env, s)) && Related(env, s)
  }

  // ---------- the queue ----------

  lemma {:induction false} RunOperationMonotone(env: Env, s: Sched)
    ensures s.generated <= RunOperation(env, s).generated
    ensures RunOperation(env, s).log.received == s.log.received
    ensures s.log.executed <= RunOperation(env, s).log.executed
    decreases |s.queue|
  {
    if s.queue != [] && !s.scheduling && !(s.queue[0].TerminateApp? && s.list == []) {
      var s1 := s.(queue := s.queue[1..], log := s.log.(executed := s.log.executed + [s.queue[0]]));
      var (s2, ok) := Perform(env, s1, s.queue[0]);
      if !ok || !s2.scheduling { RunOperationMonotone(env, s2.(scheduling := false)); }
    }
  }

  // Performing r keeps the books: what has been executed is what Fold has seen.
  lemma PerformRelated(env: Env, s: Sched, r: Request)
    requires env.Ok() && Executable(env, s, r)
    requires s.log.executed != [] && s.log.executed[|s.log.executed| - 1] == r
    requires Abs(s) == Fold(env, s.log.executed[..|s.log.executed| - 1])
    requires s.log.executed + s.queue == s.log.received
    ensures var (s', ok) := Perform(env, s, r); Settles(env, s, s', ok) && Related(env, s')
  {
    assert ItemOk(env, Raw(s), Items(s.list)[0]);
    PerformSteps(env, s, r);
  }

  // The first waiting request is carried out.
  lemma DequeueSteps(env: Env, s: Sched) returns (s2: Sched, ok: bool)
    requires env.Ok() && Ready(env, s) && Related(env, s) && s.queue != []
    requires Regular(env, RunOperation(env, s))
    ensures Settles(env, s, s2, ok) && Related(env, s2) && |s2.queue| == |s.queue| - 1
    ensures RunOperation(env, s) == if !ok || !s2.scheduling then RunOperation(env, s2.(scheduling := false)) else s2
  {
    hide Perform, Fold, Switching, ItemOk, HomeSpared;
    var r := s.queue[0];
    var s1 := s.(queue := s.queue[1..], log := s.log.(executed := s.log.executed + [r]));
    assert s1.log.executed[..|s1.log.executed| - 1] == s.log.executed;
    assert s1.log.executed + s1.queue == s.log.executed + s.queue;
    s2, ok := Perform(env, s1, r).0, Perform(env, s1, r).1;
    RunOperationMonotone(env, s2.(scheduling := false));
    SparedNext(env, s.log.executed, r, RunOperation(env, s).log.executed);
    PerformRelated(env, s1, r);
  }

  lemma {:induction false} RunOperationSteps(env: Env, s: Sched)
    requires env.Ok() && Ready(env, s) && Related(env, s) && Regular(env, RunOperation(env, s))
    ensures Inv(env, RunOperation(env, s))
    decreases |s.queue|
  {
    if s.queue != [] {
      var s2, ok := DequeueSteps(env, s);
      if !ok || !s2.scheduling { RunOperationSteps(env, s2.(scheduling := false)); }
    }
  }

  // ---------- client requests ----------

  lemma HandleRequestSteps(env: Env, s: Sched, r: Request)
    requires env.Ok() && Inv(env, s) && Regular(env, HandleRequest(env, s, r))
    ensures Inv(env, HandleRequest(env, s, r))
  {
    if s.scheduling {
      DeferKeeps(env, s, CopyForQueue(env, |s.log.received|, r));
    } else {
      HandleFreeSteps(env, s, r);
    }
  }

  lemma HandleFreeSteps(env: Env, s: Sched, r: Request)
    requires env.Ok() && Idle(env, s) && Related(env, s) && Regular(env, HandleRequest(env, s, r))
    ensures Inv(env, HandleRequest(env, s, r))
  {
    var s0 := s.(log := s.log.(received := s.log.received + [r], executed := s.log.executed + [r]));
    assert s0.log.executed[..|s0.log.executed| - 1] == s.log.executed;
    assert s0.log.executed + s0.queue == s0.log.received;
    var (s1, ok) := Perform(env, s0, r);
    RunOperationMonotone(env, s1.(scheduling := false));
    SparedNext(env, s.log.executed, r, HandleRequest(env, s, r).log.executed);
    PerformRelated(env, s0, r);
    if !ok || !s1.scheduling { RunOperationSteps(env, s1.(scheduling := false)); }
  }

  lemma DeferKeeps(env: Env, s: Sched, r: Request)
    requires env.Ok() && Switching(env, s) && Related(env, s)
    ensures var s' := s.(queue := s.queue + [r], log := s.log.(received := s.log.received + [r]));
            Switching(env, s') && Related(env, s')
  {
    assert s.log.executed + (s.queue + [r]) == s.log.received + [r];
  }

  // A request is taken in as it was sent, whether it is carried out or has to wait; of a token only 16 bits are
  // kept, and the mission of a start that waits is whatever the copy holds.
  lemma ReceivedAsSent(env: Env, s: Sched, r: Request)
    requires s.list != []
    ensures exists r' :: HandleRequest(env, s, r).log.received == s.log.received + [r'] && SameRequest(r, r')
  {
    var r' := if s.scheduling then CopyForQueue(env, |s.log.received|, r) else r;
    if !s.scheduling {
      var s0 := s.(log := s.log.(received := s.log.received + [r], executed := s.log.executed + [r]));
      RunOperationMonotone(env, Perform(env, s0, r).0.(scheduling := false));
    }
    assert HandleRequest(env, s, r).log.received == s.log.received + [r'] && SameRequest(r, r');
  }

  predicate SameRequest(r: Request, r': Request) {
    match r
    case Start(bundle, data, _) => r'.Start? && r'.bundle == bundle && r'.data == data
    case Terminate(v) => r'.Terminate? && r'.value % 0x1_0000 == v % 0x1_0000
    case TerminateApp(v) => r'.TerminateApp? && r'.value % 0x1_0000 == v % 0x1_0000
    case _ => r' == r
  }

  // ---------- acknowledgements ----------

  // The ability left: it is off the list, or asleep on it.
  lemma DestroyedLeaves(env: Env, s: Sched, l: seq<Rec>)
    requires env.Ok() && Leaving(env, s) && s.mail[0].done && s.mail[0].life == DESTROY
    requires var c := Current(s);
             l == if s.list[c].terminated then Drop(s.list, c)
                  else s.list[c := s.list[c].(state := STOP, thread := false)]
    ensures Base(env, s.(list := l)) && Items(l) == Settled(s.list)
    ensures l[0].item.token == s.pending || s.pending == 0
    ensures forall j :: 0 <= j < |l| ==> Resting(s, l[j])
  {
    hide ItemOk, HasHome;
    var c := Current(s);
    if s.list[c].terminated {
      DropKeeps(env, Raw(s), c);
      ItemsOf(s.list, s.list[c], c);
      forall j | 0 <= j < |l| ensures Resting(s, l[j]) {
        assert l[j] == s.list[if j < c then j else j + 1];
      }
    } else {
      assert Items(l) == Items(s.list);
    }
  }

  // With the ability that left gone, its successor is at the front and is created.
  lemma DestroyDoneIs(s: Sched, token: nat, l: seq<Rec>)
    requires var c := Find(s, token);
             && c < |s.list| && l != []
             && l == if s.list[c].terminated then Drop(s.list, c)
                     else s.list[c := s.list[c].(state := STOP, thread := false)]
    requires s.pending != 0 ==> Find(s.(list := l), s.pending) == 0
    ensures DestroyDone(s, token) == CreateTask(s.(list := l, pending := 0), 0)
  {
  }

  // Nothing is about to be dropped once the successor has been created.
  lemma EnteringSettled(env: Env, s: Sched)
    requires Entering(env, s)
    ensures Settled(s.list) == Items(s.list)
  {
  }

  lemma DestroyDoneSteps(env: Env, s: Sched)
    requires env.Ok() && Leaving(env, s) && s.mail[0].done && s.mail[0].life == DESTROY
    ensures var s' := DestroyDone(s.(mail := []), s.mail[0].token);
            Entering(env, s') && Abs(s') == Abs(s) && SameLog(s, s')
  {
    var l := LeftList(env, s);
    var s2 := s.(mail := [], list := l, pending := 0);
    hide *;
    DestroyDoneIs(s.(mail := []), s.mail[0].token, l);
    CreateEnters(env, s2);
    EnteringSettled(env, CreateTask(s2, 0));
  }

  // The list without the ability that left, and what is needed to go on with it.
  lemma LeftList(env: Env, s: Sched) returns (l: seq<Rec>)
    requires env.Ok() && Leaving(env, s) && s.mail[0].done && s.mail[0].life == DESTROY
    ensures var c := Find(s.(mail := []), s.mail[0].token);
            && c < |s.list| && l != []
            && l == if s.list[c].terminated then Drop(s.list, c)
                    else s.list[c := s.list[c].(state := STOP, thread := false)]
    ensures s.pending != 0 ==> Find(s.(mail := [], list := l), s.pending) == 0
    ensures var s2 := s.(mail := [], list := l, pending := 0);
            && Base(env, s2) && s2.scheduling && (forall j :: 0 <= j < |l| ==> Resting(s2, l[j]))
            && Items(l) == Settled(s.list)
  {
    var c := Current(s);
    FindDistinct(Items(s.list), c);
    l := if s.list[c].terminated then Drop(s.list, c)
         else s.list[c := s.list[c].(state := STOP, thread := false)];
    DestroyedLeaves(env, s, l);
    FindDistinct(Items(l), 0);
    assert Items(l)[0] == l[0].item;
  }

  lemma BackgroundDoneSteps(env: Env, s: Sched)
    requires env.Ok() && Leaving(env, s) && s.mail[0].done && s.mail[0].life == TO_BACKGROUND
    ensures var s' := LifecycleDone(env, s.(mail := []), s.mail[0].token, TO_BACKGROUND);
            && Leaving(env, s') && Abs(s') == Abs(s) && SameLog(s, s') && s'.mail[0].life == DESTROY
  {
    var c := Current(s);
    FindDistinct(Items(s.list), c);
    var s' := LifecycleDone(env, s.(mail := []), s.mail[0].token, TO_BACKGROUND);
    assert Items(s.list)[c] == s.list[c].item;
    assert Items(s'.list) == Items(s.list);
    assert Current(s') == c;
  }

  lemma CreateDoneSteps(env: Env, s: Sched)
    requires env.Ok() && Entering(env, s) && s.mail[0].done && s.mail[0].life == CREATE
    ensures var s' := LifecycleDone(env, s.(mail := []), s.mail[0].token, CREATE);
            && Entering(env, s') && Abs(s') == Abs(s) && SameLog(s, s') && s'.mail[0].life == TO_FOREGROUND
  {
    FindDistinct(Items(s.list), 0);
    var s' := LifecycleDone(env, s.(mail := []), s.mail[0].token, CREATE);
    assert Items(s.list)[0] == s.list[0].item;
    assert Items(s'.list) == Items(s.list);
  }

  // The switch is over; the dispatcher goes on with the queue from here.
  lemma ForegroundDoneSteps(env: Env, s: Sched) returns (s': Sched)
    requires env.Ok() && Entering(env, s) && s.mail[0].done && s.mail[0].life == TO_FOREGROUND
    ensures Ready(env, s') && Abs(s') == Abs(s) && SameLog(s, s')
    ensures s' == s.(mail := [], list := s.list[0 := s.list[0].(state := FOREGROUND)], scheduling := false)
    ensures Find(s, s.mail[0].token) == 0
    ensures LifecycleDone(env, s.(mail := []), s.mail[0].token, TO_FOREGROUND) == RunOperation(env, s')
  {
    FindDistinct(Items(s.list), 0);
    assert Items(s.list)[0] == s.list[0].item;
    s' := s.(mail := [], list := s.list[0 := s.list[0].(state := FOREGROUND)], scheduling := false);
    assert Items(s'.list) == Items(s.list);
  }

  lemma HandleAckSteps(env: Env, s: Sched, m: nat)
    requires env.Ok() && Inv(env, s) && m < |s.mail| && s.mail[m].done
    requires Regular(env, HandleAck(env, s, m))
    ensures Inv(env, HandleAck(env, s, m))
  {
    assert m == 0 && Drop(s.mail, m) == [];
    if Leaving(env, s) {
      if s.mail[0].life == DESTROY { DestroyDoneSteps(env, s); } else { BackgroundDoneSteps(env, s); }
    } else {
      if s.mail[0].life == CREATE {
        CreateDoneSteps(env, s);
      } else {
        var s' := ForegroundDoneSteps(env, s);
        RunOperationSteps(env, s');
      }
    }
  }

  // ---------- the app threads ----------

  lemma AppLeavingSteps(env: Env, s: Sched, saves: Saved)
    requires env.Ok() && Leaving(env, s) && !s.mail[0].done
    ensures var s' := AppStep(s, 0, saves); Leaving(env, s') && Abs(s') == Abs(s)
  {
    var c := Current(s);
    var s' := AppStep(s, 0, saves);
    FindDistinct(Items(s.list), c);
    assert Items(s.list)[c] == s.list[c].item;
    assert ItemOk(env, Raw(s), Items(s.list)[c]);
    assert Items(s'.list) == Items(s.list);
    assert Current(s') == c;
    forall i | 0 <= i < |s'.list| && i != c ensures Resting(s', s'.list[i]) {
      assert Items(s.list)[i].token != Items(s.list)[c].token;
    }
  }

  lemma AppSteps(env: Env, s: Sched, m: nat, saves: Saved)
    requires env.Ok() && Inv(env, s) && m < |s.mail| && !s.mail[m].done
    ensures Inv(env, AppStep(s, m, saves))
  {
    hide Fold, Settled;
    if Leaving(env, s) { AppLeavingSteps(env, s, saves); }
  }

  // ---------- every run ----------

  lemma BootSteps(env: Env)
    requires env.Ok()
    ensures Inv(env, Booted(env)) && Entering(env, Booted(env))
  {
    var s := Booted(env);
    assert Perform(env, NOTHING, Start(Some(env.home), [], env.bootMission)).0 == s;
    assert NameIndex([], env.home) == 0;
    assert s.list == [Rec(Initial(env).items[0], STOP, true, false, None)];
    assert Items(s.list) == Initial(env).items;
    assert Items(s.list)[0].token == LAUNCHER_TOKEN;
  }

  lemma StepMonotone(env: Env, s: Sched, e: Event)
    ensures s.generated <= Step(env, s, e).generated && s.log.executed <= Step(env, s, e).log.executed
  {
    match e
    case Client(r) =>
      if s.list != [] && !s.scheduling {
        var s0 := s.(log := s.log.(received := s.log.received + [r], executed := s.log.executed + [r]));
        RunOperationMonotone(env, Perform(env, s0, r).0.(scheduling := false));
      }
    case App(m, saves) =>
    case Ack(m) =>
      if m < |s.mail| && s.mail[m].done && s.mail[m].life == TO_FOREGROUND {
        var s0 := s.(mail := Drop(s.mail, m));
        var i := Find(s0, s.mail[m].token);
        var s1 := if i == |s0.list| then s0 else s0.(list := s0.list[i := s0.list[i].(state := FOREGROUND)]);
        RunOperationMonotone(env, s1.(scheduling := false));
      }
  }

  lemma StepKeeps(env: Env, s: Sched, e: Event)
    requires env.Ok() && Inv(env, s) && Regular(env, Step(env, s, e))
    ensures Inv(env, Step(env, s, e))
  {
    match e
    case Client(r) => HandleRequestSteps(env, s, r);
    case App(m, saves) => if m < |s.mail| && !s.mail[m].done { AppSteps(env, s, m, saves); }
    case Ack(m) => if m < |s.mail| && s.mail[m].done { HandleAckSteps(env, s, m); }
  }

  ghost predicate Legal(env: Env, events: seq<Event>)
    requires env.Ok()
  {
    Regular(env, Run(env, events))
  }

  lemma {:induction false} RunKeeps(env: Env, events: seq<Event>)
    requires env.Ok() && Legal(env, events)
    ensures Inv(env, Run(env, events))
  {
    if events == [] {
      BootSteps(env);
    } else {
      var n := |events| - 1;
      StepMonotone(env, Run(env, events[..n]), events[n]);
      RegularBefore(env, Run(env, events[..n]), Run(env, events));
      RunKeeps(env, events[..n]);
      StepKeeps(env, Run(env, events[..n]), events[n]);
    }
  }

  // Requests are carried out in the order in which they were accepted, and none waits while the
  // manager is free.
  lemma NoOvertaking(env: Env, events: seq<Event>)
    requires env.Ok() && Legal(env, events)
    ensures var s := Run(env, events);
            && (s.queue != [] ==> s.scheduling)
            && s.log.executed <= s.log.received
            && s.log.received == s.log.executed + s.queue
  {
    RunKeeps(env, events);
  }

  // At most one app is alive and at most one lifecycle message is under way, to or from that app.
  ghost predicate Exclusive(s: Sched) {
    && |s.mail| <= 1
    && (forall i, j :: 0 <= i < j < |s.list| ==> !s.list[i].thread || !s.list[j].thread)
    && (forall m :: m in s.mail ==> Find(s, m.token) < |s.list| && s.list[Find(s, m.token)].thread)
  }

  // The front of the list is in the foreground and every other ability is stopped.
  ghost predicate AtRest(s: Sched) {
    && s.mail == [] && s.list != []
    && s.list[0].state == FOREGROUND && s.list[0].thread
    && forall i :: 0 < i < |s.list| ==> s.list[i].state == STOP && !s.list[i].thread
  }

  lemma SwitchingIsExclusive(env: Env, s: Sched)
    requires Switching(env, s)
    ensures Exclusive(s)
  {
    var c := OnlyThread(env, s);
    assert Items(s.list)[c] == s.list[c].item;
    FindDistinct(Items(s.list), c);
  }

  // During a switch one ability has the thread, and the message is for it.
  lemma OnlyThread(env: Env, s: Sched) returns (c: nat)
    requires Switching(env, s)
    ensures c < |s.list| && |s.mail| <= 1 && (forall m :: m in s.mail ==> m.token == s.list[c].item.token)
    ensures s.list[c].thread && forall i :: 0 <= i < |s.list| && i != c ==> !s.list[i].thread
    ensures forall i, j :: 0 <= i < j < |Items(s.list)| ==> Items(s.list)[i].token != Items(s.list)[j].token
  {
    c := if Leaving(env, s) then Current(s) else 0;
  }

  lemma MutualExclusion(env: Env, events: seq<Event>)
    requires env.Ok() && Legal(env, events)
    ensures var s := Run(env, events); Exclusive(s) && (!s.scheduling ==> AtRest(s))
  {
    RunKeeps(env, events);
    var s := Run(env, events);
    if s.scheduling { SwitchingIsExclusive(env, s); }
  }

  // The four-message protocol refines the one-step list: names, tokens, data and missions, in order.
  lemma RefinesMru(env: Env, events: seq<Event>)
    requires env.Ok() && Legal(env, events)
    ensures var s := Run(env, events);
            && Abs(s) == Fold(env, s.log.executed)
            && (!s.scheduling ==> s.list != [] && Items(s.list) == Fold(env, s.log.executed).items
                                  && s.list[0].item == Front(Fold(env, s.log.executed)))
  {
    RunKeeps(env, events);
  }

  // A message that creates an ability or brings it to the foreground goes to the one in front and carries what
  // its last start gave it; one that takes it to the background or destroys it carries nothing.
  lemma MessagesCarryData(env: Env, events: seq<Event>)
    requires env.Ok() && Legal(env, events)
    ensures var s := Run(env, events);
            forall m :: m in s.mail ==>
              if m.life == CREATE || m.life == TO_FOREGROUND
              then var m' := Fold(env, s.log.executed);
                   m'.items != [] && m.token == Front(m').token && m.data == Front(m').data
              else m.data == []
  {
    RunKeeps(env, events);
    var s := Run(env, events);
    if Entering(env, s) { EnteringSettled(env, s); }
  }

  // The list stays within its capacity, tokens and names on it differ pairwise, and home is on it.
  lemma ListStaysSound(env: Env, events: seq<Event>)
    requires env.Ok() && Legal(env, events)
    ensures var s := Run(env, events);
            && |s.list| <= env.capacity
            && (forall i, j :: 0 <= i < j < |s.list| ==>
                  s.list[i].item.token != s.list[j].item.token && s.list[i].item.name != s.list[j].item.name)
            && (exists h :: 0 <= h < |s.list| && s.list[h].item.name == env.home && !s.list[h].terminated)
  {
    RunKeeps(env, events);
    SoundList(env, Run(env, events));
  }

  lemma SoundList(env: Env, s: Sched)
    requires env.Ok() && Inv(env, s)
    ensures |s.list| <= env.capacity
    ensures forall i, j :: 0 <= i < j < |s.list| ==>
              s.list[i].item.token != s.list[j].item.token && s.list[i].item.name != s.list[j].item.name
    ensures exists h :: 0 <= h < |s.list| && s.list[h].item.name == env.home && !s.list[h].terminated
  {
    var items := Items(s.list);
    forall i, j | 0 <= i < j < |s.list|
      ensures s.list[i].item.token != s.list[j].item.token && s.list[i].item.name != s.list[j].item.name
    {
      assert items[i].token != items[j].token;
    }
    HomeIsThere(env, s);
  }

  lemma HomeIsThere(env: Env, s: Sched)
    requires env.Ok() && Inv(env, s)
    ensures exists h :: 0 <= h < |s.list| && s.list[h].item.name == env.home && !s.list[h].terminated
  {
    var items := Items(s.list);
    var h :| 0 <= h < |items| && items[h].token == LAUNCHER_TOKEN;
    assert ItemOk(env, Raw(s), items[h]);
    assert s.list[h].item.name == env.home && !s.list[h].terminated;
  }

  // ---------- completion ----------

  // The app takes its message and the service its acknowledgement.
  function Served(s: Sched, saves: Saved): Sched {
    if s.mail != [] && !s.mail[0].done then AppStep(s, 0, saves) else s
  }

  function Round(env: Env, s: Sched, saves: Saved): Sched {
    var s1 := Served(s, saves);
    if s1.mail != [] && s1.mail[0].done then HandleAck(env, s1, 0) else s1
  }

  function Rounds(env: Env, s: Sched, n: nat, saves: nat -> Saved): Sched
    decreases n
  {
    if n == 0 then s else Rounds(env, Round(env, s, saves(n)), n - 1, saves)
  }

  function Phase(life: Life): nat {
    match life case TO_BACKGROUND => 4 case DESTROY => 3 case CREATE => 2 case TO_FOREGROUND => 1
  }

  // Acknowledgements still to come when each queued request costs a whole switch.
  function Work(s: Sched): nat {
    4 * |s.queue| + if s.mail == [] then 0 else Phase(s.mail[0].life)
  }

  lemma {:induction false} RunOperationWork(env: Env, s: Sched)
    requires env.Ok() && Ready(env, s) && Related(env, s) && Regular(env, RunOperation(env, s))
    ensures Work(RunOperation(env, s)) <= 4 * |s.queue|
    decreases |s.queue|
  {
    if s.queue != [] {
      var s2, ok := DequeueSteps(env, s);
      if !ok || !s2.scheduling { RunOperationWork(env, s2.(scheduling := false)); }
    }
  }

  lemma AckWorks(env: Env, s: Sched)
    requires env.Ok() && Inv(env, s) && s.mail != [] && s.mail[0].done
    requires Regular(env, HandleAck(env, s, 0))
    ensures Work(HandleAck(env, s, 0)) < Work(s)
  {
    assert Drop(s.mail, 0) == [];
    if Leaving(env, s) {
      if s.mail[0].life == DESTROY { DestroyDoneSteps(env, s); } else { BackgroundDoneSteps(env, s); }
    } else if s.mail[0].life == CREATE {
      CreateDoneSteps(env, s);
    } else {
      var s' := ForegroundDoneSteps(env, s);
      RunOperationWork(env, s');
    }
  }

  lemma ServedSteps(env: Env, s: Sched, saves: Saved)
    requires env.Ok() && Inv(env, s) && s.mail != []
    ensures var s1 := Served(s, saves);
            && Inv(env, s1) && s1.mail != [] && s1.mail[0].done
            && Work(s1) == Work(s) && s1.log.received == s.log.received
  {
    hide Fold, Settled;
    if !s.mail[0].done { AppSteps(env, s, 0, saves); }
  }

  lemma RoundWorks(env: Env, s: Sched, saves: Saved)
    requires env.Ok() && Inv(env, s) && Regular(env, Round(env, s, saves))
    ensures Inv(env, Round(env, s, saves))
    ensures if s.mail == [] then Round(env, s, saves) == s else Work(Round(env, s, saves)) < Work(s)
    ensures Round(env, s, saves).log.received == s.log.received
  {
    if s.mail != [] {
      ServedSteps(env, s, saves);
      var s1 := Served(s, saves);
      HandleAckSteps(env, s1, 0);
      AckWorks(env, s1);
      AckReceivesNothing(env, s1);
    }
  }

  lemma AckReceivesNothing(env: Env, s: Sched)
    requires s.mail != [] && s.mail[0].done
    ensures HandleAck(env, s, 0).log.received == s.log.received
  {
    var s0 := s.(mail := Drop(s.mail, 0));
    var i := Find(s0, s.mail[0].token);
    var s1 := if i == |s0.list| then s0 else s0.(list := s0.list[i := s0.list[i].(state := FOREGROUND)]);
    RunOperationMonotone(env, s1.(scheduling := false));
  }

  lemma {:induction false} RoundsMonotone(env: Env, s: Sched, n: nat, saves: nat -> Saved)
    ensures var s' := Rounds(env, s, n, saves); s.generated <= s'.generated && s.log.executed <= s'.log.executed
    decreases n
  {
    hide Round;
    if n != 0 {
      var s1 := Round(env, s, saves(n));
      RoundMonotone(env, s, saves(n));
      RoundsMonotone(env, s1, n - 1, saves);
      RoundsStep(env, s, n, s1, saves);
    }
  }

  lemma RoundMonotone(env: Env, s: Sched, saves: Saved)
    ensures var s' := Round(env, s, saves); s.generated <= s'.generated && s.log.executed <= s'.log.executed
  {
    StepMonotone(env, Served(s, saves), Ack(0));
  }

  lemma {:induction false} RoundsFinish(env: Env, s: Sched, n: nat, saves: nat -> Saved) returns (s': Sched)
    requires env.Ok() && Inv(env, s) && Regular(env, Rounds(env, s, n, saves)) && Work(s) <= n
    ensures s' == Rounds(env, s, n, saves)
    ensures Idle(env, s') && Related(env, s') && s'.log.received == s.log.received
    decreases n
  {
    hide *;
    if n == 0 || s.mail == [] {
      NothingToDo(env, s, n, saves);
      s' := s;
    } else {
      var s1 := RoundAdvances(env, s, n, saves);
      s' := RoundsFinish(env, s1, n - 1, saves);
    }
  }

  lemma RoundAdvances(env: Env, s: Sched, n: nat, saves: nat -> Saved) returns (s1: Sched)
    requires env.Ok() && Inv(env, s) && Regular(env, Rounds(env, s, n, saves))
    requires s.mail != [] && n != 0 && Work(s) <= n
    ensures Inv(env, s1) && Work(s1) <= n - 1 && s1.log.received == s.log.received
    ensures Rounds(env, s, n, saves) == Rounds(env, s1, n - 1, saves)
  {
    hide *;
    s1 := Round(env, s, saves(n));
    RoundsMonotone(env, s1, n - 1, saves);
    RoundsStep(env, s, n, s1, saves);
    RegularBefore(env, s1, Rounds(env, s1, n - 1, saves));
    RoundWorks(env, s, saves(n));
  }

  lemma {:induction false} NothingToDo(env: Env, s: Sched, n: nat, saves: nat -> Saved)
    requires env.Ok() && Inv(env, s) && (s.mail == [] || Work(s) == 0)
    ensures Rounds(env, s, n, saves) == s && Idle(env, s) && Related(env, s)
    decreases n
  {
    assert s.mail == [];
    if n != 0 { NothingToDo(env, s, n - 1, saves); }
  }

  lemma RoundsStep(env: Env, s: Sched, n: nat, s1: Sched, saves: nat -> Saved)
    requires n != 0 && s1 == Round(env, s, saves(n))
    ensures Rounds(env, s, n, saves) == Rounds(env, s1, n - 1, saves)
  {
  }

  // Left alone, the manager carries out everything it has accepted within four acknowledgements per
  // waiting request and four for the switch under way, whatever the apps save.
  lemma SwitchesComplete(env: Env, events: seq<Event>, saves: nat -> Saved)
    requires env.Ok() && Legal(env, events)
    requires var s := Run(env, events); Regular(env, Rounds(env, s, 4 * (|s.queue| + 1), saves))
    ensures var s := Run(env, events);
            var s' := Rounds(env, s, 4 * (|s.queue| + 1), saves);
            && !s'.scheduling && s'.queue == [] && AtRest(s')
            && s'.log.executed == s.log.received
            && Items(s'.list) == Fold(env, s.log.received).items
  {
    RunKeeps(env, events);
    var s := Run(env, events);
    var s' := RoundsFinish(env, s, 4 * (|s.queue| + 1), saves);
  }

  // ---------- saved state ----------

  // The app named by the token goes through DESTROY with somewhere to save to.
  predicate SavesFor(s: Sched, e: Event, token: nat) {
    e.App? && e.m < |s.mail| && !s.mail[e.m].done
    && s.mail[e.m].token == token && s.mail[e.m].life == DESTROY && s.mail[e.m].carriesSaved
  }

  lemma {:induction false} RunOperationStores(env: Env, s: Sched)
    ensures RunOperation(env, s).log.stored == s.log.stored
    decreases |s.queue|
  {
    if s.queue != [] && !s.scheduling && !(s.queue[0].TerminateApp? && s.list == []) {
      var s1 := s.(queue := s.queue[1..], log := s.log.(executed := s.log.executed + [s.queue[0]]));
      var (s2, ok) := Perform(env, s1, s.queue[0]);
      if !ok || !s2.scheduling { RunOperationStores(env, s2.(scheduling := false)); }
    }
  }

  lemma StoredOnlyOnDestroy(env: Env, s: Sched, e: Event, token: nat)
    requires token in s.log.stored && !SavesFor(s, e, token)
    ensures token in Step(env, s, e).log.stored && Step(env, s, e).log.stored[token] == s.log.stored[token]
  {
    match e
    case Client(r) =>
      if s.list != [] && !s.scheduling {
        var s0 := s.(log := s.log.(received := s.log.received + [r], executed := s.log.executed + [r]));
        RunOperationStores(env, Perform(env, s0, r).0.(scheduling := false));
      }
    case App(m, saves) =>
    case Ack(m) =>
      if m < |s.mail| && s.mail[m].done && s.mail[m].life == TO_FOREGROUND {
        var s0 := s.(mail := Drop(s.mail, m));
        var i := Find(s0, s.mail[m].token);
        var s1 := if i == |s0.list| then s0 else s0.(list := s0.list[i := s0.list[i].(state := FOREGROUND)]);
        RunOperationStores(env, s1.(scheduling := false));
      }
  }

  function After(env: Env, s: Sched, events: seq<Event>): Sched
    decreases |events|
  {
    if events == [] then s else After(env, Step(env, s, events[0]), events[1..])
  }

  // No event of the sequence lets that app save again.
  ghost predicate Undisturbed(env: Env, s: Sched, events: seq<Event>, token: nat)
    decreases |events|
  {
    events == [] || (!SavesFor(s, events[0], token) && Undisturbed(env, Step(env, s, events[0]), events[1..], token))
  }

  lemma {:induction false} StoredSurvives(env: Env, s: Sched, events: seq<Event>, token: nat)
    requires token in s.log.stored && Undisturbed(env, s, events, token)
    ensures var s' := After(env, s, events);
            token in s'.log.stored && s'.log.stored[token] == s.log.stored[token]
    decreases |events|
  {
    if events != [] {
      StoredOnlyOnDestroy(env, s, events[0], token);
      StoredSurvives(env, Step(env, s, events[0]), events[1..], token);
    }
  }

  lemma {:induction false} RunAppend(env: Env, a: seq<Event>, b: seq<Event>)
    ensures Run(env, a + b) == After(env, Run(env, a), b)
    decreases |b|
  {
    if b == [] {
      assert a + b == a;
    } else {
      var a' := a + [b[0]];
      assert a'[..|a'| - 1] == a && a' + b[1..] == a + b;
      RunAppend(env, a', b[1..]);
    }
  }

  lemma {:induction false} LegalPrefix(env: Env, a: seq<Event>, b: seq<Event>)
    requires env.Ok() && Legal(env, a + b)
    ensures Legal(env, a)
    decreases |b|
  {
    if b == [] {
      assert a + b == a;
    } else {
      var n := |b| - 1;
      assert (a + b)[..|a + b| - 1] == a + b[..n];
      StepMonotone(env, Run(env, a + b[..n]), (a + b)[|a + b| - 1]);
      RegularBefore(env, Run(env, a + b[..n]), Run(env, a + b));
      LegalPrefix(env, a, b[..n]);
    }
  }

  lemma CreateDelivers(env: Env, s: Sched, m: nat, ignored: Saved)
    requires env.Ok() && Inv(env, s) && m < |s.mail| && !s.mail[m].done && s.mail[m].life == CREATE
    ensures var token := s.mail[m].token;
            AppStep(s, m, ignored).log.restored == s.log.restored
              + [Delivery(token, if token in s.log.stored then Some(s.log.stored[token]) else None)]
  {
    assert Entering(env, s) && s.list[0].item == Items(s.list)[0];
    FindDistinct(Items(s.list), 0);
  }

  lemma SavingStores(env: Env, s: Sched, m: nat, saves: Saved, token: nat)
    requires env.Ok() && Inv(env, s) && SavesFor(s, App(m, saves), token)
    ensures var s' := AppStep(s, m, saves); token in s'.log.stored && s'.log.stored[token] == saves
  {
    SwitchingIsExclusive(env, s);
  }

  lemma SaveIsStored(env: Env, before: seq<Event>, m: nat, saves: Saved, token: nat)
    requires env.Ok() && Legal(env, before) && SavesFor(Run(env, before), App(m, saves), token)
    ensures var s := Run(env, before + [App(m, saves)]); token in s.log.stored && s.log.stored[token] == saves
  {
    var first := before + [App(m, saves)];
    assert first[..|first| - 1] == before;
    RunKeeps(env, before);
    SavingStores(env, Run(env, before), m, saves, token);
  }

  // What an app stores during DESTROY is what the same ability is given back on its next CREATE,
  // whatever happened to other abilities in between.
  lemma SavedStateDelivered(env: Env, before: seq<Event>, m: nat, saves: Saved, between: seq<Event>,
                            token: nat, s: Sched, m': nat, ignored: Saved)
    requires env.Ok() && Legal(env, before + [App(m, saves)] + between)
    requires SavesFor(Run(env, before), App(m, saves), token)
    requires Undisturbed(env, Run(env, before + [App(m, saves)]), between, token)
    requires s == Run(env, before + [App(m, saves)] + between)
    requires m' < |s.mail| && !s.mail[m'].done && s.mail[m'].life == CREATE && s.mail[m'].token == token
    ensures AppStep(s, m', ignored).log.restored == s.log.restored + [Delivery(token, Some(saves))]
  {
    LegalPrefix(env, before + [App(m, saves)], between);
    LegalPrefix(env, before, [App(m, saves)]);
    SaveIsStored(env, before, m, saves, token);
    RunAppend(env, before + [App(m, saves)], between);
    StoredSurvives(env, Run(env, before + [App(m, saves)]), between, token);
    RunKeeps(env, before + [App(m, saves)] + between);
    CreateDelivers(env, s, m', ignored);
  }

  // An ability that never saved is given nothing: in particular not what an earlier one with the
  // same name had saved.
  lemma NothingSavedNothingDelivered(env: Env, events: seq<Event>, m: nat, ignored: Saved)
    requires env.Ok() && Legal(env, events)
    requires var s := Run(env, events);
             m < |s.mail| && !s.mail[m].done && s.mail[m].life == CREATE && s.mail[m].token !in s.log.stored
    ensures var s := Run(env, events);
            AppStep(s, m, ignored).log.restored == s.log.restored + [Delivery(s.mail[m].token, None)]
  {
    RunKeeps(env, events);
    CreateDelivers(env, Run(env, events), m, ignored);
  }

  // ---------- bulk termination ----------

  // KeepRecs is an order-preserving filter.
  lemma {:induction false} KeepRecsFilters(p: Purge, a: seq<Rec>, b: seq<Rec>)
    ensures forall r :: r in KeepRecs(p, a) <==> r in a && Spared(p, r.item)
    ensures KeepRecs(p, a + b) == KeepRecs(p, a) + KeepRecs(p, b)
    decreases |a|
  {
    hide Spared;
    if a == [] {
      assert a + b == b;
    } else {
      KeepRecsFilters(p, a[1..], b);
      KeepRecsFirst(p, a[0], a[1..]);
      KeepRecsFirst(p, a[0], a[1..] + b);
      assert a == [a[0]] + a[1..] && a + b == [a[0]] + (a[1..] + b);
    }
  }

  lemma KeepRecsFirst(p: Purge, r: Rec, l: seq<Rec>)
    ensures KeepRecs(p, [r] + l) == (if Spared(p, r.item) then [r] else []) + KeepRecs(p, l)
  {
    assert ([r] + l)[1..] == l;
  }

  // a is b with some of its records left out.
  predicate Sublist(a: seq<Rec>, b: seq<Rec>)
    decreases |b|
  {
    || a == []
    || (b != [] && ((a[0] == b[0] && Sublist(a[1..], b[1..])) || Sublist(a, b[1..])))
  }

  lemma {:induction false} KeepRecsSublist(p: Purge, l: seq<Rec>)
    ensures Sublist(KeepRecs(p, l), l)
  {
    if l != [] {
      var kept := KeepRecs(p, l[1..]);
      KeepRecsSublist(p, l[1..]);
      assert ([l[0]] + kept)[1..] == kept && [] + kept == kept;
    }
  }

  // Home and the abilities the request does not ask for outlive it.
  predicate Outlives(r: Request, it: Item)
    requires r.TerminateMission? || r.TerminateAll?
  {
    it.token == LAUNCHER_TOKEN || if r.TerminateMission? then it.mission != r.mission else r.excluded == Some(it.name)
  }

  function PurgeOf(r: Request): Purge
    requires r.TerminateMission? || r.TerminateAll?
  {
    if r.TerminateMission? then ByMission(r.mission) else AllBut(r.excluded)
  }

  // From rest, TerminateMission leaves the top, home and the abilities of other missions, and
  // TerminateAll the top, home and the excluded bundle, in their order and as they were. The manager
  // is idle again.
  lemma BulkTermination(env: Env, s: Sched, r: Request)
    requires env.Ok() && Idle(env, s) && (r.TerminateMission? || r.TerminateAll?)
    ensures var s' := HandleRequest(env, s, r);
            && Idle(env, s') && s'.list[0] == s.list[0] && Sublist(s'.list, s.list)
            && (forall x :: x in s'.list <==> x == s.list[0] || (x in s.list[1..] && Outlives(r, x.item)))
            && s' == s.(list := s'.list,
                        log := s.log.(received := s.log.received + [r], executed := s.log.executed + [r]))
  {
    var p, rest := PurgeOf(r), s.list[1..];
    BulkIs(env, s, r);
    BulkIdle(env, s, p, HandleRequest(env, s, r));
    hide *;
    KeepRecsFilters(p, rest, []);
    SublistFirst(s.list, KeepRecs(p, rest));
    KeepRecsSublist(p, rest);
    SparedOutlive(env, s, r);
  }

  lemma SparedOutlive(env: Env, s: Sched, r: Request)
    requires env.Ok() && Base(env, s) && (r.TerminateMission? || r.TerminateAll?)
    ensures forall x :: x in s.list ==> (Spared(PurgeOf(r), x.item) <==> Outlives(r, x.item))
  {
    forall x | x in s.list ensures Spared(PurgeOf(r), x.item) <==> Outlives(r, x.item) {
      var i :| 0 <= i < |s.list| && s.list[i] == x;
      assert ItemOk(env, Raw(s), Items(s.list)[i]);
    }
  }

  lemma SublistFirst(b: seq<Rec>, a: seq<Rec>)
    requires b != []
    ensures Sublist(a, b[1..]) ==> Sublist([b[0]] + a, b)
  {
    assert ([b[0]] + a)[1..] == a;
  }

  lemma BulkIdle(env: Env, s: Sched, p: Purge, s': Sched)
    requires Idle(env, s) && s'.list == [s.list[0]] + KeepRecs(p, s.list[1..])
    requires s' == s.(list := s'.list, log := s'.log) && s'.log.stored == s.log.stored
    ensures Idle(env, s')
  {
    PurgeSteps(env, s, p);
    var l := s'.list;
    assert Ready(env, s.(list := l));
    assert forall i :: 0 < i < |l| ==> Resting(s.(list := l), l[i]) && Resting(s', l[i]);
  }

  lemma BulkIs(env: Env, s: Sched, r: Request)
    requires Idle(env, s) && (r.TerminateMission? || r.TerminateAll?)
    ensures HandleRequest(env, s, r)
            == s.(list := [s.list[0]] + KeepRecs(PurgeOf(r), s.list[1..]),
                  log := s.log.(received := s.log.received + [r], executed := s.log.executed + [r]))
  {
    var s0 := s.(log := s.log.(received := s.log.received + [r], executed := s.log.executed + [r]));
    assert !Perform(env, s0, r).0.scheduling && Perform(env, s0, r).0.queue == [];
  }

  // ---------- home ----------

  lemma SettledHasHome(env: Env, s: Sched)
    requires Ready(env, s) || Switching(env, s)
    ensures HasHome(Settled(s.list))
  {
    hide DistinctItems, ItemOk;
    var items := Items(s.list);
    var h :| 0 <= h < |items| && items[h].token == LAUNCHER_TOKEN;
    var c := if Leaving(env, s) then Current(s) else 0;
    if s.list[c].terminated {
      assert items[c] == s.list[c].item;
      assert Settled(s.list)[if h < c then h else h - 1] == items[h];
    }
  }

  // A request carried out from rest keeps home on the list unless it is TERMINATE_APP for home while
  // home is on top; then it is lost.
  lemma HomeStaysUnlessForced(env: Env, s: Sched, r: Request)
    requires env.Ok() && Ready(env, s) && Perform(env, s, r).0.generated <= TOKEN_PERIOD
    ensures HasHome(Abs(Perform(env, s, r).0).items) <==> !StopsHome(Abs(s), r)
  {
    if StopsHome(Abs(s), r) {
      ForcedHomeIsLost(env, s);
    } else {
      PerformSteps(env, s, r);
      var (s', ok) := Perform(env, s, r);
      SettledHasHome(env, if !ok || !s'.scheduling then s'.(scheduling := false) else s');
    }
  }

  lemma ForcedHomeIsLost(env: Env, s: Sched)
    requires env.Ok() && Ready(env, s) && s.list[0].item.token == LAUNCHER_TOKEN
    ensures !HasHome(Settled(ForceStopBundle(env, s.(scheduling := true), LAUNCHER_TOKEN).0.list))
  {
    var s1 := s.(scheduling := true, list := s.list[0 := s.list[0].(terminated := true)]);
    assert Items(s1.list)[0] == Items(s.list)[0];
    var s2 := s1.(list := Drop(s1.list, 0));
    assert s2.list == s.list[1..];
    var s' := DestroyDone(s1, LAUNCHER_TOKEN);
    assert s'.list == if s2.list == [] then [] else CreateTask(s2, 0).list;
    forall j | 0 <= j < |s'.list| ensures Items(s'.list)[j].token != LAUNCHER_TOKEN {
      assert Items(s'.list)[j] == Items(s.list)[j + 1] && Items(s.list)[0].token != Items(s.list)[j + 1].token;
    }
    assert Settled(s'.list) == Items(s'.list);
  }
}
