/** The records of the slite ability manager and the list that orders them, as heap objects. */
module AbilityLists {
  import opened Options
  import opened Sequences
  import opened SliteTypes
  import opened SavedState
  import opened Scheduler

  // The task an app runs in; only whether a record has one matters here.
  class AbilityThread {
    const token: nat

    constructor (token: nat) {
      this.token := token;
    }
  }

  class AbilityRecord {
    const token: nat
    const appName: string
    const isNativeApp: bool
    var wantData: Bytes
    var mission: nat
    var state: RecordState
    var isTerminated: bool
    var abilityThread: AbilityThread?
    var abilitySavedData: AbilitySavedData?

    constructor (token: nat, appName: string, wantData: Bytes, mission: nat, isNativeApp: bool)
      ensures abilitySavedData == null && abilityThread == null
      ensures View() == Rec(Item(token, appName, wantData, mission, isNativeApp), STOP, false, false, None)
    {
      this.token, this.appName, this.wantData, this.mission := token, appName, wantData, mission;
      this.isNativeApp := isNativeApp;
      state, isTerminated, abilityThread, abilitySavedData := STOP, false, null, null;
    }

    ghost function View(): Rec
      reads this, abilitySavedData
    {
      Rec(Item(token, appName, wantData, mission, isNativeApp), state, abilityThread != null, isTerminated,
          if abilitySavedData == null then None else Some(abilitySavedData.View()))
    }

    predicate IsPermanentAbility() {
      token == LAUNCHER_TOKEN || appName == MAIN_BUNDLE_NAME
    }
  }

  // v is what the records of the list hold at the moment.
  ghost predicate Linked(l: seq<AbilityRecord>, v: seq<Rec>)
    reads l, set r | r in l :: r.abilitySavedData
  {
    |v| == |l| && forall i :: 0 <= i < |l| ==> l[i].View() == v[i]
  }

  // No record is listed twice and no two share their saved data.
  ghost predicate Separate(l: seq<AbilityRecord>)
    reads l
  {
    forall i, j :: 0 <= i < j < |l| ==>
      l[i] != l[j] && (l[i].abilitySavedData == null || l[i].abilitySavedData != l[j].abilitySavedData)
  }

  class AbilityList {
    const capacity: nat
    var abilityList_: seq<AbilityRecord>
    ghost var view: seq<Rec>

    ghost predicate Valid()
      reads this, abilityList_, set r | r in abilityList_ :: r.abilitySavedData
    {
      2 <= capacity && Linked(abilityList_, view) && Separate(abilityList_)
    }

    constructor (capacity: nat)
      requires 2 <= capacity
      ensures this.capacity == capacity && abilityList_ == [] && view == [] && Valid()
    {
      this.capacity, abilityList_, view := capacity, [], [];
    }

    method Get(token: nat) returns (record: AbilityRecord?)
      requires Valid()
      ensures var i := TokenIndex(Items(view), token);
              record == if i == |abilityList_| then null else abilityList_[i]
    {
      var n := 0;
      while n < |abilityList_|
        invariant n <= |abilityList_|
        invariant forall j :: 0 <= j < n ==> Items(view)[j].token != token
      {
        assert abilityList_[n].View() == view[n];
        if abilityList_[n].token == token {
          assert Items(view)[n].token == token;
          return abilityList_[n];
        }
        n := n + 1;
      }
      return null;
    }

    method GetByName(bundleName: string) returns (record: AbilityRecord?)
      requires Valid()
      ensures var i := NameIndex(Items(view), bundleName);
              record == if i == |abilityList_| then null else abilityList_[i]
    {
      var n := 0;
      while n < |abilityList_|
        invariant n <= |abilityList_|
        invariant forall j :: 0 <= j < n ==> Items(view)[j].name != bundleName
      {
        assert abilityList_[n].View() == view[n];
        if abilityList_[n].appName == bundleName {
          assert Items(view)[n].name == bundleName;
          return abilityList_[n];
        }
        n := n + 1;
      }
      return null;
    }

    function GetTopAbility(): AbilityRecord?
      reads this
    {
      if abilityList_ == [] then null else abilityList_[0]
    }

    method Erase(token: nat)
      requires Valid()
      modifies this
      ensures Valid()
      ensures var i := TokenIndex(Items(old(view)), token);
              if i == |old(view)| then abilityList_ == old(abilityList_) && view == old(view)
              else abilityList_ == Drop(old(abilityList_), i) && view == Drop(old(view), i)
    {
      var n := 0;
      while n < |abilityList_|
        invariant n <= |abilityList_| && abilityList_ == old(abilityList_) && view == old(view) && Valid()
        invariant forall j :: 0 <= j < n ==> Items(view)[j].token != token
      {
        assert abilityList_[n].View() == view[n];
        if abilityList_[n].token == token {
          assert Items(view)[n].token == token;
          DropStays(abilityList_, view, n);
          abilityList_ := abilityList_[..n] + abilityList_[n + 1..];
          view := Drop(view, n);
          return;
        }
        n := n + 1;
      }
    }

    method PopAbility()
      requires Valid() && abilityList_ != []
      modifies this
      ensures Valid() && abilityList_ == old(abilityList_)[1..] && view == old(view)[1..]
    {
      abilityList_, view := abilityList_[1..], view[1..];
    }

    // The bottom record goes, or the one above it if the bottom one is home. On a list of one, home stays.
    method PopBottomAbility()
      requires Valid()
      modifies this
      ensures Valid()
      ensures 2 <= |old(view)| ==>
                var n, l := |old(view)|, old(abilityList_);
                abilityList_ == if IsPermanent(old(view)[n - 1].item) then l[..n - 2] + [l[n - 1]] else l[..n - 1]
      ensures 2 <= |old(view)| ==>
                var e := EvictIndex(Items(old(view)));
                abilityList_ == Drop(old(abilityList_), e) && view == Drop(old(view), e)
      ensures |old(view)| <= 1 ==>
                if old(view) == [] || IsPermanent(old(view)[0].item)
                then abilityList_ == old(abilityList_) && view == old(view)
                else abilityList_ == [] && view == []
    {
      if abilityList_ == [] { return; }
      if |abilityList_| == 1 {
        PopOnly();
      } else {
        PopLast();
      }
    }

    method PopOnly()
      requires Valid() && |abilityList_| == 1
      modifies this
      ensures Valid()
      ensures if IsPermanent(old(view)[0].item) then abilityList_ == old(abilityList_) && view == old(view)
              else abilityList_ == [] && view == []
    {
      var lastRecord := abilityList_[0];
      assert lastRecord.View() == view[0];
      if !lastRecord.IsPermanentAbility() {
        abilityList_, view := [], [];
      }
    }

    method PopLast()
      requires Valid() && 2 <= |abilityList_|
      modifies this
      ensures Valid()
      ensures var e := EvictIndex(Items(old(view)));
              abilityList_ == Drop(old(abilityList_), e) && view == Drop(old(view), e)
    {
      hide TokenIndex;
      var lastRecord := abilityList_[|abilityList_| - 1];
      ghost var l := abilityList_;
      ghost var e := EvictIndex(Items(view));
      assert lastRecord.View() == view[|view| - 1];
      DropStays(abilityList_, view, e);
      abilityList_ := abilityList_[..|abilityList_| - 1];
      if lastRecord.IsPermanentAbility() {
        // lastRecord is home: it goes back after the one above it has been removed
        abilityList_ := abilityList_[..|abilityList_| - 1];
        abilityList_ := abilityList_ + [lastRecord];
      }
      assert abilityList_ == Drop(l, e);
      view := Drop(view, e);
    }

    ghost predicate New(r: AbilityRecord)
      reads this, abilityList_, r
    {
      forall i :: 0 <= i < |abilityList_| ==>
        abilityList_[i] != r
        && (r.abilitySavedData == null || abilityList_[i].abilitySavedData != r.abilitySavedData)
    }

    // A record that is on the list already is not listed again.
    method Add(abilityRecord: AbilityRecord)
      requires Valid() && (New(abilityRecord) || abilityRecord in abilityList_)
      modifies this
      ensures Valid() && view == Scheduler.Add(capacity, old(view), abilityRecord.View())
      ensures forall r :: r in abilityList_ ==> r == abilityRecord || r in old(abilityList_)
      ensures old(abilityList_) == [] ==> abilityList_ == [abilityRecord]
      ensures TokenIndex(Items(Trim(capacity, old(view))), abilityRecord.token) == |Trim(capacity, old(view))| ==>
                abilityList_[0] == abilityRecord
                && abilityList_[1..] == if capacity <= |old(view)|
                                        then Drop(old(abilityList_), EvictIndex(Items(old(view))))
                                        else old(abilityList_)
    {
      MakeRoom(abilityRecord);
      PushNew(abilityRecord);
    }

    // The first step of Add.
    method MakeRoom(abilityRecord: AbilityRecord)
      requires Valid() && (New(abilityRecord) || abilityRecord in abilityList_)
      modifies this
      ensures Valid() && (New(abilityRecord) || abilityRecord in abilityList_)
      ensures view == Trim(capacity, old(view))
      ensures abilityList_ == if capacity <= |old(view)| then Drop(old(abilityList_), EvictIndex(Items(old(view))))
                              else old(abilityList_)
    {
      if |abilityList_| >= capacity {
        ghost var l := abilityList_;
        PopBottomAbility();
        DropLacks(l, EvictIndex(Items(old(view))));
      }
    }

    lemma NotListed(token: nat)
      requires Valid() && TokenIndex(Items(view), token) == |view|
      ensures forall r :: r in abilityList_ ==> r.token != token
    {
      forall k | 0 <= k < |abilityList_| ensures abilityList_[k].token != token {
        assert abilityList_[k].View() == view[k] && view[k].item == Items(view)[k];
      }
    }

    method PushNew(abilityRecord: AbilityRecord)
      requires Valid() && (New(abilityRecord) || abilityRecord in abilityList_)
      modifies this
      ensures Valid()
      ensures TokenIndex(Items(old(view)), abilityRecord.token) == |old(view)| ==>
                view == [abilityRecord.View()] + old(view) && abilityList_ == [abilityRecord] + old(abilityList_)
      ensures TokenIndex(Items(old(view)), abilityRecord.token) < |old(view)| ==>
                view == old(view) && abilityList_ == old(abilityList_)
    {
      var present := Get(abilityRecord.token);
      if present == null {
        NotListed(abilityRecord.token);
        Push(abilityRecord);
      }
    }

    method Push(abilityRecord: AbilityRecord)
      requires Valid() && New(abilityRecord)
      modifies this
      ensures Valid() && view == [abilityRecord.View()] + old(view)
      ensures abilityList_ == [abilityRecord] + old(abilityList_)
    {
      view := [abilityRecord.View()] + view;
      abilityList_ := [abilityRecord] + abilityList_;
    }

    // The record is put back by Add, which brings it to the front of a list that is within its capacity
    // and whose tokens and names are distinct.
    method MoveToTop(token: nat) returns (found: bool)
      requires Valid()
      modifies this
      ensures Valid()
      ensures var i := TokenIndex(Items(old(view)), token);
              && found == (i < |old(view)|)
              && view == (if found then Scheduler.Add(capacity, Drop(old(view), i), old(view)[i]) else old(view))
              && (!found ==> abilityList_ == old(abilityList_))
      ensures var i := TokenIndex(Items(old(view)), token);
              found && |old(view)| <= capacity && DistinctItems(Items(old(view))) ==>
                && abilityList_ == [old(abilityList_)[i]] + Drop(old(abilityList_), i)
                && view == [old(view)[i]] + Drop(old(view), i)
    {
      hide Trim, Scheduler.Add, TokenIndex, Drop, DistinctItems, Separate;
      var abilityRecord := Get(token);
      if abilityRecord == null { return false; }
      ghost var i := TokenIndex(Items(view), token);
      ghost var v, l := view, abilityList_;
      assert abilityRecord.View() == v[i];
      Erase(token);
      DropLacks(l, i);
      PutBack(abilityRecord, v, i);
      return true;
    }

    // Add, for the record that was the i-th.
    method PutBack(abilityRecord: AbilityRecord, ghost v: seq<Rec>, ghost i: nat)
      requires Valid() && New(abilityRecord) && i < |v| && view == Drop(v, i) && abilityRecord.View() == v[i]
      modifies this
      ensures Valid() && view == Scheduler.Add(capacity, Drop(v, i), v[i])
      ensures |v| <= capacity && DistinctItems(Items(v)) ==>
                view == [v[i]] + Drop(v, i) && abilityList_ == [abilityRecord] + old(abilityList_)
    {
      hide Trim, Scheduler.Add, TokenIndex, Drop, DistinctItems, Separate, EvictIndex;
      if |v| <= capacity && DistinctItems(Items(v)) { AddBack(capacity, v, i); }
      Add(abilityRecord);
      assert abilityList_ != [] ==> abilityList_ == [abilityList_[0]] + abilityList_[1..];
    }

    // Tokens of the abilities of a mission, the bottom one first.
    method GetAbilityList(mission: nat) returns (tokens: seq<nat>)
      requires Valid()
      ensures tokens == MissionTokens(view, mission)
      ensures forall t :: t in tokens <==>
                exists i :: 0 <= i < |view| && view[i].item.mission == mission && view[i].item.token == t
    {
      tokens := [];
      for n := 0 to |abilityList_|
        invariant tokens == MissionTokens(view[..n], mission)
      {
        var record := abilityList_[n];
        assert record.View() == view[n] && view[..n + 1][..n] == view[..n];
        if record.mission == mission {
          tokens := [record.token] + tokens;
        }
      }
      assert view[..|view|] == view;
      forall t
        ensures t in tokens <==>
                  exists i :: 0 <= i < |view| && view[i].item.mission == mission && view[i].item.token == t
      {
        MissionTokensAre(view, mission, t);
      }
    }

    method PopAllAbility(excludedBundleName: Option<string>) returns (ok: bool)
      requires Valid()
      modifies this
      ensures Valid() && ok == (old(view) != [])
      ensures view == if ok then [old(view)[0]] + KeepRecs(AllBut(excludedBundleName), old(view)[1..]) else []
      ensures ok ==> abilityList_ == [old(abilityList_)[0]] + KeepRecords(excludedBundleName, old(abilityList_)[1..])
    {
      if abilityList_ == [] { return false; }
      ghost var l, v := abilityList_, view;
      var reservedRecordList := Reserve(excludedBundleName);
      ghost var kept := [l[0]] + KeepRecords(excludedBundleName, l[1..]);
      Refill(reservedRecordList, kept);
      KeepRecordsStay(excludedBundleName, l, v);
      view := [v[0]] + KeepRecs(AllBut(excludedBundleName), v[1..]);
      return true;
    }

    // The second loop of PopAllAbility: the records kept come back in their old order.
    method Refill(reserved: seq<AbilityRecord>, ghost kept: seq<AbilityRecord>)
      requires abilityList_ == [] && reserved == Reversed(kept)
      modifies this`abilityList_
      ensures abilityList_ == kept
    {
      var reservedRecordList := reserved;
      ghost var k := |kept|;
      assert kept[..k] == kept;
      while reservedRecordList != []
        invariant 0 <= k <= |kept| && reservedRecordList == Reversed(kept[..k]) && abilityList_ == kept[k..]
        decreases k
      {
        assert kept[..k] == kept[..k - 1] + [kept[k - 1]];
        ReversedAppend(kept[..k - 1], kept[k - 1]);
        abilityList_ := [reservedRecordList[0]] + abilityList_;
        reservedRecordList := reservedRecordList[1..];
        k := k - 1;
      }
      ReversedLength(kept[..k]);
    }

    // The first loop of PopAllAbility: empties the list into a stack of the records to keep.
    method Reserve(excludedBundleName: Option<string>) returns (reservedRecordList: seq<AbilityRecord>)
      requires abilityList_ != []
      modifies this`abilityList_
      ensures var l := old(abilityList_);
              reservedRecordList == Reversed([l[0]] + KeepRecords(excludedBundleName, l[1..]))
      ensures abilityList_ == []
    {
      ghost var l := abilityList_;
      ghost var n := 1;
      reservedRecordList := [abilityList_[0]];
      abilityList_ := abilityList_[1..];
      while abilityList_ != []
        invariant 1 <= n <= |l| && abilityList_ == l[n..]
        invariant reservedRecordList == Reversed([l[0]] + KeepRecords(excludedBundleName, l[1..n]))
        decreases |abilityList_|
      {
        var record := abilityList_[0];
        abilityList_ := abilityList_[1..];
        assert l[1..n + 1] == l[1..n] + [record];
        KeepRecordsAppend(excludedBundleName, [l[0]], l[1..n], record);
        n := n + 1;
        if record.IsPermanentAbility() || excludedBundleName == Some(record.appName) {
          reservedRecordList := [record] + reservedRecordList;
        }
      }
      assert l[1..n] == l[1..];
    }

    // The front two change places, both popped and added again.
    method SwapTop(topRecord: AbilityRecord, newTopRecord: AbilityRecord)
      requires Valid() && 2 <= |abilityList_| <= capacity && DistinctItems(Items(view))
      requires topRecord == abilityList_[0] && newTopRecord == abilityList_[1]
      modifies this
      ensures Valid() && view == [old(view)[1], old(view)[0]] + old(view)[2..]
      ensures abilityList_ == [newTopRecord, topRecord] + old(abilityList_)[2..]
    {
      hide DistinctItems;
      ghost var v, l := view, abilityList_;
      PopSecond(topRecord);
      SwapLacks(v);
      AddAbsent(newTopRecord);
      assert v[1] == l[1].View();
      assert view == [v[1], v[0]] + v[2..];
    }

    method PopSecond(topRecord: AbilityRecord)
      requires Valid() && 2 <= |abilityList_| <= capacity && DistinctItems(Items(view)) && topRecord == abilityList_[0]
      modifies this
      ensures Valid() && view == [old(view)[0]] + old(view)[2..]
      ensures abilityList_ == [topRecord] + old(abilityList_)[2..]
      ensures New(old(abilityList_)[1])
    {
      hide TokenIndex, Drop;
      ghost var v := view;
      assert topRecord.View() == v[0];
      PopAbility();
      PopAbility();
      TailLacks(v, 0, 2);
      AddAbsent(topRecord);
    }

    // The top record stays, but only until its app is gone.
    method RetireTop(topRecord: AbilityRecord, newTopRecord: AbilityRecord, want: Option<Bytes>)
      requires Valid() && 2 <= |abilityList_| && topRecord == abilityList_[0] && newTopRecord == abilityList_[1]
      modifies topRecord`isTerminated, newTopRecord`wantData, newTopRecord`mission, this`view
      ensures Valid() && topRecord.View() == view[0]
      ensures view == [old(view)[0].(terminated := true), WithData(old(view)[1], want)] + old(view)[2..]
    {
      SetTerminated(topRecord, 0);
      UpdateWant(newTopRecord, want, 1);
    }

    method ExchangeTop(topRecord: AbilityRecord, newTopRecord: AbilityRecord, want: Option<Bytes>)
      requires Valid() && 2 <= |abilityList_| <= capacity && DistinctItems(Items(view))
      requires topRecord == abilityList_[0] && newTopRecord == abilityList_[1]
      modifies this, newTopRecord`wantData, newTopRecord`mission
      ensures view == [WithData(old(view)[1], want), old(view)[0]] + old(view)[2..]
      ensures Valid() && topRecord.View() == view[1]
      ensures abilityList_ == [newTopRecord, topRecord] + old(abilityList_)[2..]
    {
      ghost var v := view;
      SwapTop(topRecord, newTopRecord);
      UpdateWant(newTopRecord, want, 0);
      assert view == [WithData(v[1], want), v[0]] + v[2..];
    }

    method UpdateWant(record: AbilityRecord, want: Option<Bytes>, ghost i: nat)
      requires Valid() && At(record, i)
      modifies record`wantData, record`mission, this`view
      ensures Valid() && view == old(view)[i := WithData(old(view)[i], want)]
    {
      assert record.View() == view[i];
      if want.Some? {
        SetWant(record, want.value, record.mission, i);
      }
    }

    // A record behind the top is brought up to date and moved to the front; the old top may be
    // marked for deletion.
    method Promote(record: AbilityRecord, data: Bytes, mission: nat, topRecord: AbilityRecord, retire: bool,
                   ghost i: nat)
      requires Valid() && At(record, i) && 0 < i && topRecord == abilityList_[0]
      requires |abilityList_| <= capacity && DistinctItems(Items(view))
      modifies this, record`wantData, record`mission, topRecord`isTerminated
      ensures var v := old(view);
              var r := v[i].(item := v[i].item.(data := data, mission := mission));
              var top := v[0].(terminated := v[0].terminated || retire);
              view == [r] + Drop(v[0 := top], i)
      ensures Valid() && abilityList_ == [record] + Drop(old(abilityList_), i)
      ensures forall r :: r in abilityList_ ==> r in old(abilityList_)
    {
      hide TokenIndex, Trim, Scheduler.Add, EvictIndex;
      ghost var v := view;
      SetWant(record, data, mission, i);
      FindMoved(v, view, i);
      var found := MoveToTop(record.token);
      Promoted(v, i, v[i].(item := v[i].item.(data := data, mission := mission)), retire);
      if retire {
        SetTerminated(topRecord, 1);
      }
    }

    // Add, when there is room and no record with the token.
    method AddAbsent(abilityRecord: AbilityRecord)
      requires Valid() && New(abilityRecord) && |abilityList_| < capacity
      requires TokenIndex(Items(view), abilityRecord.token) == |view|
      modifies this
      ensures Valid() && view == [abilityRecord.View()] + old(view)
      ensures abilityList_ == [abilityRecord] + old(abilityList_)
    {
      Add(abilityRecord);
      assert abilityList_ == [abilityList_[0]] + abilityList_[1..];
    }

    // ---------- records changed in place ----------

    ghost predicate At(record: AbilityRecord, i: nat)
      reads this
    {
      i < |abilityList_| && abilityList_[i] == record
    }

    method AttachThread(record: AbilityRecord, ghost i: nat) returns (ok: bool)
      requires Valid() && At(record, i)
      modifies record`abilityThread, record`state, this`view
      ensures Valid() && ok && view == old(view)[i := old(view)[i].(thread := true, state := STOP)]
    {
      ok := true;
      record.abilityThread := new AbilityThread(record.token);
      record.state := STOP;
      view := view[i := view[i].(thread := true, state := STOP)];
    }

    method DeleteAbilityThread(record: AbilityRecord, ghost i: nat)
      requires Valid() && At(record, i)
      modifies record`abilityThread, this`view
      ensures Valid() && view == old(view)[i := old(view)[i].(thread := false)]
    {
      if record.abilityThread != null {
        record.abilityThread := null;
      }
      view := view[i := view[i].(thread := false)];
    }

    method SetState(record: AbilityRecord, state: RecordState, ghost i: nat)
      requires Valid() && At(record, i)
      modifies record`state, this`view
      ensures Valid() && view == old(view)[i := old(view)[i].(state := state)]
    {
      record.state := state;
      view := view[i := view[i].(state := state)];
    }

    method SetTerminated(record: AbilityRecord, ghost i: nat)
      requires Valid() && At(record, i)
      modifies record`isTerminated, this`view
      ensures Valid() && view == old(view)[i := old(view)[i].(terminated := true)]
    {
      record.isTerminated := true;
      view := view[i := view[i].(terminated := true)];
    }

    method SetWant(record: AbilityRecord, data: Bytes, mission: nat, ghost i: nat)
      requires Valid() && At(record, i)
      modifies record`wantData, record`mission, this`view
      ensures Valid()
      ensures view == old(view)[i := old(view)[i].(item := old(view)[i].item.(data := data, mission := mission))]
    {
      record.wantData, record.mission := data, mission;
      view := view[i := view[i].(item := view[i].item.(data := data, mission := mission))];
    }

    // The app thread writes through the pointer it was sent; i is where that record stands.
    method HandleSave(saved: AbilitySavedData, data: Option<Bytes>, userData: Option<Bytes>, code: ResultCode,
                      ghost i: nat)
      requires Valid() && i < |abilityList_| && abilityList_[i].abilitySavedData == saved
      requires view[i].saved == Some(NOTHING_SAVED)
      modifies saved, this`view
      ensures Valid()
      ensures view == old(view)[i := old(view)[i].(saved := Some(Saved(Stored([], data), Stored([], userData), code)))]
    {
      assert abilityList_[i].View() == view[i];
      SaveInto(saved, data, userData, code);
      view := view[i := view[i].(saved := Some(saved.View()))];
    }

    method ProvideSavedData(record: AbilityRecord, ghost i: nat)
      requires Valid() && At(record, i) && record.abilitySavedData == null
      modifies record`abilitySavedData, this`view
      ensures Valid() && record.abilitySavedData != null && fresh(record.abilitySavedData)
      ensures view == old(view)[i := old(view)[i].(saved := Some(NOTHING_SAVED))]
    {
      record.abilitySavedData := new AbilitySavedData();
      view := view[i := view[i].(saved := Some(NOTHING_SAVED))];
    }

    method ResetSavedData(record: AbilityRecord, ghost i: nat)
      requires Valid() && At(record, i) && record.abilitySavedData != null
      modifies record.abilitySavedData, this`view
      ensures Valid() && view == old(view)[i := old(view)[i].(saved := Some(NOTHING_SAVED))]
    {
      record.abilitySavedData.Reset();
      view := view[i := view[i].(saved := Some(NOTHING_SAVED))];
    }

    // Somewhere empty to save to, unless the record is about to be deleted and never had one.
    method PrepareSavedData(record: AbilityRecord, ghost i: nat)
      requires Valid() && At(record, i)
      modifies record`abilitySavedData, record.abilitySavedData, this`view
      ensures Valid()
      ensures record.abilitySavedData == old(record.abilitySavedData) || fresh(record.abilitySavedData)
      ensures view == old(view)[i := old(view)[i].(
                        saved := if old(view)[i].terminated && old(view)[i].saved.None? then None
                                 else Some(NOTHING_SAVED))]
    {
      assert record.View() == view[i];
      if !record.isTerminated && record.abilitySavedData == null {
        ProvideSavedData(record, i);
      }
      if record.abilitySavedData != null {
        ResetSavedData(record, i);
      }
    }
  }

  // The app fills in the saved data it was handed.
  method SaveInto(saved: AbilitySavedData, data: Option<Bytes>, userData: Option<Bytes>, code: ResultCode)
    modifies saved
    ensures saved.View() == Saved(Stored(old(saved.savedData), data), Stored(old(saved.userSavedData), userData), code)
  {
    var answer := saved.SetSavedData(data);
    answer := saved.SetUserSavedData(userData);
    saved.SetSavedResultCode(code);
  }

  // One token for each record of the mission, from the bottom to the top.
  function MissionTokens(l: seq<Rec>, mission: nat): seq<nat> {
    if l == [] then []
    else
      var last := l[|l| - 1].item;
      (if last.mission == mission then [last.token] else []) + MissionTokens(l[..|l| - 1], mission)
  }

  lemma {:induction false} MissionTokensAre(l: seq<Rec>, mission: nat, t: nat)
    ensures t in MissionTokens(l, mission)
            <==> exists i :: 0 <= i < |l| && l[i].item.mission == mission && l[i].item.token == t
  {
    if l != [] {
      var init, last := l[..|l| - 1], l[|l| - 1];
      MissionTokensAre(init, mission, t);
      LastMatches(init, last, mission, t);
      assert l == init + [last];
    }
  }

  lemma LastMatches(l: seq<Rec>, r: Rec, mission: nat, t: nat)
    ensures (exists i :: 0 <= i < |l| + 1 && (l + [r])[i].item.mission == mission && (l + [r])[i].item.token == t)
       <==> (exists i :: 0 <= i < |l| && l[i].item.mission == mission && l[i].item.token == t)
            || (r.item.mission == mission && r.item.token == t)
  {
    if i :| 0 <= i < |l| && l[i].item.mission == mission && l[i].item.token == t {
      assert (l + [r])[i] == l[i];
    }
    assert (l + [r])[|l|] == r;
  }

  // A record dropped from a list is not the same as one that stays, nor has it the same saved data.
  lemma DropLacks(l: seq<AbilityRecord>, i: nat)
    requires i < |l| && Separate(l)
    ensures forall r :: r in l && r != l[i] ==> r in Drop(l, i)
    ensures forall j :: 0 <= j < |l| - 1 ==>
              Drop(l, i)[j] != l[i]
              && (l[i].abilitySavedData == null || Drop(l, i)[j].abilitySavedData != l[i].abilitySavedData)
  {
    forall r | r in l && r != l[i] ensures r in Drop(l, i) {
      var k :| 0 <= k < |l| && l[k] == r;
      assert Drop(l, i)[if k < i then k else k - 1] == r;
    }
  }

  lemma DropStays(l: seq<AbilityRecord>, v: seq<Rec>, i: nat)
    requires Linked(l, v) && Separate(l) && i < |l|
    ensures Linked(Drop(l, i), Drop(v, i)) && Separate(Drop(l, i))
  {
  }

  lemma Promoted(v: seq<Rec>, i: nat, r: Rec, retire: bool)
    requires 0 < i < |v|
    ensures var top := v[0].(terminated := v[0].terminated || retire);
            var w := [r] + Drop(v[i := r], i);
            w[1] == v[0] && [r] + Drop(v[0 := top], i) == if retire then w[1 := top] else w
  {
    DropUpdated(v, i, r);
    assert v[0].(terminated := v[0].terminated || false) == v[0];
    assert v[0 := v[0]] == v;
  }

  lemma FindMoved(v: seq<Rec>, w: seq<Rec>, i: nat)
    requires i < |v| && DistinctItems(Items(v)) && |w| == |v|
    requires w == v[i := w[i]] && w[i].item.token == v[i].item.token && w[i].item.name == v[i].item.name
    ensures DistinctItems(Items(w)) && TokenIndex(Items(w), w[i].item.token) == i
  {
    assert forall j :: 0 <= j < |v| ==> Items(w)[j].token == Items(v)[j].token && Items(w)[j].name == Items(v)[j].name;
    assert Items(w)[i].token == w[i].item.token;
  }

  // The i-th record is not among those from n on.
  lemma TailLacks(v: seq<Rec>, i: nat, n: nat)
    requires i < n <= |v| && DistinctItems(Items(v))
    ensures TokenIndex(Items(v[n..]), v[i].item.token) == |v| - n
  {
    forall j | 0 <= j < |v| - n ensures Items(v[n..])[j].token != v[i].item.token {
      assert Items(v[n..])[j] == Items(v)[n + j] && Items(v)[i] == v[i].item;
    }
  }

  lemma SwapLacks(v: seq<Rec>)
    requires 2 <= |v| && DistinctItems(Items(v))
    ensures TokenIndex(Items([v[0]] + v[2..]), v[1].item.token) == |v| - 1
  {
    var w := [v[0]] + v[2..];
    forall j | 0 <= j < |w| ensures Items(w)[j].token != v[1].item.token {
      assert Items(w)[j] == Items(v)[if j == 0 then 0 else j + 1] && Items(v)[1] == v[1].item;
    }
  }

  // There is room to put back the record that was just removed.
  lemma AddBack(capacity: nat, v: seq<Rec>, i: nat)
    requires i < |v| <= capacity && DistinctItems(Items(v))
    ensures var rest := Drop(v, i);
            && Trim(capacity, rest) == rest && TokenIndex(Items(rest), v[i].item.token) == |rest|
            && Scheduler.Add(capacity, rest, v[i]) == [v[i]] + rest
  {
    DroppedIsGone(v, i);
  }

  // Removing the first record with a token from a list of distinct ones leaves none with it.
  lemma DroppedIsGone(v: seq<Rec>, i: nat)
    requires i < |v| && DistinctItems(Items(v))
    ensures TokenIndex(Items(Drop(v, i)), v[i].item.token) == |v| - 1
  {
    var rest := Drop(v, i);
    forall j | 0 <= j < |rest| ensures Items(rest)[j].token != v[i].item.token {
      assert Items(rest)[j] == Items(v)[if j < i then j else j + 1];
      assert Items(v)[i].token == v[i].item.token;
    }
  }

  function KeepRecords(excluded: Option<string>, l: seq<AbilityRecord>): seq<AbilityRecord> {
    if l == [] then []
    else
      (if l[0].IsPermanentAbility() || excluded == Some(l[0].appName) then [l[0]] else [])
      + KeepRecords(excluded, l[1..])
  }

  lemma {:induction false} KeepRecordsOfMore(excluded: Option<string>, l: seq<AbilityRecord>, r: AbilityRecord)
    ensures KeepRecords(excluded, l + [r])
            == KeepRecords(excluded, l) + if r.IsPermanentAbility() || excluded == Some(r.appName) then [r] else []
  {
    if l == [] {
      assert l + [r] == [r];
    } else {
      KeepRecordsOfMore(excluded, l[1..], r);
      assert (l + [r])[1..] == l[1..] + [r];
    }
  }

  lemma KeepRecordsAppend(excluded: Option<string>, front: seq<AbilityRecord>, l: seq<AbilityRecord>, r: AbilityRecord)
    ensures Reversed(front + KeepRecords(excluded, l + [r]))
            == (if r.IsPermanentAbility() || excluded == Some(r.appName) then [r] else [])
               + Reversed(front + KeepRecords(excluded, l))
  {
    KeepRecordsOfMore(excluded, l, r);
    ReversedAppend(front + KeepRecords(excluded, l), r);
    assert KeepRecords(excluded, l) + [] == KeepRecords(excluded, l);
    assert front + (KeepRecords(excluded, l) + [r]) == (front + KeepRecords(excluded, l)) + [r];
  }

  lemma KeepRecordsStay(excluded: Option<string>, l: seq<AbilityRecord>, v: seq<Rec>)
    requires Linked(l, v) && Separate(l)
    ensures l != [] ==> var kept := [l[0]] + KeepRecords(excluded, l[1..]);
                        Linked(kept, [v[0]] + KeepRecs(AllBut(excluded), v[1..])) && Separate(kept)
  {
    if l != [] {
      KeepRecordsLinked(excluded, l[1..], v[1..]);
      assert [l[0]] + l[1..] == l;
      SeparateCons(l[0], l[1..], KeepRecords(excluded, l[1..]));
    }
  }

  lemma {:induction false} KeepRecordsKeep(excluded: Option<string>, l: seq<AbilityRecord>)
    ensures forall r :: r in KeepRecords(excluded, l) ==> r in l
  {
    if l != [] { KeepRecordsKeep(excluded, l[1..]); }
  }

  lemma {:induction false} KeepRecordsLinked(excluded: Option<string>, l: seq<AbilityRecord>, v: seq<Rec>)
    requires Linked(l, v) && Separate(l)
    ensures Linked(KeepRecords(excluded, l), KeepRecs(AllBut(excluded), v)) && Separate(KeepRecords(excluded, l))
    ensures forall r :: r in KeepRecords(excluded, l) ==> r in l
  {
    if l != [] {
      assert l[0].View() == v[0];
      KeepRecordsLinked(excluded, l[1..], v[1..]);
      assert [l[0]] + l[1..] == l;
      SeparateCons(l[0], l[1..], KeepRecords(excluded, l[1..]));
    }
  }

  // Putting a record in front of some of the records it was in front of.
  lemma SeparateCons(r: AbilityRecord, l: seq<AbilityRecord>, kept: seq<AbilityRecord>)
    requires Separate([r] + l) && Separate(kept) && forall x :: x in kept ==> x in l
    ensures Separate([r] + kept)
  {
    forall j | 0 <= j < |kept|
      ensures r != kept[j] && (r.abilitySavedData == null || r.abilitySavedData != kept[j].abilitySavedData)
    {
      assert kept[j] in kept;
      var k :| 0 <= k < |l| && l[k] == kept[j];
      assert ([r] + l)[0] == r && ([r] + l)[k + 1] == kept[j];
    }
  }
}
