/** The bytes an ability keeps across its own destruction. */
module SavedState {
  import opened Options
  import opened SliteTypes

  datatype ResultCode = OK | INVALID_PARAM | EXCEED_UPPER_LIMIT | ALLOC_ERROR | NO_DATA

  const SAVED_DATA_LIMIT: nat := 1024

  datatype Saved = Saved(data: Bytes, userData: Bytes, code: ResultCode)
  const NOTHING_SAVED := Saved([], [], NO_DATA)

  // The answer to a Set call; a null buffer is None.
  function SetAnswer(buffer: Option<Bytes>): ResultCode {
    if buffer.None? || buffer.value == [] then INVALID_PARAM
    else if |buffer.value| > SAVED_DATA_LIMIT then EXCEED_UPPER_LIMIT
    else OK
  }

  // A rejected Set leaves the earlier bytes as they were.
  function Stored(old_: Bytes, buffer: Option<Bytes>): Bytes {
    if SetAnswer(buffer) == OK then buffer.value else old_
  }

  // The answer to a Get call into a buffer of the given size, and what is copied into it.
  function Fetched(stored: Bytes, room: Option<nat>): (ResultCode, Bytes) {
    if room.None? || room.value < |stored| then (INVALID_PARAM, [])
    else if stored == [] then (NO_DATA, [])
    else (OK, stored)
  }

  // One to 1024 bytes are accepted; a buffer that is null or empty is one fault, a longer one another.
  lemma AcceptsExactly(buffer: Option<Bytes>)
    ensures SetAnswer(buffer) == OK <==> buffer.Some? && 1 <= |buffer.value| <= 1024
    ensures SetAnswer(buffer) == EXCEED_UPPER_LIMIT <==> buffer.Some? && |buffer.value| > 1024
    ensures SetAnswer(buffer) == INVALID_PARAM <==> buffer.None? || buffer.value == []
  {
  }

  // Stored bytes come out whole, into any buffer that can hold them, or not at all.
  lemma FetchesWhole(stored: Bytes, room: Option<nat>)
    ensures var (code, bytes) := Fetched(stored, room);
            && (code == OK <==> room.Some? && 1 <= |stored| <= room.value)
            && (code == NO_DATA <==> room.Some? && stored == [])
            && (code == INVALID_PARAM <==> room.None? || room.value < |stored|)
            && bytes == if code == OK then stored else []
  {
  }

  lemma SetThenGet(before: Bytes, buffer: Option<Bytes>, room: nat)
    requires |before| <= room && (buffer.Some? ==> |buffer.value| <= room)
    ensures var (code, bytes) := Fetched(Stored(before, buffer), Some(room));
            if SetAnswer(buffer) == OK then code == OK && Some(bytes) == buffer
            else (code, bytes) == Fetched(before, Some(room))
  {
  }

  class AbilitySavedData {
    var savedData: Bytes      // [] stands for the null pointer with size 0
    var userSavedData: Bytes
    var savedResult: ResultCode

    ghost function View(): Saved
      reads this
    {
      Saved(savedData, userSavedData, savedResult)
    }

    constructor ()
      ensures View() == NOTHING_SAVED
    {
      savedData, userSavedData, savedResult := [], [], NO_DATA;
    }

    method SetSavedData(buffer: Option<Bytes>) returns (code: ResultCode)
      modifies this`savedData
      ensures code == SetAnswer(buffer)
      ensures View() == old(View()).(data := Stored(old(savedData), buffer))
    {
      if buffer.None? || buffer.value == [] { return INVALID_PARAM; }
      if |buffer.value| > SAVED_DATA_LIMIT { return EXCEED_UPPER_LIMIT; }
      savedData := buffer.value;
      return OK;
    }

    method SetUserSavedData(buffer: Option<Bytes>) returns (code: ResultCode)
      modifies this`userSavedData
      ensures code == SetAnswer(buffer)
      ensures View() == old(View()).(userData := Stored(old(userSavedData), buffer))
    {
      if buffer.None? || buffer.value == [] { return INVALID_PARAM; }
      if |buffer.value| > SAVED_DATA_LIMIT { return EXCEED_UPPER_LIMIT; }
      userSavedData := buffer.value;
      return OK;
    }

    // sized: the caller gave somewhere to put the number of bytes copied.
    method GetSavedData(room: Option<nat>, sized: bool) returns (code: ResultCode, bytes: Bytes, size: Option<nat>)
      ensures (code, bytes) == if sized then Fetched(savedData, room) else (INVALID_PARAM, [])
      ensures size == if sized then Some(|bytes|) else None
    {
      if !sized { return INVALID_PARAM, [], None; }
      if room.None? || room.value < |savedData| { return INVALID_PARAM, [], Some(0); }
      if savedData == [] { return NO_DATA, [], Some(0); }
      return OK, savedData, Some(|savedData|);
    }

    method GetUserSavedData(room: Option<nat>, sized: bool) returns (code: ResultCode, bytes: Bytes, size: Option<nat>)
      ensures (code, bytes) == if sized then Fetched(userSavedData, room) else (INVALID_PARAM, [])
      ensures size == if sized then Some(|bytes|) else None
    {
      if !sized { return INVALID_PARAM, [], None; }
      if room.None? || room.value < |userSavedData| { return INVALID_PARAM, [], Some(0); }
      if userSavedData == [] { return NO_DATA, [], Some(0); }
      return OK, userSavedData, Some(|userSavedData|);
    }

    method SetSavedResultCode(code: ResultCode)
      modifies this`savedResult
      ensures View() == old(View()).(code := code)
    {
      savedResult := code;
    }

    method Reset()
      modifies this
      ensures View() == NOTHING_SAVED
    {
      savedData, userSavedData, savedResult := [], [], NO_DATA;
    }
  }
}
