/** The byte form of a Want's parameters: one nested type-length-value record a parameter, with 8-bit lengths. */
module WantTlv {
  import opened Options
  import opened Widths

  type byte = x: int | 0 <= x < 256
  type Octets = seq<byte>

  const INT_VALUE_TYPE: byte := 6
  const STRING_VALUE_TYPE: byte := 13
  const KEY_VALUE_PAIR_TYPE: byte := 97
  const HEADER: nat := 2
  // The longest value EncapTlv can wrap: the record's total length is kept in a uint8.
  const VALUE_LIMIT: nat := 253
  const INT32_RANGE: int := 0x8000_0000

  // A key or a string value comes with a uint8 length; an int is an int32.
  datatype Param =
    | IntParam(key: Octets, number: int)
    | StrParam(key: Octets, text: Octets)

  // What the C signatures admit.
  predicate Typed(p: Param) {
    |p.key| < 256 && match p
                     case IntParam(_, n) => -INT32_RANGE <= n < INT32_RANGE
                     case StrParam(_, t) => |t| < 256
  }

  // ---------- what the bytes are ----------

  function Record(kind: byte, value: Octets): Octets
    requires |value| < 256
  {
    [kind, |value|] + value
  }

  function BigEndian(n: int): Octets
    requires 0 <= n < INT32_RANGE
  {
    [n / 0x100_0000, n / 0x1_0000 % 0x100, n / 0x100 % 0x100, n % 0x100]
  }

  function ValueLength(p: Param): nat {
    match p
    case IntParam(_, _) => 4
    case StrParam(_, t) => |t|
  }

  // Accepted parameters: a key, a value that is not negative or empty, and room for both records.
  predicate Accepted(p: Param) {
    && 0 < |p.key| && 0 < ValueLength(p) && (p.IntParam? ==> 0 <= p.number < INT32_RANGE)
    && HEADER + |p.key| + HEADER + ValueLength(p) <= VALUE_LIMIT
  }

  // Both records fit a buffer of uint8 length, or one of them is not made at all.
  predicate CopiesFit(p: Param) {
    || |p.key| == 0 || |p.key| > VALUE_LIMIT || ValueLength(p) == 0 || ValueLength(p) > VALUE_LIMIT
    || (p.IntParam? && p.number < 0)
    || HEADER + |p.key| + HEADER + ValueLength(p) < 256
  }

  // Parameters the code handles without leaving its buffers.
  predicate Sound(ps: seq<Param>) { forall p :: p in ps ==> Typed(p) && CopiesFit(p) }

  function ValueRecord(p: Param): Octets
    requires Accepted(p)
  {
    match p
    case IntParam(_, n) => Record(INT_VALUE_TYPE, BigEndian(n))
    case StrParam(_, t) => Record(STRING_VALUE_TYPE, t)
  }

  function Pair(p: Param): Octets
    requires Accepted(p)
  {
    Record(STRING_VALUE_TYPE, p.key) + ValueRecord(p)
  }

  function Entry(p: Param): Octets
    requires Accepted(p)
  {
    Record(KEY_VALUE_PAIR_TYPE, Pair(p))
  }

  // Rejected parameters leave no trace.
  function Encode(ps: seq<Param>): Octets {
    if ps == [] then []
    else if Accepted(ps[0]) then Entry(ps[0]) + Encode(ps[1..])
    else Encode(ps[1..])
  }

  function Kept(ps: seq<Param>): seq<Param> {
    if ps == [] then []
    else if Accepted(ps[0]) then [ps[0]] + Kept(ps[1..])
    else Kept(ps[1..])
  }

  // ---------- reading it back ----------

  // The value of the record of this kind s starts with, and what follows it.
  function ReadRecord(s: Octets, kind: byte): Option<(Octets, Octets)> {
    if |s| < HEADER || s[0] != kind || |s| < HEADER + s[1] then None
    else Some((s[HEADER..HEADER + s[1]], s[HEADER + s[1]..]))
  }

  function FromBigEndian(b: Octets): int
    requires |b| == 4
  {
    b[0] as int * 0x100_0000 + b[1] as int * 0x1_0000 + b[2] as int * 0x100 + b[3]
  }

  function ReadPair(s: Octets): Option<Param> {
    var key := ReadRecord(s, STRING_VALUE_TYPE);
    if key.None? then None
    else
      var number, text := ReadRecord(key.value.1, INT_VALUE_TYPE), ReadRecord(key.value.1, STRING_VALUE_TYPE);
      if number.Some? && |number.value.0| == 4 then Some(IntParam(key.value.0, FromBigEndian(number.value.0)))
      else if text.Some? then Some(StrParam(key.value.0, text.value.0))
      else None
  }

  function Decode(s: Octets): Option<seq<Param>>
    decreases |s|
  {
    if s == [] then Some([])
    else
      var record := ReadRecord(s, KEY_VALUE_PAIR_TYPE);
      if record.None? then None
      else
        var first, rest := ReadPair(record.value.0), Decode(record.value.1);
        if first.None? || rest.None? then None else Some([first.value] + rest.value)
  }

  lemma RecordReadBack(kind: byte, value: Octets, rest: Octets)
    requires |value| < 256
    ensures ReadRecord(Record(kind, value) + rest, kind) == Some((value, rest))
  {
    var s := Record(kind, value) + rest;
    assert s[HEADER..HEADER + |value|] == value;
    assert s[HEADER + |value|..] == rest;
  }

  lemma BigEndianReadBack(n: int)
    requires 0 <= n < INT32_RANGE
    ensures FromBigEndian(BigEndian(n)) == n
  {
    var n1, n2 := n / 0x100, n / 0x1_0000;
    SplitByte(n);
    SplitByte(n1);
    SplitByte(n2);
    DivideTwice(n);
  }

  lemma SplitByte(n: int)
    ensures n == 0x100 * (n / 0x100) + n % 0x100
  {
  }

  lemma DivideTwice(n: int)
    ensures n / 0x1_0000 == n / 0x100 / 0x100 && n / 0x100_0000 == n / 0x1_0000 / 0x100
  {
  }

  lemma PairReadBack(p: Param)
    requires Accepted(p)
    ensures ReadPair(Pair(p)) == Some(p)
  {
    RecordReadBack(STRING_VALUE_TYPE, p.key, ValueRecord(p));
    assert ValueRecord(p) == ValueRecord(p) + [];
    match p
    case IntParam(_, n) =>
      RecordReadBack(INT_VALUE_TYPE, BigEndian(n), []);
      BigEndianReadBack(n);
    case StrParam(_, t) =>
      RecordReadBack(STRING_VALUE_TYPE, t, []);
  }

  // Every accepted parameter can be read back, in order.
  lemma {:induction false} DecodeEncode(ps: seq<Param>)
    ensures Decode(Encode(ps)) == Some(Kept(ps))
  {
    if ps != [] {
      DecodeEncode(ps[1..]);
      if Accepted(ps[0]) {
        RecordReadBack(KEY_VALUE_PAIR_TYPE, Pair(ps[0]), Encode(ps[1..]));
        PairReadBack(ps[0]);
      }
    }
  }

  // Two runs of calls give the same bytes exactly when they had the same accepted parameters.
  lemma UniquelyDecodable(ps: seq<Param>, qs: seq<Param>)
    ensures Encode(ps) == Encode(qs) <==> Kept(ps) == Kept(qs)
  {
    DecodeEncode(ps);
    DecodeEncode(qs);
    EncodeKept(ps);
    EncodeKept(qs);
  }

  lemma {:induction false} EncodeKept(ps: seq<Param>)
    ensures Encode(Kept(ps)) == Encode(ps)
  {
    if ps != [] {
      EncodeKept(ps[1..]);
      if Accepted(ps[0]) {
        assert Kept(ps)[0] == ps[0] && Kept(ps)[1..] == Kept(ps[1..]);
      }
    }
  }

  // ---------- the bytes themselves ----------

  // Which parameters are accepted.
  lemma AcceptedExactly(p: Param)
    requires Typed(p)
    ensures Accepted(p) <==> match p
                             case IntParam(key, n) => 1 <= |key| <= 245 && n >= 0
                             case StrParam(key, t) => 1 <= |key| && 1 <= |t| && |key| + |t| <= 249
  {
  }

  // A pair, tag 97, of the key, a string with tag 13, and the value, an int with tag 6 or a string; each with its
  // length behind the tag, the int with its highest byte first.
  lemma EntryBytes(p: Param)
    requires Accepted(p)
    ensures Entry(p) == match p
                        case IntParam(key, n) =>
                          [97, (|key| + 8) as byte, 13, |key| as byte] + key
                          + [6, 4, (n / 16777216) as byte, (n / 65536 % 256) as byte, (n / 256 % 256) as byte,
                             (n % 256) as byte]
                        case StrParam(key, t) =>
                          [97, (|key| + |t| + 4) as byte, 13, |key| as byte] + key + [13, |t| as byte] + t
  {
  }

  // ---------- a run of calls ----------

  // Memdup gives null for no bytes.
  function Duplicate(d: Octets): Option<Octets> { if d == [] then None else Some(d) }

  function Content(data: Option<Octets>): Octets { if data.Some? then data.value else [] }

  // The data after one call. The new length is kept in a uint16.
  function Appended(data: Option<Octets>, p: Param): Option<Octets> {
    if !Accepted(p) then data
    else
      var whole := Content(data) + Entry(p);
      Duplicate(whole[..|whole| % UINT16_RANGE])
  }

  function AfterCalls(ps: seq<Param>): Option<Octets> {
    if ps == [] then None else Appended(AfterCalls(ps[..|ps| - 1]), ps[|ps| - 1])
  }

  lemma {:induction false} EncodeLast(ps: seq<Param>, p: Param)
    ensures Encode(ps + [p]) == Encode(ps) + (if Accepted(p) then Entry(p) else [])
  {
    if ps == [] {
      assert ps + [p] == [p];
      assert Encode([p]) == (if Accepted(p) then Entry(p) else []) + Encode([]);
    } else {
      assert (ps + [p])[1..] == ps[1..] + [p];
      EncodeLast(ps[1..], p);
    }
  }

  // Setting parameters on a Want without data leaves exactly their concatenated records there, as long as
  // they take no more than 65535 bytes.
  lemma {:induction false} DataIsConcatenation(ps: seq<Param>)
    requires Sound(ps) && |Encode(ps)| < UINT16_RANGE
    ensures AfterCalls(ps) == Duplicate(Encode(ps))
  {
    if ps != [] {
      var but, p := ps[..|ps| - 1], ps[|ps| - 1];
      assert ps == but + [p];
      EncodeLast(but, p);
      DataIsConcatenation(but);
      AppendedIs(Encode(but), p);
    }
  }

  lemma AppendedIs(d: Octets, p: Param)
    requires !Accepted(p) || |d + Entry(p)| < UINT16_RANGE
    ensures Appended(Duplicate(d), p) == Duplicate(d + if Accepted(p) then Entry(p) else [])
  {
    if Accepted(p) {
      var whole := d + Entry(p);
      assert whole[..|whole|] == whole;
    } else {
      assert d + [] == d;
    }
  }

  // A call keeps what was there and adds its record exactly when the new length fits 16 bits.
  lemma AppendsExactlyWhenItFits(data: Option<Octets>, p: Param)
    requires data != Some([]) && Accepted(p) && |Content(data)| < UINT16_RANGE
    ensures Appended(data, p) == Some(Content(data) + Entry(p)) <==> |Content(data)| + |Entry(p)| < UINT16_RANGE
  {
    var whole := Content(data) + Entry(p);
    assert |whole[..|whole| % UINT16_RANGE]| == |whole| % UINT16_RANGE;
    assert whole[..|whole|] == whole;
  }

  lemma RunsAreUniquelyDecodable(ps: seq<Param>, qs: seq<Param>)
    requires Sound(ps) && Sound(qs) && |Encode(ps)| < UINT16_RANGE && |Encode(qs)| < UINT16_RANGE
    ensures Decode(Content(AfterCalls(ps))) == Some(Kept(ps))
    ensures AfterCalls(ps) == AfterCalls(qs) <==> Kept(ps) == Kept(qs)
  {
    DataIsConcatenation(ps);
    DataIsConcatenation(qs);
    DecodeEncode(ps);
    UniquelyDecodable(ps, qs);
  }

  // ---------- the code ----------

  // memcpy_s: fails when the room is empty or too small.
  method CopyInto(dest: array<byte>, at: nat, destMax: nat, source: Octets) returns (ok: bool)
    requires at <= dest.Length && (0 < destMax && |source| <= destMax ==> at + |source| <= dest.Length)
    modifies dest
    ensures ok == (0 < destMax && |source| <= destMax)
    ensures dest[..] == if ok then old(dest[..at]) + source + old(dest[at + |source|..]) else old(dest[..])
  {
    if destMax == 0 || destMax < |source| { return false; }
    for i := 0 to |source|
      invariant dest[..at] == old(dest[..at]) && dest[at..at + i] == source[..i]
      invariant dest[at + i..] == old(dest[at + i..])
    {
      dest[at + i] := source[i];
    }
    return true;
  }

  datatype Tlv = Tlv(kind: byte, entity: Octets)

  function Encapped(kind: byte, value: Octets): Option<Tlv>
  {
    if 0 < |value| <= VALUE_LIMIT then Some(Tlv(kind, Record(kind, value))) else None
  }

  method EncapTlv(kind: byte, value: Octets) returns (tlv: Option<Tlv>)
    requires |value| < 256
    ensures tlv == Encapped(kind, value)
  {
    var valueLen := |value|;
    var totalLen := (valueLen + HEADER) % 256;
    var entity := new byte[totalLen];
    var ok := CopyInto(entity, 0, totalLen, [kind]);
    if !ok { return None; }
    ok := CopyInto(entity, 1, totalLen - 1, [valueLen]);
    if !ok { return None; }
    ok := CopyInto(entity, 2, valueLen, value);
    if !ok { return None; }
    assert entity[..] == Record(kind, value);
    return Some(Tlv(kind, entity[..]));
  }

  // A new buffer filled by two copies.
  method Joined(first: Octets, second: Octets) returns (r: Octets)
    requires first != [] && second != []
    ensures r == first + second
  {
    var buffer := new byte[|first| + |second|];
    var ok := CopyInto(buffer, 0, |first|, first);
    ok := CopyInto(buffer, |first|, |second|, second);
    return buffer[..];
  }

  // The copies stay inside the new buffer only if its uint8 length did not wrap.
  method CombineKeyValueTlv(keyTlv: Tlv, valueTlv: Tlv) returns (tlv: Option<Tlv>)
    requires 0 < |keyTlv.entity| && 0 < |valueTlv.entity| && |keyTlv.entity| + |valueTlv.entity| < 256
    ensures tlv == Encapped(KEY_VALUE_PAIR_TYPE, keyTlv.entity + valueTlv.entity)
  {
    var newTlvValueLen := (|keyTlv.entity| + |valueTlv.entity|) % 256;
    var newTlvValue := Joined(keyTlv.entity, valueTlv.entity);
    assert |newTlvValue| == newTlvValueLen;
    tlv := EncapTlv(KEY_VALUE_PAIR_TYPE, newTlvValue);
  }

  // ---------- where the copies go ----------

  // The record of the value, if it is made.
  function ValueTlv(p: Param): Option<Tlv>
    requires Typed(p)
  {
    match p
    case IntParam(_, n) => if n < 0 then None else Encapped(INT_VALUE_TYPE, BigEndian(n))
    case StrParam(_, t) => Encapped(STRING_VALUE_TYPE, t)
  }

  // The length of the buffer for both records is kept in a uint8.
  function BufferLength(keyTlv: Tlv, valueTlv: Tlv): nat { (|keyTlv.entity| + |valueTlv.entity|) % 256 }

  // The copies into that buffer, at 0 and behind the key's record, stay inside it.
  predicate StayInside(keyTlv: Tlv, valueTlv: Tlv) {
    |keyTlv.entity| + |valueTlv.entity| <= BufferLength(keyTlv, valueTlv)
  }

  // If both records are made, they fit exactly when their lengths add up to less than 256.
  lemma CopiesStayInside(p: Param)
    requires Typed(p)
    ensures var keyTlv, valueTlv := Encapped(STRING_VALUE_TYPE, p.key), ValueTlv(p);
            (keyTlv.Some? && valueTlv.Some? ==> StayInside(keyTlv.value, valueTlv.value)) <==> CopiesFit(p)
  {
    var keyTlv, valueTlv := Encapped(STRING_VALUE_TYPE, p.key), ValueTlv(p);
    if keyTlv.Some? && valueTlv.Some? {
      assert |keyTlv.value.entity| == HEADER + |p.key| && |valueTlv.value.entity| == HEADER + ValueLength(p);
    }
  }

  // A key of 200 bytes with a value of 100 makes records of 202 and 102 bytes, for which the buffer has 48.
  lemma LongPairDoesNotFit(k: byte, v: byte)
    ensures var p := StrParam(seq(200, _ => k), seq(100, _ => v));
            && Typed(p) && !CopiesFit(p)
            && var keyTlv, valueTlv := Encapped(STRING_VALUE_TYPE, p.key), ValueTlv(p);
               && keyTlv.Some? && valueTlv.Some? && BufferLength(keyTlv.value, valueTlv.value) == 48
               && |keyTlv.value.entity| + |valueTlv.value.entity| == 304
  {
  }

  function Power256(n: nat): (r: nat)
    ensures r > 0
  {
    if n == 0 then 1 else 256 * Power256(n - 1)
  }

  // The lowest byte after a shift by n bytes.
  function Shifted(value: int, n: nat): byte {
    value / Power256(n) % 256
  }

  lemma ShiftedBytes(value: int)
    requires 0 <= value < INT32_RANGE
    ensures BigEndian(value) == [Shifted(value, 3), Shifted(value, 2), Shifted(value, 1), Shifted(value, 0)]
  {
    assert Power256(2) == 256 * Power256(1);
  }

  method IntBytes(value: int) returns (bytes: Octets)
    requires 0 <= value < INT32_RANGE
    ensures bytes == BigEndian(value)
  {
    hide Shifted, BigEndian;
    var intBuffer := new byte[4](_ => 0);
    for i := 0 to 4
      invariant forall j :: 0 <= j < i ==> intBuffer[j] == Shifted(value, 3 - j)
    {
      intBuffer[i] := Shifted(value, 3 - i);
    }
    ShiftedBytes(value);
    assert intBuffer[..] == BigEndian(value);
    return intBuffer[..];
  }

  class Want {
    var data: Option<Octets>

    constructor ()
      ensures data == None
    {
      data := None;
    }

    method SetWantData(bytes: Octets)
      modifies this
      ensures data == Duplicate(bytes)
    {
      data := if bytes == [] then None else Some(bytes);
    }

    method UpdateWantData(tlv: Tlv) returns (result: bool)
      requires data != Some([]) && 0 < |tlv.entity| < 256
      modifies this
      ensures result
      ensures var whole := old(Content(data)) + tlv.entity; data == Duplicate(whole[..|whole| % UINT16_RANGE])
    {
      if data.None? {
        SetWantData(tlv.entity);
        assert ([] + tlv.entity)[..|tlv.entity| % UINT16_RANGE] == tlv.entity;
        return true;
      }
      var newWantData := Joined(data.value, tlv.entity);
      SetWantData(newWantData[..|newWantData| % UINT16_RANGE]);
      return true;
    }

    method SetIntParam(key: Octets, value: int) returns (result: bool)
      requires data != Some([]) && Typed(IntParam(key, value)) && CopiesFit(IntParam(key, value))
      modifies this
      ensures data == Appended(old(data), IntParam(key, value)) && result == Accepted(IntParam(key, value))
    {
      if |key| == 0 { return false; }
      var keyTlv := EncapTlv(STRING_VALUE_TYPE, key);
      if keyTlv.None? { return false; }
      if value < 0 { return false; }
      var intBuffer := IntBytes(value);
      var valueTlv := EncapTlv(INT_VALUE_TYPE, intBuffer);
      if valueTlv.None? { return false; }
      var newTlv := CombineKeyValueTlv(keyTlv.value, valueTlv.value);
      if newTlv.None? { return false; }
      result := UpdateWantData(newTlv.value);
    }

    method SetStrParam(key: Octets, value: Octets) returns (result: bool)
      requires data != Some([]) && Typed(StrParam(key, value)) && CopiesFit(StrParam(key, value))
      modifies this
      ensures data == Appended(old(data), StrParam(key, value)) && result == Accepted(StrParam(key, value))
    {
      if |key| == 0 || |value| == 0 { return false; }
      var keyTlv := EncapTlv(STRING_VALUE_TYPE, key);
      if keyTlv.None? { return false; }
      var valueTlv := EncapTlv(STRING_VALUE_TYPE, value);
      if valueTlv.None? { return false; }
      var newTlv := CombineKeyValueTlv(keyTlv.value, valueTlv.value);
      if newTlv.None? { return false; }
      result := UpdateWantData(newTlv.value);
    }

    method SetParam(p: Param) returns (result: bool)
      requires data != Some([]) && Typed(p) && CopiesFit(p)
      modifies this
      ensures data == Appended(old(data), p) && result == Accepted(p)
    {
      match p {
        case IntParam(key, number) => result := SetIntParam(key, number);
        case StrParam(key, text) => result := SetStrParam(key, text);
      }
    }

    // A run of calls on a Want without data.
    method SetParams(ps: seq<Param>) returns (results: seq<bool>)
      requires data == None && Sound(ps)
      modifies this
      ensures data == AfterCalls(ps)
      ensures |results| == |ps| && forall i :: 0 <= i < |ps| ==> results[i] == Accepted(ps[i])
    {
      results := [];
      for n := 0 to |ps|
        invariant data == AfterCalls(ps[..n]) && data != Some([])
        invariant |results| == n && forall i :: 0 <= i < n ==> results[i] == Accepted(ps[i])
      {
        assert ps[n] in ps && ps[..n + 1][..n] == ps[..n];
        var result := SetParam(ps[n]);
        results := results + [result];
      }
      assert ps[..|ps|] == ps;
    }
  }
}
