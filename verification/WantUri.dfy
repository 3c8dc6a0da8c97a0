/** The text form of a Want: printing an element name as a URI and reading it back. */
module WantUri {
  import opened Options
  import opened Widths

  // None is a null C string; strings hold no NUL character.
  datatype Element = Element(device: Option<string>, bundle: Option<string>, ability: Option<string>)

  datatype UriKeyType = BEGIN | DEVICE | BUNDLE | ABILITY | END
  datatype UriProperty = UriProperty(key: string, keyType: UriKeyType)

  const URI_PROPERTIES := [
    UriProperty("#Want", BEGIN), UriProperty("device=", DEVICE), UriProperty("bundle=", BUNDLE),
    UriProperty("ability=", ABILITY), UriProperty("end", END)]

  const URI_SEPARATOR := ';'

  // ---------- what the text means ----------

  function Text(s: Option<string>): string { if s.Some? then s.value else "" }

  function Field(e: Element, t: UriKeyType): string {
    match t
    case DEVICE => Text(e.device)
    case BUNDLE => Text(e.bundle)
    case ABILITY => Text(e.ability)
    case _ => ""
  }

  function SetField(e: Element, t: UriKeyType, text: string): Element {
    match t
    case DEVICE => e.(device := Some(text))
    case BUNDLE => e.(bundle := Some(text))
    case ABILITY => e.(ability := Some(text))
    case _ => e
  }

  function PrintProperty(e: Element, p: UriProperty): string {
    if p.keyType == END then p.key else p.key + Field(e, p.keyType) + [URI_SEPARATOR]
  }

  // The k-th property and those after it.
  function PrintFrom(e: Element, ps: seq<UriProperty>, k: nat): string
    requires k <= |ps|
    decreases |ps| - k
  {
    if k == |ps| then "" else PrintProperty(e, ps[k]) + PrintFrom(e, ps, k + 1)
  }

  function Full(e: Element): string { PrintFrom(e, URI_PROPERTIES, 0) }

  // The copy handed back has its length in a uint16.
  function Printed(e: Element): string { Full(e)[..|Full(e)| % UINT16_RANGE] }

  // strchr: index of the first c from n on, or |s|.
  function IndexFrom(s: string, c: char, n: nat): (i: nat)
    requires n <= |s|
    ensures n <= i <= |s|
    ensures i < |s| ==> s[i] == c
    ensures forall j :: n <= j < i ==> s[j] != c
    decreases |s| - n
  {
    if n == |s| || s[n] == c then n else IndexFrom(s, c, n + 1)
  }

  predicate KeyAt(s: string, begin: nat, key: string) {
    begin + |key| <= |s| && s[begin..begin + |key|] == key
  }

  // Reads the k-th property and those after it, from position begin on. What follows "#Want" up to the
  // separator, and whatever follows "end", is skipped.
  function ParseFrom(s: string, begin: nat, ps: seq<UriProperty>, k: nat, e: Element): Option<Element>
    requires k <= |ps|
    decreases |ps| - k
  {
    if k == |ps| then Some(e)
    else
      var p := ps[k];
      if !KeyAt(s, begin, p.key) then None
      else if p.keyType == END then Some(e)
      else
        var end := IndexFrom(s, URI_SEPARATOR, begin + |p.key|);
        if end == |s| then None
        else ParseFrom(s, end + 1, ps, k + 1, SetField(e, p.keyType, s[begin + |p.key|..end]))
  }

  const NO_ELEMENT := Element(None, None, None)

  function Parsed(s: string): Option<Element> { ParseFrom(s, 0, URI_PROPERTIES, 0, NO_ELEMENT) }

  // Null fields are printed, and therefore read back, as empty ones.
  function Normal(e: Element): Element { Element(Some(Text(e.device)), Some(Text(e.bundle)), Some(Text(e.ability))) }

  predicate Clean(e: Element) {
    URI_SEPARATOR !in Text(e.device) && URI_SEPARATOR !in Text(e.bundle) && URI_SEPARATOR !in Text(e.ability)
  }

  // ---------- round trips ----------

  lemma IndexIs(s: string, c: char, n: nat, i: nat)
    requires n <= i <= |s| && (i < |s| ==> s[i] == c) && forall j :: n <= j < i ==> s[j] != c
    ensures IndexFrom(s, c, n) == i
  {
  }

  // What reading the printed properties from the k-th on adds to an element.
  function Filled(sofar: Element, e: Element, ps: seq<UriProperty>, k: nat): Element
    requires k <= |ps|
    decreases |ps| - k
  {
    if k == |ps| || ps[k].keyType == END then sofar
    else Filled(SetField(sofar, ps[k].keyType, Field(e, ps[k].keyType)), e, ps, k + 1)
  }

  lemma SplitAt(s: string, begin: nat, first: string, rest: string)
    requires begin <= |s| && s[begin..] == first + rest
    ensures begin + |first| <= |s|
    ensures s[begin..begin + |first|] == first && s[begin + |first|..] == rest
  {
    assert s[begin..begin + |first|] == s[begin..][..|first|];
    assert s[begin + |first|..] == s[begin..][|first|..];
  }

  // One printed property, found again at begin: its key, its text, and what follows.
  lemma KeyFound(s: string, begin: nat, key: string, rest: string)
    requires begin <= |s| && s[begin..] == key + rest
    ensures KeyAt(s, begin, key) && s[begin + |key|..] == rest
  {
    SplitAt(s, begin, key, rest);
  }

  lemma TextFound(s: string, from: nat, text: string, rest: string)
    requires from <= |s| && s[from..] == text + ([URI_SEPARATOR] + rest) && URI_SEPARATOR !in text
    ensures IndexFrom(s, URI_SEPARATOR, from) == from + |text| < |s|
    ensures s[from..from + |text|] == text && s[from + |text| + 1..] == rest
  {
    SplitAt(s, from, text, [URI_SEPARATOR] + rest);
    SplitAt(s, from + |text|, [URI_SEPARATOR], rest);
    assert s[from + |text|] == s[from + |text|..][0];
    FirstSeparator(s, from, text);
  }

  lemma FirstSeparator(s: string, from: nat, text: string)
    requires from + |text| < |s| && s[from..from + |text|] == text && URI_SEPARATOR !in text
    requires s[from + |text|] == URI_SEPARATOR
    ensures IndexFrom(s, URI_SEPARATOR, from) == from + |text|
  {
    forall j | from <= j < from + |text| ensures s[j] != URI_SEPARATOR {
      assert s[j] == text[j - from] && text[j - from] in text;
    }
    IndexIs(s, URI_SEPARATOR, from, from + |text|);
  }

  // Reading one property that is there.
  lemma ParseStep(s: string, begin: nat, ps: seq<UriProperty>, k: nat, sofar: Element, from: nat, next: Element)
    requires k < |ps| && ps[k].keyType != END && KeyAt(s, begin, ps[k].key)
    requires var text := begin + |ps[k].key|;
             && IndexFrom(s, URI_SEPARATOR, text) < |s| && from == IndexFrom(s, URI_SEPARATOR, text) + 1
             && next == SetField(sofar, ps[k].keyType, s[text..from - 1])
    ensures ParseFrom(s, begin, ps, k, sofar) == ParseFrom(s, from, ps, k + 1, next)
  {
  }

  // One property that is there is read.
  lemma ReadsOne(s: string, begin: nat, ps: seq<UriProperty>, k: nat, sofar: Element, text: string, rest: string)
    returns (from: nat)
    requires begin <= |s| && k < |ps| && ps[k].keyType != END && URI_SEPARATOR !in text
    requires s[begin..] == ps[k].key + (text + ([URI_SEPARATOR] + rest))
    ensures from <= |s| && s[from..] == rest
    ensures ParseFrom(s, begin, ps, k, sofar) == ParseFrom(s, from, ps, k + 1, SetField(sofar, ps[k].keyType, text))
  {
    hide ParseFrom;
    KeyFound(s, begin, ps[k].key, text + ([URI_SEPARATOR] + rest));
    TextFound(s, begin + |ps[k].key|, text, rest);
    from := begin + |ps[k].key| + |text| + 1;
    ParseStep(s, begin, ps, k, sofar, from, SetField(sofar, ps[k].keyType, text));
  }

  lemma {:induction false} ParsePrinted(s: string, begin: nat, e: Element, ps: seq<UriProperty>, k: nat, sofar: Element)
    requires Clean(e) && k <= |ps| && begin <= |s| && s[begin..] == PrintFrom(e, ps, k)
    ensures ParseFrom(s, begin, ps, k, sofar) == Some(Filled(sofar, e, ps, k))
    decreases |ps| - k
  {
    if k == |ps| {
    } else if ps[k].keyType == END {
      KeyFound(s, begin, ps[k].key, PrintFrom(e, ps, k + 1));
      ParseEnd(s, begin, ps, k, sofar);
    } else {
      var from, next := PrintedStep(s, begin, e, ps, k, sofar);
      ParsePrinted(s, from, e, ps, k + 1, next);
    }
  }

  lemma PrintedStep(s: string, begin: nat, e: Element, ps: seq<UriProperty>, k: nat, sofar: Element)
    returns (from: nat, next: Element)
    requires Clean(e) && k < |ps| && ps[k].keyType != END && begin <= |s| && s[begin..] == PrintFrom(e, ps, k)
    ensures from <= |s| && s[from..] == PrintFrom(e, ps, k + 1)
    ensures next == SetField(sofar, ps[k].keyType, Field(e, ps[k].keyType))
    ensures ParseFrom(s, begin, ps, k, sofar) == ParseFrom(s, from, ps, k + 1, next)
  {
    hide ParseFrom, PrintFrom;
    var text := Field(e, ps[k].keyType);
    PrintedProperty(e, ps, k);
    from := ReadsOne(s, begin, ps, k, sofar, text, PrintFrom(e, ps, k + 1));
    next := SetField(sofar, ps[k].keyType, text);
  }

  lemma ParseEnd(s: string, begin: nat, ps: seq<UriProperty>, k: nat, sofar: Element)
    requires k < |ps| && ps[k].keyType == END && KeyAt(s, begin, ps[k].key)
    ensures ParseFrom(s, begin, ps, k, sofar) == Some(sofar)
  {
  }

  lemma PrintedProperty(e: Element, ps: seq<UriProperty>, k: nat)
    requires k < |ps| && ps[k].keyType != END
    ensures PrintFrom(e, ps, k) == ps[k].key + (Field(e, ps[k].keyType) + ([URI_SEPARATOR] + PrintFrom(e, ps, k + 1)))
  {
  }

  // The text itself, for every element.
  lemma FullText(e: Element)
    ensures Full(e) == "#Want" + ";" + "device=" + Text(e.device) + ";" + "bundle=" + Text(e.bundle) + ";"
                       + "ability=" + Text(e.ability) + ";" + "end"
    ensures |Full(e)| <= 65535 ==> Printed(e) == Full(e)
  {
    hide PrintFrom, PrintProperty;
    var ps := URI_PROPERTIES;
    PrintedProperty(e, ps, 0);
    PrintedProperty(e, ps, 1);
    PrintedProperty(e, ps, 2);
    PrintedProperty(e, ps, 3);
    PrintedEnd(e);
    Regroup("#Want", ";", "device=", Text(e.device), "bundle=", Text(e.bundle), "ability=", Text(e.ability), "end");
  }

  lemma PrintedEnd(e: Element)
    ensures PrintFrom(e, URI_PROPERTIES, 4) == "end"
  {
    assert PrintProperty(e, URI_PROPERTIES[4]) == "end";
    assert PrintFrom(e, URI_PROPERTIES, 5) == "";
  }

  lemma Regroup(begin: string, sep: string, k1: string, v1: string, k2: string, v2: string, k3: string, v3: string,
                end: string)
    ensures begin + ("" + (sep + (k1 + (v1 + (sep + (k2 + (v2 + (sep + (k3 + (v3 + (sep + end)))))))))))
         == begin + sep + k1 + v1 + sep + k2 + v2 + sep + k3 + v3 + sep + end
  {
  }

  // END comes last and no kind of property comes twice.
  ghost predicate WellOrdered(ps: seq<UriProperty>) {
    && (forall k :: 0 <= k < |ps| - 1 ==> ps[k].keyType != END)
    && (forall j, k :: 0 <= j < k < |ps| ==> ps[j].keyType != ps[k].keyType)
  }

  // A field no later property sets keeps its value.
  lemma {:induction false} ParseLeaves(s: string, begin: nat, ps: seq<UriProperty>, k: nat, sofar: Element, e: Element,
                                       t: UriKeyType)
    requires k <= |ps| && ParseFrom(s, begin, ps, k, sofar) == Some(e)
    requires forall j :: k <= j < |ps| ==> ps[j].keyType != t
    ensures Field(e, t) == Field(sofar, t)
    decreases |ps| - k
  {
    if k < |ps| && ps[k].keyType != END {
      var p, end := ps[k], IndexFrom(s, URI_SEPARATOR, begin + |ps[k].key|);
      ParseLeaves(s, end + 1, ps, k + 1, SetField(sofar, p.keyType, s[begin + |p.key|..end]), e, t);
    }
  }

  // What is read back is clean.
  lemma {:induction false} ParsedIsClean(s: string, begin: nat, ps: seq<UriProperty>, k: nat, sofar: Element,
                                         e: Element)
    requires k <= |ps| && ParseFrom(s, begin, ps, k, sofar) == Some(e) && Clean(sofar)
    ensures Clean(e)
    decreases |ps| - k
  {
    if k < |ps| && ps[k].keyType != END {
      var p, end := ps[k], IndexFrom(s, URI_SEPARATOR, begin + |ps[k].key|);
      var text := s[begin + |p.key|..end];
      assert forall j :: 0 <= j < |text| ==> text[j] == s[begin + |p.key| + j];
      ParsedIsClean(s, end + 1, ps, k + 1, SetField(sofar, p.keyType, text), e);
    }
  }

  // It is filled from its own fields.
  lemma {:induction false} ParsedIsFilled(s: string, begin: nat, ps: seq<UriProperty>, k: nat, sofar: Element,
                                          e: Element)
    requires k <= |ps| && ParseFrom(s, begin, ps, k, sofar) == Some(e) && WellOrdered(ps)
    ensures e == Filled(sofar, e, ps, k)
    decreases |ps| - k
  {
    if k < |ps| && ps[k].keyType != END {
      var p, end := ps[k], IndexFrom(s, URI_SEPARATOR, begin + |ps[k].key|);
      var text := s[begin + |p.key|..end];
      var next := SetField(sofar, p.keyType, text);
      ParsedIsFilled(s, end + 1, ps, k + 1, next, e);
      ParseLeaves(s, end + 1, ps, k + 1, next, e, p.keyType);
      SetFieldSets(sofar, p.keyType, text);
    }
  }

  // The text read is at least as long as what would be printed.
  lemma {:induction false} PrintedFits(s: string, begin: nat, ps: seq<UriProperty>, k: nat, sofar: Element, e: Element)
    requires k <= |ps| && begin <= |s| && ParseFrom(s, begin, ps, k, sofar) == Some(e) && WellOrdered(ps)
    ensures begin + |PrintFrom(e, ps, k)| <= |s|
    decreases |ps| - k
  {
    if k < |ps| && ps[k].keyType == END {
      assert k == |ps| - 1;
    } else if k < |ps| {
      var p, end := ps[k], IndexFrom(s, URI_SEPARATOR, begin + |ps[k].key|);
      var text := s[begin + |p.key|..end];
      var next := SetField(sofar, p.keyType, text);
      PrintedFits(s, end + 1, ps, k + 1, next, e);
      ParseLeaves(s, end + 1, ps, k + 1, next, e, p.keyType);
      assert |PrintProperty(e, p)| <= |p.key| + |text| + 1;
    }
  }

  lemma SetFieldSets(e: Element, t: UriKeyType, text: string)
    ensures var r := SetField(e, t, text);
            && (t == BEGIN || t == END || Field(r, t) == text) && SetField(e, t, Field(r, t)) == r
  {
  }

  lemma PropertiesAreOrdered()
    ensures WellOrdered(URI_PROPERTIES)
  {
  }

  lemma ParsedFacts(s: string, e: Element)
    requires Parsed(s) == Some(e)
    ensures Clean(e) && e == Normal(e) && |Full(e)| <= |s|
  {
    PropertiesAreOrdered();
    ParsedIsClean(s, 0, URI_PROPERTIES, 0, NO_ELEMENT, e);
    ParsedIsFilled(s, 0, URI_PROPERTIES, 0, NO_ELEMENT, e);
    PrintedFits(s, 0, URI_PROPERTIES, 0, NO_ELEMENT, e);
    FilledIsNormal(e);
  }

  lemma FilledIsNormal(e: Element)
    ensures Filled(NO_ELEMENT, e, URI_PROPERTIES, 0) == Normal(e)
  {
    var ps := URI_PROPERTIES;
    var e1 := SetField(NO_ELEMENT, DEVICE, Text(e.device));
    var e2 := SetField(e1, BUNDLE, Text(e.bundle));
    assert Filled(Normal(e), e, ps, 4) == Normal(e);
    assert Filled(e2, e, ps, 3) == Normal(e);
    assert Filled(e1, e, ps, 2) == Normal(e);
    assert Filled(NO_ELEMENT, e, ps, 1) == Normal(e);
  }

  // Printing and reading back gives the same fields exactly when none of them holds a separator and
  // the whole text fits a uint16 length.
  lemma RoundTrip(e: Element)
    ensures Parsed(Printed(e)) == Some(Normal(e)) <==> Clean(e) && |Full(e)| < UINT16_RANGE
  {
    hide ParseFrom, PrintFrom;
    if Clean(e) && |Full(e)| < UINT16_RANGE {
      assert Printed(e) == Printed(e)[0..] == Full(e);
      ParsePrinted(Printed(e), 0, e, URI_PROPERTIES, 0, NO_ELEMENT);
      FilledIsNormal(e);
    } else if Parsed(Printed(e)) == Some(Normal(e)) {
      ParsedFacts(Printed(e), Normal(e));
      SameText(e, URI_PROPERTIES, 0);
    }
  }

  lemma {:induction false} SameText(e: Element, ps: seq<UriProperty>, k: nat)
    requires k <= |ps|
    ensures PrintFrom(Normal(e), ps, k) == PrintFrom(e, ps, k)
    decreases |ps| - k
  {
    if k < |ps| { SameText(e, ps, k + 1); }
  }

  // Reading an accepted text, printing it and reading again changes nothing, whatever stood after
  // "#Want" or after "end", if and only if what is printed fits 16 bits; it does if the text did.
  lemma ParsePrintParse(s: string)
    requires Parsed(s).Some?
    ensures Parsed(Printed(Parsed(s).value)) == Parsed(s) <==> |Full(Parsed(s).value)| < UINT16_RANGE
    ensures |s| < UINT16_RANGE ==> Parsed(Printed(Parsed(s).value)) == Parsed(s)
  {
    ParsedFacts(s, Parsed(s).value);
    RoundTrip(Parsed(s).value);
  }

  // ---------- which texts are accepted ----------

  // The text is that of the element, but for what stands between "#Want" and the first separator, and behind "end".
  ghost predicate Spells(s: string, e: Element) {
    && Clean(e) && e == Normal(e)
    && exists skipped, tail :: URI_SEPARATOR !in skipped && s == Spelled(skipped, e, tail)
  }

  function Spelled(skipped: string, e: Element, tail: string): string {
    "#Want" + skipped + ";" + "device=" + Text(e.device) + ";" + "bundle=" + Text(e.bundle) + ";"
    + "ability=" + Text(e.ability) + ";" + ("end" + tail)
  }

  // One property that was read, with its text and what follows the separator.
  lemma ReadOne(s: string, begin: nat, ps: seq<UriProperty>, k: nat, sofar: Element, e: Element)
    returns (text: string, from: nat)
    requires begin <= |s| && k < |ps| && ps[k].keyType != END && ParseFrom(s, begin, ps, k, sofar) == Some(e)
    ensures from <= |s| && URI_SEPARATOR !in text
    ensures s[begin..] == ps[k].key + (text + ([URI_SEPARATOR] + s[from..]))
    ensures ParseFrom(s, from, ps, k + 1, SetField(sofar, ps[k].keyType, text)) == Some(e)
  {
    var p := ps[k];
    var end := IndexFrom(s, URI_SEPARATOR, begin + |p.key|);
    text, from := s[begin + |p.key|..end], end + 1;
    assert forall j :: 0 <= j < |text| ==> text[j] == s[begin + |p.key| + j];
    assert s[begin..] == s[begin..begin + |p.key|] + (text + (s[end..from] + s[from..]));
  }

  // Exactly these texts are accepted, and this is what is read from them.
  lemma AcceptsExactly(s: string, e: Element)
    ensures Parsed(s) == Some(e) <==> Spells(s, e)
  {
    hide ParseFrom;
    if Parsed(s) == Some(e) { AcceptedSpells(s, e); }
    if Spells(s, e) {
      var skipped, tail :| URI_SEPARATOR !in skipped && s == Spelled(skipped, e, tail);
      SpelledIsAccepted(skipped, e, tail);
    }
  }

  lemma AcceptedSpells(s: string, e: Element)
    requires Parsed(s) == Some(e)
    ensures Spells(s, e)
  {
    hide ParseFrom, Spelled;
    var ps := URI_PROPERTIES;
    ParsedFacts(s, e);
    assert s[0..] == s;
    var skipped, n1 := ReadOne(s, 0, ps, 0, NO_ELEMENT, e);
    var d, n2 := ReadOne(s, n1, ps, 1, NO_ELEMENT, e);
    var e2 := NO_ELEMENT.(device := Some(d));
    var b, n3 := ReadOne(s, n2, ps, 2, e2, e);
    var e3 := e2.(bundle := Some(b));
    var a, n4 := ReadOne(s, n3, ps, 3, e3, e);
    var tail := EndRead(s, n4, e3.(ability := Some(a)), e);
    assert e == Element(Some(d), Some(b), Some(a));
    Assemble(s, s[n1..], s[n2..], s[n3..], s[n4..], skipped, e, tail);
  }

  lemma Assemble(s: string, s1: string, s2: string, s3: string, s4: string, skipped: string, e: Element, tail: string)
    requires s == "#Want" + (skipped + ([URI_SEPARATOR] + s1))
    requires s1 == "device=" + (Text(e.device) + ([URI_SEPARATOR] + s2))
    requires s2 == "bundle=" + (Text(e.bundle) + ([URI_SEPARATOR] + s3))
    requires s3 == "ability=" + (Text(e.ability) + ([URI_SEPARATOR] + s4)) && s4 == "end" + tail
    ensures s == Spelled(skipped, e, tail)
  {
    assert s == ("#Want" + skipped) + ("" + (";" + s1));
    Regroup("#Want" + skipped, ";", "device=", Text(e.device), "bundle=", Text(e.bundle), "ability=", Text(e.ability),
      "end" + tail);
  }

  lemma EndRead(s: string, begin: nat, sofar: Element, e: Element) returns (tail: string)
    requires begin <= |s| && ParseFrom(s, begin, URI_PROPERTIES, 4, sofar) == Some(e)
    ensures s[begin..] == "end" + tail && e == sofar
  {
    tail := s[begin + 3..];
    assert s[begin..] == s[begin..begin + 3] + tail;
  }

  lemma SpelledIsAccepted(skipped: string, e: Element, tail: string)
    requires Clean(e) && e == Normal(e) && URI_SEPARATOR !in skipped
    ensures Parsed(Spelled(skipped, e, tail)) == Some(e)
  {
    hide ParseFrom;
    var ps, s := URI_PROPERTIES, Spelled(skipped, e, tail);
    var d, b, a := Text(e.device), Text(e.bundle), Text(e.ability);
    Regroup("#Want" + skipped, ";", "device=", d, "bundle=", b, "ability=", a, "end" + tail);
    var r3 := "ability=" + (a + (";" + ("end" + tail)));
    var r2 := "bundle=" + (b + (";" + r3));
    var r1 := "device=" + (d + (";" + r2));
    assert s[0..] == s == "#Want" + (skipped + (";" + r1));
    var n1 := ReadsOne(s, 0, ps, 0, NO_ELEMENT, skipped, r1);
    var n2 := ReadsOne(s, n1, ps, 1, NO_ELEMENT, d, r2);
    var e2 := NO_ELEMENT.(device := Some(d));
    var n3 := ReadsOne(s, n2, ps, 2, e2, b, r3);
    var e3 := e2.(bundle := Some(b));
    var n4 := ReadsOne(s, n3, ps, 3, e3, a, "end" + tail);
    KeyFound(s, n4, "end", tail);
    ParseEnd(s, n4, ps, 4, e3.(ability := Some(a)));
  }

  // ---------- the code ----------

  method FindChar(s: string, from: nat, c: char) returns (i: nat)
    requires from <= |s|
    ensures i == IndexFrom(s, c, from)
  {
    i := from;
    while i < |s| && s[i] != c
      invariant from <= i <= |s| && IndexFrom(s, c, from) == IndexFrom(s, c, i)
    {
      i := i + 1;
    }
  }

  ghost predicate CleanKeys(ps: seq<UriProperty>) {
    forall k :: 0 <= k < |ps| ==> URI_SEPARATOR !in ps[k].key
  }

  // A key holds no separator, so the first one from its start on is the first one behind it.
  lemma SeparatorIsBehind(s: string, begin: nat, key: string)
    requires KeyAt(s, begin, key) && URI_SEPARATOR !in key
    ensures IndexFrom(s, URI_SEPARATOR, begin) == IndexFrom(s, URI_SEPARATOR, begin + |key|)
  {
    forall j | begin <= j < begin + |key| ensures s[j] != URI_SEPARATOR {
      assert s[j] == key[j - begin] && key[j - begin] in key;
    }
    IndexIs(s, URI_SEPARATOR, begin, IndexFrom(s, URI_SEPARATOR, begin + |key|));
  }

  method WantParseUri(uri: Option<string>) returns (element: Option<Element>)
    ensures element == if uri.None? then None else Parsed(uri.value)
  {
    if uri.None? { return None; }
    element := ParseProperties(uri.value, URI_PROPERTIES);
  }

  method ParseProperties(parseUri: string, properties: seq<UriProperty>) returns (element: Option<Element>)
    requires CleanKeys(properties)
    ensures element == ParseFrom(parseUri, 0, properties, 0, NO_ELEMENT)
  {
    hide KeyAt, IndexFrom, SetField;
    var e := NO_ELEMENT;
    var beginIndex: nat := 0;
    for k := 0 to |properties|
      invariant ParseFrom(parseUri, 0, properties, 0, NO_ELEMENT) == ParseFrom(parseUri, beginIndex, properties, k, e)
    {
      var property := properties[k];
      if !KeyAt(parseUri, beginIndex, property.key) { return None; }
      if property.keyType == END { return Some(e); }
      SeparatorIsBehind(parseUri, beginIndex, property.key);
      var endIndex := FindChar(parseUri, beginIndex, URI_SEPARATOR);
      if endIndex == |parseUri| { return None; }
      e := SetField(e, property.keyType, parseUri[beginIndex + |property.key|..endIndex]);
      beginIndex := endIndex + 1;
    }
    return Some(e);
  }

  method WantToUri(element: Option<Element>) returns (uri: string)
    ensures uri == Printed(if element.Some? then element.value else NO_ELEMENT)
  {
    var e := if element.Some? then element.value else NO_ELEMENT;
    var uriString := PrintProperties(e, URI_PROPERTIES);
    var len := |uriString| % UINT16_RANGE;
    uri := uriString[..len];
  }

  method PrintProperties(e: Element, properties: seq<UriProperty>) returns (uriString: string)
    ensures uriString == PrintFrom(e, properties, 0)
  {
    uriString := "";
    for k := 0 to |properties|
      invariant PrintFrom(e, properties, 0) == uriString + PrintFrom(e, properties, k)
    {
      uriString := uriString + PrintProperty(e, properties[k]);
    }
  }
}
