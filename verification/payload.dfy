/** The MAIoTA payload decoder (`MAIoTAMultiSensorClient._parse_maiota_payload`).

    A payload is accepted only when it starts with the marker `CIoTA-`. The decoder then
    collects, left to right and without overlap, every occurrence of the pattern
    `D<digits>=` followed by an optional down-arrow glyph and `<digits>` (regular
    expression `findall`, not anchored to the `&` separators), keeps for each field index
    the last occurrence, and builds a fixed record from indices 1 to 7 with fixed
    divisors: 100 for indices 1-3, 10 for index 4, none for indices 5-7. The glyph on
    index 3 sets the "soil humidity below nominal" flag. */
module Payload {
  import opened Wrappers
  import opened Text
  import opened PyValues

  const Marker: string := "CIoTA-"

  /** The "below nominal" glyph, U+2193 DOWNWARDS ARROW. */
  const Arrow: char := '\U{2193}'

  /** One regex match: the field index (the first digit group read as an integer), whether
      the glyph was present, and the value (the second digit group read as an integer). */
  datatype Field = Field(index: nat, arrow: bool, value: nat)

  /** The dictionary the decoder returns, as a record; `timestamp` is the decoding time. */
  datatype Reading = Reading(
    timestamp: int,
    temperatura: real,
    humedadAmbiente: real,
    humedadSuelo: real,
    iluminacion: real,
    co2: int,
    cov: int,
    nox: int,
    humedadSueloBaja: bool)

  /** End of the maximal run of digits that starts at `i` (greedy `\d+`). */
  function DigitRunEnd(s: string, i: nat): (j: nat)
    requires i <= |s|
    ensures i <= j <= |s|
    ensures AllDigits(s[i..j])
    ensures j == |s| || !IsDigit(s[j])
    decreases |s| - i
  {
    if i < |s| && IsDigit(s[i]) then
      var j := DigitRunEnd(s, i + 1);
      assert s[i..j] == [s[i]] + s[i + 1..j];
      j
    else i
  }

  /** The match of `D(\d+)=([↓]?)(\d+)` that starts exactly at position `i`, with the
      position just past it. Greedy digit runs never need to backtrack here: a shorter
      first run would be followed by a digit rather than `=`, and a skipped glyph would
      leave the glyph where a digit is required. */
  function MatchAt(s: string, i: nat): (m: Option<(Field, nat)>)
    requires i <= |s|
    ensures m.Some? ==> i + 4 <= m.value.1 <= |s|
  {
    if i < |s| && s[i] == 'D' then
      var j := DigitRunEnd(s, i + 1);
      if i + 1 < j && j < |s| && s[j] == '=' then
        var arrow := j + 1 < |s| && s[j + 1] == Arrow;
        var k := if arrow then j + 2 else j + 1;
        var e := DigitRunEnd(s, k);
        if k < e then Some((Field(DigitsValue(s[i + 1..j]), arrow, DigitsValue(s[k..e])), e))
        else None
      else None
    else None
  }

  /** `re.findall` from position `i`: try a match at each position; after a match,
      resume just past it, otherwise at the next position. */
  function FindAll(s: string, i: nat): seq<Field>
    requires i <= |s|
    decreases |s| - i
  {
    if i == |s| then []
    else
      match MatchAt(s, i)
      case Some((f, e)) => [f] + FindAll(s, e)
      case None => FindAll(s, i + 1)
  }

  /** `findall` finds nothing exactly when no position matches, and its matches do not
      overlap: each one takes at least the four characters of `D<d>=<d>`. */
  lemma {:induction false} FindAllMatches(s: string, i: nat)
    requires i <= |s|
    ensures 4 * |FindAll(s, i)| <= |s| - i
    ensures FindAll(s, i) == [] <==> forall p :: i <= p < |s| ==> MatchAt(s, p).None?
    decreases |s| - i
  {
    if i < |s| {
      match MatchAt(s, i)
      case Some((f, e)) =>
        FindAllMatches(s, e);
      case None =>
        FindAllMatches(s, i + 1);
    }
  }

  function Scan(s: string): seq<Field> {
    FindAll(s, 0)
  }

  /** The (value, glyph) of the last field with index `n`, if any. */
  function LastEntry(fs: seq<Field>, n: nat): Option<(nat, bool)>
    decreases |fs|
  {
    if fs == [] then None
    else
      var f := fs[|fs| - 1];
      if f.index == n then Some((f.value, f.arrow)) else LastEntry(fs[..|fs| - 1], n)
  }

  /** `raw_values[f'D{n}']` after the fold: absent exactly when no match has index `n`,
      and otherwise the value and glyph of a match with index `n` that no later match
      with the same index follows. */
  lemma {:induction false} LastEntryIsLast(fs: seq<Field>, n: nat)
    ensures LastEntry(fs, n).None? <==> forall k :: 0 <= k < |fs| ==> fs[k].index != n
    ensures LastEntry(fs, n).Some? ==>
      exists k :: 0 <= k < |fs| && fs[k].index == n && LastEntry(fs, n).value == (fs[k].value, fs[k].arrow) &&
        forall j :: k < j < |fs| ==> fs[j].index != n
    decreases |fs|
  {
    if fs != [] {
      var init := fs[..|fs| - 1];
      LastEntryIsLast(init, n);
      if fs[|fs| - 1].index != n {
        assert forall k :: 0 <= k < |init| ==> init[k] == fs[k];
        if LastEntry(init, n).Some? {
          var k :| 0 <= k < |init| && init[k].index == n && LastEntry(init, n).value == (init[k].value, init[k].arrow) &&
            forall j :: k < j < |init| ==> init[j].index != n;
          assert fs[k] == init[k];
        }
      }
    }
  }

  /** Appending a field makes it the last entry for its index and leaves the others alone. */
  lemma LastEntrySnoc(fs: seq<Field>, f: Field, n: nat)
    ensures LastEntry(fs + [f], n) == if n == f.index then Some((f.value, f.arrow)) else LastEntry(fs, n)
  {
    assert (fs + [f])[..|fs|] == fs;
  }

  /** `raw_values.get('D<n>', (0, ''))`: a missing index reads as value 0 without glyph. */
  function RawEntry(fs: seq<Field>, n: nat): (nat, bool) {
    LastEntry(fs, n).GetOr((0, false))
  }

  /** The record built from the matches, indices 1-7 with their divisors. It carries the
      decoding time, and no value is negative (the digit groups carry no sign). */
  function FromFields(fs: seq<Field>, now: int): (r: Reading)
    ensures r.timestamp == now
    ensures r.temperatura >= 0.0 && r.humedadAmbiente >= 0.0 && r.humedadSuelo >= 0.0 && r.iluminacion >= 0.0
    ensures r.co2 >= 0 && r.cov >= 0 && r.nox >= 0
  {
    Reading(
      now,
      RawEntry(fs, 1).0 as real / 100.0,
      RawEntry(fs, 2).0 as real / 100.0,
      RawEntry(fs, 3).0 as real / 100.0,
      RawEntry(fs, 4).0 as real / 10.0,
      RawEntry(fs, 5).0,
      RawEntry(fs, 6).0,
      RawEntry(fs, 7).0,
      RawEntry(fs, 3).1)
  }

  /** Only the last match of each of the indices 1 to 7 matters: matches of any other
      index, and earlier matches of an index, leave the record unchanged. */
  lemma FromFieldsLastEntries(fs: seq<Field>, gs: seq<Field>, now: int)
    requires forall n :: 1 <= n <= 7 ==> LastEntry(fs, n) == LastEntry(gs, n)
    ensures FromFields(fs, now) == FromFields(gs, now)
  {
    assert LastEntry(fs, 1) == LastEntry(gs, 1) && LastEntry(fs, 2) == LastEntry(gs, 2);
    assert LastEntry(fs, 3) == LastEntry(gs, 3) && LastEntry(fs, 4) == LastEntry(gs, 4);
    assert LastEntry(fs, 5) == LastEntry(gs, 5) && LastEntry(fs, 6) == LastEntry(gs, 6);
    assert LastEntry(fs, 7) == LastEntry(gs, 7);
  }

  /** The decoder as a function: no result exactly when the marker is missing. */
  function Decode(payload: string, now: int): (r: Option<Reading>)
    ensures r.None? <==> !StartsWith(payload, Marker)
    ensures r.Some? ==> r.value.timestamp == now
  {
    if StartsWith(payload, Marker) then Some(FromFields(Scan(payload), now)) else None
  }

  /** `_parse_maiota_payload`: the marker test, then the loop that folds the matches into
      `raw_values` (a later match for an index overwrites an earlier one), then the record. */
  method ParsePayload(payload: string, now: int) returns (r: Option<Reading>)
    ensures r == Decode(payload, now)
  {
    if !StartsWith(payload, Marker) {
      return None;
    }
    var matches := FindAll(payload, 0);
    var rawValues: map<nat, (nat, bool)> := map[];
    var i := 0;
    while i < |matches|
      invariant 0 <= i <= |matches|
      invariant forall n :: LastEntry(matches[..i], n) == (if n in rawValues then Some(rawValues[n]) else None)
    {
      var f := matches[i];
      assert matches[..i + 1] == matches[..i] + [f];
      forall n ensures LastEntry(matches[..i + 1], n) == (if n == f.index then Some((f.value, f.arrow)) else LastEntry(matches[..i], n)) {
        LastEntrySnoc(matches[..i], f, n);
      }
      rawValues := rawValues[f.index := (f.value, f.arrow)];
      i := i + 1;
    }
    assert matches[..i] == matches;
    assert forall n :: RawEntry(matches, n) == (if n in rawValues then rawValues[n] else (0, false));
    var d1 := if 1 in rawValues then rawValues[1] else (0, false);
    var d2 := if 2 in rawValues then rawValues[2] else (0, false);
    var d3 := if 3 in rawValues then rawValues[3] else (0, false);
    var d4 := if 4 in rawValues then rawValues[4] else (0, false);
    var d5 := if 5 in rawValues then rawValues[5] else (0, false);
    var d6 := if 6 in rawValues then rawValues[6] else (0, false);
    var d7 := if 7 in rawValues then rawValues[7] else (0, false);
    r := Some(Reading(now, d1.0 as real / 100.0, d2.0 as real / 100.0, d3.0 as real / 100.0,
                      d4.0 as real / 10.0, d5.0, d6.0, d7.0, d3.1));
    assert r.value == FromFields(matches, now);
  }

  /** The dictionary `_parse_maiota_payload` returns, keyed as in the source. */
  function AsDict(r: Reading): (d: Dict)
    ensures d.Keys == MetricKeys + {"timestamp", "humedad_suelo_baja"}
  {
    map[
      "timestamp" := Time(r.timestamp),
      "temperatura" := Float(r.temperatura),
      "humedad_ambiente" := Float(r.humedadAmbiente),
      "humedad_suelo" := Float(r.humedadSuelo),
      "iluminacion" := Float(r.iluminacion),
      "co2" := Int(r.co2),
      "cov" := Int(r.cov),
      "nox" := Int(r.nox),
      "humedad_suelo_baja" := Bool(r.humedadSueloBaja)]
  }

  /** The seven numeric metric keys of a decoded reading. */
  const MetricKeys: set<string> :=
    {"temperatura", "humedad_ambiente", "humedad_suelo", "iluminacion", "co2", "cov", "nox"}

  // ---------------------------------------------------------------------------------
  // The wire format written out, and the round trip through the decoder.

  /** One field as the sensors send it: `D<index>=[↓]<value>&`. */
  function FieldText(f: Field): string {
    "D" + NatToString(f.index) + "=" + (if f.arrow then [Arrow] else []) + NatToString(f.value) + "&"
  }

  function FieldsText(fs: seq<Field>): string
    decreases |fs|
  {
    if fs == [] then [] else FieldText(fs[0]) + FieldsText(fs[1..])
  }

  /** A payload in the documented format: the marker, then the fields in order. */
  function Encode(fs: seq<Field>): string {
    Marker + FieldsText(fs)
  }

  lemma {:induction false} DigitRunOver(s: string, i: nat, d: string)
    requires i + |d| <= |s| && s[i..i + |d|] == d && AllDigits(d)
    requires i + |d| == |s| || !IsDigit(s[i + |d|])
    ensures DigitRunEnd(s, i) == i + |d|
    decreases |d|
  {
    if d != [] {
      assert s[i] == d[0];
      assert s[i + 1..i + 1 + |d[1..]|] == d[1..];
      DigitRunOver(s, i + 1, d[1..]);
    }
  }

  /** A field written out is matched at its first character, and the match ends at its `&`. */
  lemma FieldMatch(s: string, i: nat, f: Field)
    requires i + |FieldText(f)| <= |s| && s[i..i + |FieldText(f)|] == FieldText(f)
    ensures MatchAt(s, i) == Some((f, i + |FieldText(f)| - 1))
    ensures s[i + |FieldText(f)| - 1] == '&'
  {
    var a := NatToString(f.index);
    var b := NatToString(f.value);
    var ar: string := if f.arrow then [Arrow] else [];
    FieldTextParts(f, a, b, ar);
    LayoutMatch(s, i, FieldText(f), a, ar, b);
  }





  /** The pieces of a written field, by position. */
  lemma FieldTextParts(f: Field, a: string, b: string, ar: string)
    requires a == NatToString(f.index) && b == NatToString(f.value)
    requires ar == if f.arrow then [Arrow] else []
    ensures Layout(FieldText(f), a, ar, b)
  {
    LayoutOf(a, ar, b);
  }

  lemma LayoutOf(a: string, ar: string, b: string)
    requires |a| > 0 && AllDigits(a) && |b| > 0 && AllDigits(b) && (ar == [] || ar == [Arrow])
    ensures Layout("D" + a + "=" + ar + b + "&", a, ar, b)
  {
    var t := "D" + a + "=" + ar + b + "&";
    forall m | 0 <= m < |a| ensures t[1 + m] == a[m] { }
    assert t[1..1 + |a|] == a;
    var p := 2 + |a| + |ar|;
    forall m | 0 <= m < |b| ensures t[p + m] == b[m] { }
    assert t[p..p + |b|] == b;
  }

  /** `D`, the index digits `a`, `=` and the glyph flag, at `i` in `s`. */
  predicate HeadAt(s: string, i: nat, a: string, ar: string) {
    i + 2 + |a| <= |s| && s[i] == 'D' && s[i + 1 + |a|] == '=' &&
    (i + 2 + |a| < |s| && s[i + 2 + |a|] == Arrow) == (ar != []) &&
    s[i + 1..i + 1 + |a|] == a && DigitRunEnd(s, i + 1) == i + 1 + |a|
  }

  /** The value digits `b` and the closing `&`, at `k` in `s`. */
  predicate TailAt(s: string, k: nat, b: string) {
    k + |b| < |s| && s[k..k + |b|] == b && DigitRunEnd(s, k) == k + |b| && s[k + |b|] == '&'
  }

  /** The match at `i` of a text with a field's layout. */
  lemma LayoutMatch(s: string, i: nat, t: string, a: string, ar: string, b: string)
    requires i + |t| <= |s| && s[i..i + |t|] == t
    requires Layout(t, a, ar, b)
    ensures MatchAt(s, i) == Some((Field(DigitsValue(a), ar != [], DigitsValue(b)), i + |t| - 1))
    ensures s[i + |t| - 1] == '&'
  {
    var j, k := i + 1 + |a|, i + 2 + |a| + |ar|;
    PlacedHead(s, i, t, a, ar, b);
    PlacedTail(s, i, t, a, ar, b);
    MatchFromParts(s, i, a, ar, b, j, k, k + |b|);
  }

  lemma PlacedHead(s: string, i: nat, t: string, a: string, ar: string, b: string)
    requires i + |t| <= |s| && s[i..i + |t|] == t
    requires Layout(t, a, ar, b)
    ensures HeadAt(s, i, a, ar)
  {
    assert IsDigit(b[0]);
    CharAt(s, i, t, 0);
    CharAt(s, i, t, 1 + |a|);
    CharAt(s, i, t, 2 + |a|);
    SliceAt(s, i, t, 1, a);
    RunInside(s, i, t, 1, a);
  }

  lemma PlacedTail(s: string, i: nat, t: string, a: string, ar: string, b: string)
    requires i + |t| <= |s| && s[i..i + |t|] == t
    requires Layout(t, a, ar, b)
    ensures TailAt(s, i + 2 + |a| + |ar|, b) && i + |t| - 1 == i + 2 + |a| + |ar| + |b|
  {
    var p := 2 + |a| + |ar|;
    assert t[p + |b|] == '&';
    SliceAt(s, i, t, p, b);
    RunInside(s, i, t, p, b);
    CharAt(s, i, t, |t| - 1);
  }

  /** The match at `i` once the layout of a field has been read off `s`. */
  lemma MatchFromParts(s: string, i: nat, a: string, ar: string, b: string, j: nat, k: nat, e: nat)
    requires j == i + 1 + |a| && k == i + 2 + |a| + |ar| && e == k + |b| && e < |s|
    requires |a| > 0 && |b| > 0 && (ar == [] || ar == [Arrow])
    requires s[i] == 'D' && s[j] == '=' && (j + 1 < |s| && s[j + 1] == Arrow) == (ar != [])
    requires s[i + 1..j] == a && s[k..k + |b|] == b
    requires DigitRunEnd(s, i + 1) == j && DigitRunEnd(s, k) == k + |b|
    ensures MatchAt(s, i) == Some((Field(DigitsValue(a), ar != [], DigitsValue(b)), e))
  {
    MatchAtShape(s, i, j, k, e, ar != []);
  }

  /** A digit run inside a written field, followed by a non-digit of the field, is maximal. */
  lemma RunInside(s: string, i: nat, t: string, p: nat, d: string)
    requires i + |t| <= |s| && s[i..i + |t|] == t && p + |d| < |t| && t[p..p + |d|] == d
    requires AllDigits(d) && !IsDigit(t[p + |d|])
    ensures DigitRunEnd(s, i + p) == i + p + |d|
  {
    SliceAt(s, i, t, p, d);
    CharAt(s, i, t, p + |d|);
    DigitRunOver(s, i + p, d);
  }

  lemma CharAt(s: string, i: nat, t: string, p: nat)
    requires i + |t| <= |s| && s[i..i + |t|] == t && p < |t|
    ensures s[i + p] == t[p]
  {
    assert s[i + p] == s[i..i + |t|][p];
  }

  lemma SliceAt(s: string, i: nat, t: string, p: nat, x: string)
    requires i + |t| <= |s| && s[i..i + |t|] == t && p + |x| <= |t| && t[p..p + |x|] == x
    ensures s[i + p..i + p + |x|] == x
  {
    forall m | 0 <= m < |x| ensures s[i + p + m] == x[m] {
      CharAt(s, i, t, p + m);
    }
  }

  /** `t` is `D`, the digits `a`, `=`, the optional glyph `ar`, the digits `b` and `&`. */
  predicate Layout(t: string, a: string, ar: string, b: string) {
    |a| > 0 && AllDigits(a) && |b| > 0 && AllDigits(b) && (ar == [] || ar == [Arrow]) &&
    |t| == |a| + |ar| + |b| + 3 && t[0] == 'D' && t[1..1 + |a|] == a && t[1 + |a|] == '=' &&
    t[2 + |a|] == (if ar != [] then Arrow else b[0]) &&
    t[2 + |a| + |ar|..2 + |a| + |ar| + |b|] == b && t[|t| - 1] == '&'
  }


  /** What `MatchAt` returns once the positions of its parts are known. */
  lemma MatchAtShape(s: string, i: nat, j: nat, k: nat, e: nat, arrow: bool)
    requires i < j < e < |s| && s[i] == 'D' && i + 1 < j && s[j] == '='
    requires k == (if arrow then j + 2 else j + 1) && (j + 1 < |s| && s[j + 1] == Arrow) == arrow
    requires DigitRunEnd(s, i + 1) == j && k < e && DigitRunEnd(s, k) == e
    ensures MatchAt(s, i) == Some((Field(DigitsValue(s[i + 1..j]), arrow, DigitsValue(s[k..e])), e))
  {
  }

  lemma {:induction false} ScanFields(s: string, i: nat, fs: seq<Field>)
    requires i <= |s| && s[i..] == FieldsText(fs)
    ensures FindAll(s, i) == fs
    decreases |fs|
  {
    if fs != [] {
      var n := |FieldText(fs[0])|;
      SplitAt(s, i, FieldText(fs[0]), FieldsText(fs[1..]));
      FieldMatch(s, i, fs[0]);
      StepOver(s, i, fs[0], n);
      ScanFields(s, i + n, fs[1..]);
    }
  }

  /** After a match that ends on `&`, the scan resumes just past the `&`. */
  lemma StepOver(s: string, i: nat, f: Field, n: nat)
    requires i < i + n <= |s| && MatchAt(s, i) == Some((f, i + n - 1)) && s[i + n - 1] == '&'
    ensures FindAll(s, i) == [f] + FindAll(s, i + n)
  {
  }


  lemma SplitAt(s: string, i: nat, t: string, r: string)
    requires i <= |s| && s[i..] == t + r
    ensures i + |t| <= |s| && s[i..i + |t|] == t && s[i + |t|..] == r
  {
    assert s[i..i + |t|] == (t + r)[..|t|];
    assert s[i + |t|..] == (t + r)[|t|..];
  }


  /** Scanning a payload in the documented format finds exactly its fields, in order. */
  lemma ScanEncode(fs: seq<Field>)
    ensures Scan(Encode(fs)) == fs
  {
    var s := Encode(fs);
    assert s[..6] == Marker;
    assert s[0] == 'C' && s[1] == 'I' && s[2] == 'o' && s[3] == 'T' && s[4] == 'A' && s[5] == '-';
    assert FindAll(s, 0) == FindAll(s, 1) == FindAll(s, 2) == FindAll(s, 3)
        == FindAll(s, 4) == FindAll(s, 5) == FindAll(s, 6);
    assert s[6..] == FieldsText(fs);
    ScanFields(s, 6, fs);
  }

  /** Round trip: a payload in the documented format decodes to the last value sent for
      each index 1-7, scaled by its divisor, and index 3's glyph to the soil-low flag. */
  lemma EncodeDecode(fs: seq<Field>, now: int)
    ensures Decode(Encode(fs), now) == Some(FromFields(fs, now))
  {
    ScanEncode(fs);
    assert Encode(fs)[..|Marker|] == Marker;
  }

  /** A field appended to a payload overrides its index and leaves every other index as
      it was. */
  lemma LaterFieldWins(fs: seq<Field>, f: Field, now: int)
    ensures Decode(Encode(fs + [f]), now) == Some(FromFields(fs + [f], now))
    ensures RawEntry(fs + [f], f.index) == (f.value, f.arrow)
    ensures forall n :: n != f.index ==> RawEntry(fs + [f], n) == RawEntry(fs, n)
  {
    EncodeDecode(fs + [f], now);
    assert (fs + [f])[..|fs|] == fs;
  }

  /** An index absent from the matches decodes to 0 and is not an error. */
  lemma MissingIndexIsZero(fs: seq<Field>, n: nat)
    requires forall i :: 0 <= i < |fs| ==> fs[i].index != n
    ensures RawEntry(fs, n) == (0, false)
  {
    NoEntry(fs, n);
  }

  lemma {:induction false} NoEntry(fs: seq<Field>, n: nat)
    requires forall i :: 0 <= i < |fs| ==> fs[i].index != n
    ensures LastEntry(fs, n) == None
    decreases |fs|
  {
    if fs != [] {
      NoEntry(fs[..|fs| - 1], n);
    }
  }

  /** The glyph is read only on index 3: setting or clearing it on a field with another
      index changes nothing in the decoded record. */
  lemma GlyphIgnoredOffIndex3(fs: seq<Field>, i: nat, glyph: bool, now: int)
    requires i < |fs| && fs[i].index != 3
    ensures FromFields(fs[i := fs[i].(arrow := glyph)], now) == FromFields(fs, now)
  {
    var fs' := fs[i := fs[i].(arrow := glyph)];
    forall n: nat ensures RawEntry(fs', n).0 == RawEntry(fs, n).0 {
      GlyphEntry(fs, i, glyph, n);
    }
    GlyphEntry(fs, i, glyph, 3);
  }

  lemma {:induction false} GlyphEntry(fs: seq<Field>, i: nat, glyph: bool, n: nat)
    requires i < |fs|
    ensures var e, e' := LastEntry(fs, n), LastEntry(fs[i := fs[i].(arrow := glyph)], n);
            e'.Some? == e.Some? && (e.Some? ==> e'.value.0 == e.value.0) &&
            (n != fs[i].index ==> e' == e)
    decreases |fs|
  {
    var fs' := fs[i := fs[i].(arrow := glyph)];
    var last := |fs| - 1;
    if i < last {
      assert fs'[..last] == fs[..last][i := fs[i].(arrow := glyph)];
      GlyphEntry(fs[..last], i, glyph, n);
    } else {
      assert fs'[..last] == fs[..last];
    }
  }

  // ---------------------------------------------------------------------------------
  // The example payloads of the test suite.

  /** `FieldsText` on a sequence is the text of its head followed by that of its tail;
      stated once so that example payloads can be assembled one field at a time. */
  lemma FieldsTextCons(fs: seq<Field>)
    requires fs != []
    ensures FieldsText(fs) == FieldText(fs[0]) + FieldsText(fs[1..])
  {
  }

  /** A field whose index does not occur again later is the one the decoder keeps. */
  lemma {:induction false} LastEntryAt(fs: seq<Field>, k: nat)
    requires k < |fs|
    requires forall j :: k < j < |fs| ==> fs[j].index != fs[k].index
    ensures LastEntry(fs, fs[k].index) == Some((fs[k].value, fs[k].arrow))
    decreases |fs|
  {
    if k < |fs| - 1 {
      var init := fs[..|fs| - 1];
      assert init[k] == fs[k];
      LastEntryAt(init, k);
    }
  }

  /** Seven fields with the indices 1 to 7 in order decode index by index. */
  lemma SevenFields(fs: seq<Field>, now: int)
    requires |fs| == 7 && forall k :: 0 <= k < 7 ==> fs[k].index == k + 1
    ensures FromFields(fs, now) == Reading(now, fs[0].value as real / 100.0, fs[1].value as real / 100.0,
      fs[2].value as real / 100.0, fs[3].value as real / 10.0, fs[4].value, fs[5].value, fs[6].value, fs[2].arrow)
  {
    LastEntryAt(fs, 0);
    LastEntryAt(fs, 1);
    LastEntryAt(fs, 2);
    LastEntryAt(fs, 3);
    LastEntryAt(fs, 4);
    LastEntryAt(fs, 5);
    LastEntryAt(fs, 6);
  }

  /** A field without the glyph, written out. */
  lemma PlainFieldText(f: Field, a: string, b: string)
    requires !f.arrow && NatToString(f.index) == a && NatToString(f.value) == b
    ensures FieldText(f) == "D" + a + "=" + b + "&"
  {
  }
  /** A field with the glyph, written out. */
  lemma GlyphFieldText(f: Field, a: string, b: string)
    requires f.arrow && NatToString(f.index) == a && NatToString(f.value) == b
    ensures FieldText(f) == "D" + a + "=" + [Arrow] + b + "&"
  {
  }


  /** The text of the fields from position `k` on: field `k`, then the rest. */
  lemma FieldsTextStep(fs: seq<Field>, k: nat, t: string, rest: string)
    requires k < |fs| && FieldText(fs[k]) == t && FieldsText(fs[k + 1..]) == rest
    ensures FieldsText(fs[k..]) == t + rest
  {
    assert fs[k..][1..] == fs[k + 1..];
  }

  /** Eight pieces of text joined one after the other, however they are grouped. */
  lemma Regroup(m: string, a: string, b: string, c: string, d: string, e: string, f: string, g: string)
    ensures m + (a + (b + (c + (d + (e + (f + (g + ""))))))) == m + a + b + c + d + e + f + g
  {
  }

  /** A payload of seven fields, written out field by field. */
  lemma SevenFieldsText(fs: seq<Field>, t0: string, t1: string, t2: string, t3: string, t4: string,
                        t5: string, t6: string)
    requires |fs| == 7
    requires FieldText(fs[0]) == t0 && FieldText(fs[1]) == t1 && FieldText(fs[2]) == t2
    requires FieldText(fs[3]) == t3 && FieldText(fs[4]) == t4 && FieldText(fs[5]) == t5
    requires FieldText(fs[6]) == t6
    ensures Encode(fs) == Marker + t0 + t1 + t2 + t3 + t4 + t5 + t6
  {
    assert fs[7..] == [];
    FieldsTextStep(fs, 6, t6, "");
    FieldsTextStep(fs, 5, t5, t6 + "");
    FieldsTextStep(fs, 4, t4, t5 + (t6 + ""));
    FieldsTextStep(fs, 3, t3, t4 + (t5 + (t6 + "")));
    FieldsTextStep(fs, 2, t2, t3 + (t4 + (t5 + (t6 + ""))));
    FieldsTextStep(fs, 1, t1, t2 + (t3 + (t4 + (t5 + (t6 + "")))));
    FieldsTextStep(fs, 0, t0, t1 + (t2 + (t3 + (t4 + (t5 + (t6 + ""))))));
    assert fs[0..] == fs;
    Regroup(Marker, t0, t1, t2, t3, t4, t5, t6);
  }

  /** A payload known to be written from `fs` decodes to the record of `fs`. */
  lemma EncodedDecodes(fs: seq<Field>, payload: string, now: int)
    requires Encode(fs) == payload
    ensures Decode(payload, now) == Some(FromFields(fs, now))
  {
    EncodeDecode(fs, now);
  }

  /** The payload of the first parser test, `CIoTA-D1=2603&D2=5411&D3=2542&D4=43&D5=580&D6=103&D7=1&`,
      written field by field. */
  const TestPayload: string :=
    "CIoTA-" + "D1=2603&" + "D2=5411&" + "D3=2542&" + "D4=43&" + "D5=580&" + "D6=103&" + "D7=1&"

  const Example1: seq<Field> :=
    [Field(1, false, 2603), Field(2, false, 5411), Field(3, false, 2542),
     Field(4, false, 43), Field(5, false, 580), Field(6, false, 103), Field(7, false, 1)]

  /** `str` of a number of two or more digits: `str` of all but the last digit, then
      the last digit. */
  lemma NatToStringSnoc(q: nat, d: nat)
    requires 0 < q && d < 10
    ensures NatToString(10 * q + d) == NatToString(q) + [DigitChar(d)]
  {
  }

  /** The digits of the first test payload's values. */
  lemma Example1Digits()
    ensures NatToString(2603) == "2603" && NatToString(5411) == "5411" && NatToString(2542) == "2542"
    ensures NatToString(43) == "43" && NatToString(580) == "580" && NatToString(103) == "103"
  {
    Example1DigitsWide();
    Example1DigitsNarrow();
  }

  lemma Example1DigitsWide()
    ensures NatToString(2603) == "2603" && NatToString(5411) == "5411" && NatToString(2542) == "2542"
  {
    NatToStringSnoc(2, 6); NatToStringSnoc(26, 0); NatToStringSnoc(260, 3);
    NatToStringSnoc(5, 4); NatToStringSnoc(54, 1); NatToStringSnoc(541, 1);
    NatToStringSnoc(2, 5); NatToStringSnoc(25, 4); NatToStringSnoc(254, 2);
  }

  lemma Example1DigitsNarrow()
    ensures NatToString(43) == "43" && NatToString(580) == "580" && NatToString(103) == "103"
  {
    NatToStringSnoc(4, 3);
    NatToStringSnoc(5, 8); NatToStringSnoc(58, 0);
    NatToStringSnoc(1, 0); NatToStringSnoc(10, 3);
  }

  /** The fields of the first test payload, written out one by one. */
  lemma Example1FieldTexts()
    ensures FieldText(Example1[0]) == "D1=2603&" && FieldText(Example1[1]) == "D2=5411&"
    ensures FieldText(Example1[2]) == "D3=2542&" && FieldText(Example1[3]) == "D4=43&"
    ensures FieldText(Example1[4]) == "D5=580&" && FieldText(Example1[5]) == "D6=103&"
    ensures FieldText(Example1[6]) == "D7=1&"
  {
    Example1Digits();
    PlainFieldText(Example1[0], "1", "2603");
    PlainFieldText(Example1[1], "2", "5411");
    PlainFieldText(Example1[2], "3", "2542");
    PlainFieldText(Example1[3], "4", "43");
    PlainFieldText(Example1[4], "5", "580");
    PlainFieldText(Example1[5], "6", "103");
    PlainFieldText(Example1[6], "7", "1");
  }

  /** The fields of the first test payload, written out, give that payload. */
  lemma Example1Text()
    ensures Encode(Example1) == TestPayload
  {
    Example1FieldTexts();
    SevenFieldsText(Example1, "D1=2603&", "D2=5411&", "D3=2542&", "D4=43&", "D5=580&", "D6=103&", "D7=1&");
  }

  /** The first parser test: every index present once, no glyph, and the values 26.03,
      54.11, 25.42, 4.3, 580, 103 and 1. */
  lemma ExamplePayload(now: int)
    ensures Decode(TestPayload, now) == Some(Reading(now, 26.03, 54.11, 25.42, 4.3, 580, 103, 1, false))
  {
    Example1Text();
    EncodedDecodes(Example1, TestPayload, now);
    Example1Reading(now);
  }

  lemma Example1Reading(now: int)
    ensures FromFields(Example1, now) == Reading(now, 26.03, 54.11, 25.42, 4.3, 580, 103, 1, false)
  {
    SevenFields(Example1, now);
  }

  /** The payload of the invalid-payload test: no marker, no result. */
  lemma ExampleInvalid(now: int)
    ensures Decode("INVALID-D1=2603&D2=5411", now).None?
  {
    assert "INVALID-D1=2603&D2=5411"[0] != Marker[0];
  }

  /** The payload of the low soil humidity test,
      `CIoTA-D1=2500&D2=5000&D3=↓1500&D4=50&D5=600&D6=100&D7=2&`, written field by field. */
  const TestLowPayload: string :=
    "CIoTA-" + "D1=2500&" + "D2=5000&" + "D3=\U{2193}1500&" + "D4=50&" + "D5=600&" + "D6=100&" + "D7=2&"

  const Example2: seq<Field> :=
    [Field(1, false, 2500), Field(2, false, 5000), Field(3, true, 1500),
     Field(4, false, 50), Field(5, false, 600), Field(6, false, 100), Field(7, false, 2)]

  /** The digits of the low soil humidity payload's values. */
  lemma Example2Digits()
    ensures NatToString(2500) == "2500" && NatToString(5000) == "5000" && NatToString(1500) == "1500"
    ensures NatToString(50) == "50" && NatToString(600) == "600" && NatToString(100) == "100"
  {
    Example2DigitsWide();
    Example2DigitsNarrow();
  }

  lemma Example2DigitsWide()
    ensures NatToString(2500) == "2500" && NatToString(5000) == "5000" && NatToString(1500) == "1500"
  {
    NatToStringSnoc(2, 5); NatToStringSnoc(25, 0); NatToStringSnoc(250, 0);
    NatToStringSnoc(5, 0); NatToStringSnoc(50, 0); NatToStringSnoc(500, 0);
    NatToStringSnoc(1, 5); NatToStringSnoc(15, 0); NatToStringSnoc(150, 0);
  }

  lemma Example2DigitsNarrow()
    ensures NatToString(50) == "50" && NatToString(600) == "600" && NatToString(100) == "100"
  {
    NatToStringSnoc(5, 0);
    NatToStringSnoc(6, 0); NatToStringSnoc(60, 0);
    NatToStringSnoc(1, 0); NatToStringSnoc(10, 0);
  }

  /** The fields of the low soil humidity payload, written out one by one. */
  lemma Example2FieldTexts()
    ensures FieldText(Example2[0]) == "D1=2500&" && FieldText(Example2[1]) == "D2=5000&"
    ensures FieldText(Example2[2]) == "D3=\U{2193}1500&" && FieldText(Example2[3]) == "D4=50&"
    ensures FieldText(Example2[4]) == "D5=600&" && FieldText(Example2[5]) == "D6=100&"
    ensures FieldText(Example2[6]) == "D7=2&"
  {
    Example2Digits();
    PlainFieldText(Example2[0], "1", "2500");
    PlainFieldText(Example2[1], "2", "5000");
    GlyphFieldText(Example2[2], "3", "1500");
    PlainFieldText(Example2[3], "4", "50");
    PlainFieldText(Example2[4], "5", "600");
    PlainFieldText(Example2[5], "6", "100");
    PlainFieldText(Example2[6], "7", "2");
  }

  /** The fields of the low soil humidity payload, written out, give that payload. */
  lemma Example2Text()
    ensures Encode(Example2) == TestLowPayload
  {
    Example2FieldTexts();
    SevenFieldsText(Example2, "D1=2500&", "D2=5000&", "D3=\U{2193}1500&", "D4=50&", "D5=600&", "D6=100&", "D7=2&");
  }

  /** The low soil humidity test: the glyph on index 3 sets the flag, and soil humidity
      reads 15.0. */
  lemma ExampleGlyph(now: int)
    ensures Decode(TestLowPayload, now) == Some(Reading(now, 25.0, 50.0, 15.0, 5.0, 600, 100, 2, true))
  {
    Example2Text();
    EncodedDecodes(Example2, TestLowPayload, now);
    Example2Reading(now);
  }

  lemma Example2Reading(now: int)
    ensures FromFields(Example2, now) == Reading(now, 25.0, 50.0, 15.0, 5.0, 600, 100, 2, true)
  {
    SevenFields(Example2, now);
  }

  /** Soil humidity below nominal, then the same index again without the glyph. */
  const SoilLowThenNominal: seq<Field> := [Field(3, true, 1500), Field(3, false, 1200)]

  /** The same index again without the glyph: the flag follows the last occurrence. */
  lemma ExampleGlyphOverwritten(now: int)
    ensures Decode(Encode(SoilLowThenNominal), now)
         == Some(Reading(now, 0.0, 0.0, 12.0, 0.0, 0, 0, 0, false))
  {
    var fs := SoilLowThenNominal;
    EncodeDecode(fs, now);
    forall n: nat | n != 3 ensures RawEntry(fs, n) == (0, false) {
      MissingIndexIsZero(fs, n);
    }
    assert RawEntry(fs, 3) == (1200, false);
  }
}
