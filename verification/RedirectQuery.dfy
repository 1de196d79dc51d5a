/** The query string of the redirect back to the client (handlers_oauth.go, handlers_callback.go; net/url underneath).
  *
  * The server parses the query of the registered redirect URI, sets `code` and perhaps `state`, and prints it again.
  */
module RedirectQuery {
  import opened Common

  /** A query's parameters: for each name its values in order. */
  type Values = map<Bytes, seq<Bytes>>
  type Pair = (Bytes, Bytes)

  // ----- Percent-encoding -----

  predicate IsUnreserved(c: Byte) {
    'a' <= c <= 'z' || 'A' <= c <= 'Z' || '0' <= c <= '9' || c == '-' || c == '_' || c == '.' || c == '~'
  }

  function HexDigit(n: int): Byte
    requires 0 <= n < 16
  {
    if n < 10 then ('0' as int + n) as char else ('A' as int + (n - 10)) as char
  }

  function HexValue(c: Byte): Option<int> {
    if '0' <= c <= '9' then Some(c as int - '0' as int)
    else if 'a' <= c <= 'f' then Some(c as int - 'a' as int + 10)
    else if 'A' <= c <= 'F' then Some(c as int - 'A' as int + 10)
    else None
  }

  function EscapeByte(c: Byte): Bytes {
    if IsUnreserved(c) then [c]
    else if c == ' ' then ['+']
    else ['%', HexDigit(c as int / 16), HexDigit(c as int % 16)]
  }

  function Escape(s: Bytes): Bytes {
    if s == [] then [] else EscapeByte(s[0]) + Escape(s[1..])
  }

  function Unescape(s: Bytes): Option<Bytes> {
    if s == [] then Some([])
    else if s[0] == '%' then
      if |s| < 3 || HexValue(s[1]).None? || HexValue(s[2]).None? then None
      else
        var rest := Unescape(s[3..]);
        if rest.None? then None else Some([(HexValue(s[1]).value * 16 + HexValue(s[2]).value) as char] + rest.value)
    else
      var rest := Unescape(s[1..]);
      if rest.None? then None else Some([if s[0] == '+' then ' ' else s[0]] + rest.value)
  }

  lemma HexRoundTrip(n: int)
    requires 0 <= n < 16
    ensures HexValue(HexDigit(n)) == Some(n)
  {
  }

  lemma {:induction false} UnescapeInvertsEscape(s: Bytes)
    ensures Unescape(Escape(s)) == Some(s)
  {
    if s != [] {
      var c, rest := s[0], Escape(s[1..]);
      UnescapeInvertsEscape(s[1..]);
      assert Escape(s)[|EscapeByte(c)|..] == rest;
      HexRoundTrip(c as int / 16);
      HexRoundTrip(c as int % 16);
      assert s == [c] + s[1..];
    }
  }

  /** The bytes that structure a query string do not occur in escaped text. */
  predicate IsPlain(s: Bytes) {
    '&' !in s && '=' !in s && ';' !in s
  }

  lemma {:induction false} EscapedIsPlain(s: Bytes)
    ensures IsPlain(Escape(s))
  {
    if s != [] {
      EscapedIsPlain(s[1..]);
    }
  }

  // ----- What may be written for a byte string -----

  const UPPER_HEX: Bytes := "0123456789ABCDEF"
  const LOWER_HEX: Bytes := "0123456789abcdef"

  /** The byte is written as hexadecimal digit n, in either case. */
  predicate IsHexDigit(c: Byte, n: int)
    requires 0 <= n < 16
  {
    c == UPPER_HEX[n] || c == LOWER_HEX[n]
  }

  /** The text is one of the ways to write s in a query: each byte as it is, as an escape in either case, or a space
    * as a plus sign. */
  predicate Writes(text: Bytes, s: Bytes)
    decreases |s|
  {
    if s == [] then text == []
    else
      var c := s[0];
      || (text != [] && text[0] == c && c != '%' && c != '+' && Writes(text[1..], s[1..]))
      || (text != [] && text[0] == '+' && c == ' ' && Writes(text[1..], s[1..]))
      || (|text| >= 3 && text[0] == '%' && IsHexDigit(text[1], c as int / 16) && IsHexDigit(text[2], c as int % 16)
          && Writes(text[3..], s[1..]))
  }

  lemma HexValueIsDigit(c: Byte, n: int)
    requires 0 <= n < 16
    ensures HexValue(c) == Some(n) <==> IsHexDigit(c, n)
  {
  }

  lemma HexValuesAreDigits(c: Byte)
    ensures HexValue(c).Some? ==> 0 <= HexValue(c).value < 16
  {
  }

  /** Unescaping reads exactly the ways to write a byte string. */
  lemma {:induction false} UnescapeReadsWhatWrites(text: Bytes, s: Bytes)
    ensures Unescape(text) == Some(s) <==> Writes(text, s)
    decreases |s|
  {
    hide HexValue, IsHexDigit;
    if text != [] && s != [] {
      var c := s[0];
      HexValueIsDigit(text[0], 0);
      if text[0] == '%' {
        if |text| >= 3 {
          HexValueIsDigit(text[1], c as int / 16);
          HexValueIsDigit(text[2], c as int % 16);
          HexValuesAreDigits(text[1]);
          HexValuesAreDigits(text[2]);
          UnescapeReadsWhatWrites(text[3..], s[1..]);
          EscapeIsSplit(text, s);
        }
      } else {
        UnescapeReadsWhatWrites(text[1..], s[1..]);
        ByteIsSplit(text, s);
      }
    }
  }

  lemma EscapeIsSplit(text: Bytes, s: Bytes)
    requires |text| >= 3 && text[0] == '%' && s != []
    ensures Unescape(text) == Some(s) <==>
              && HexValue(text[1]) == Some(s[0] as int / 16) && HexValue(text[2]) == Some(s[0] as int % 16)
              && Unescape(text[3..]) == Some(s[1..])
  {
    HexValuesAreDigits(text[1]);
    HexValuesAreDigits(text[2]);
    hide HexValue;
    assert s == [s[0]] + s[1..];
  }

  lemma ByteIsSplit(text: Bytes, s: Bytes)
    requires text != [] && text[0] != '%' && s != []
    ensures Unescape(text) == Some(s) <==>
              (if text[0] == '+' then s[0] == ' ' else s[0] == text[0]) && Unescape(text[1..]) == Some(s[1..])
  {
    assert s == [s[0]] + s[1..];
  }

  // ----- Parsing and printing -----

  /** Everything before the first `sep`, and everything after it. */
  function Cut(s: Bytes, sep: Byte): (r: Pair)
    ensures |r.1| <= |s| && (s != [] ==> |r.1| < |s|)
  {
    if s == [] then ([], [])
    else if s[0] == sep then ([], s[1..])
    else var r := Cut(s[1..], sep); ([s[0]] + r.0, r.1)
  }

  function ParsePair(segment: Bytes): Option<Pair> {
    if ';' in segment || segment == [] then None
    else
      var kv := Cut(segment, '=');
      var k, v := Unescape(kv.0), Unescape(kv.1);
      if k.None? || v.None? then None else Some((k.value, v.value))
  }

  /** The well-formed segments of a query string, in order; malformed ones are dropped. */
  function ParsePairs(raw: Bytes): seq<Pair>
    decreases |raw|
  {
    if raw == [] then []
    else
      var r := Cut(raw, '&');
      var p := ParsePair(r.0);
      (if p.Some? then [p.value] else []) + ParsePairs(r.1)
  }

  function Add(v: Values, p: Pair): Values {
    v[p.0 := (if p.0 in v then v[p.0] else []) + [p.1]]
  }

  function Collect(ps: seq<Pair>): Values {
    if ps == [] then map[] else Add(Collect(ps[..|ps| - 1]), ps[|ps| - 1])
  }

  function ParseQuery(raw: Bytes): Values {
    Collect(ParsePairs(raw))
  }

  function PrintPair(p: Pair): Bytes {
    Escape(p.0) + ['='] + Escape(p.1)
  }

  function PrintPairs(ps: seq<Pair>): Bytes {
    if ps == [] then []
    else if |ps| == 1 then PrintPair(ps[0])
    else PrintPair(ps[0]) + ['&'] + PrintPairs(ps[1..])
  }

  function Pairs(k: Bytes, vs: seq<Bytes>): seq<Pair> {
    if vs == [] then [] else Pairs(k, vs[..|vs| - 1]) + [(k, vs[|vs| - 1])]
  }

  /** All parameters, names in the given order. */
  function Flatten(v: Values, keys: seq<Bytes>): seq<Pair>
    requires forall k | k in keys :: k in v
  {
    if keys == [] then []
    else Flatten(v, keys[..|keys| - 1]) + Pairs(keys[|keys| - 1], v[keys[|keys| - 1]])
  }

  /** Names in some order, each once; the printer uses the sorted one. */
  ghost predicate IsOrderOf(keys: seq<Bytes>, v: Values) {
    && (forall k :: k in keys <==> k in v)
    && (forall i, j | 0 <= i < j < |keys| :: keys[i] != keys[j])
  }

  function Encode(v: Values, keys: seq<Bytes>): Bytes
    requires forall k | k in keys :: k in v
  {
    PrintPairs(Flatten(v, keys))
  }

  /** What the redirect carries: the parameters of the redirect URI with `code`, and if there is one `state`, set. */
  function RedirectParams(rawQuery: Bytes, code: Bytes, state: Bytes): Values {
    var params := ParseQuery(rawQuery)["code" := [code]];
    if state != "" then params["state" := [state]] else params
  }

  // ----- Parsing inverts printing -----

  lemma {:induction false} CutAtSeparator(a: Bytes, sep: Byte, b: Bytes)
    requires sep !in a
    ensures Cut(a + [sep] + b, sep) == (a, b)
  {
    if a == [] {
      assert [sep] + b == a + [sep] + b;
    } else {
      CutAtSeparator(a[1..], sep, b);
      assert [a[0]] + a[1..] == a;
      assert (a + [sep] + b)[1..] == a[1..] + [sep] + b;
    }
  }

  lemma {:induction false} CutWithoutSeparator(a: Bytes, sep: Byte)
    requires sep !in a
    ensures Cut(a, sep) == (a, [])
  {
    if a != [] {
      CutWithoutSeparator(a[1..], sep);
      assert [a[0]] + a[1..] == a;
    }
  }

  lemma PrintedPairParses(p: Pair)
    ensures ParsePair(PrintPair(p)) == Some(p) && '&' !in PrintPair(p)
  {
    EscapedIsPlain(p.0);
    EscapedIsPlain(p.1);
    CutAtSeparator(Escape(p.0), '=', Escape(p.1));
    UnescapeInvertsEscape(p.0);
    UnescapeInvertsEscape(p.1);
  }

  lemma {:induction false} PrintedPairsParse(ps: seq<Pair>)
    ensures ParsePairs(PrintPairs(ps)) == ps
  {
    if ps != [] {
      PrintedPairParses(ps[0]);
      if |ps| == 1 {
        CutWithoutSeparator(PrintPair(ps[0]), '&');
        assert ParsePairs([]) == [];
      } else {
        PrintedPairsParse(ps[1..]);
        CutAtSeparator(PrintPair(ps[0]), '&', PrintPairs(ps[1..]));
      }
    }
  }

  ghost predicate NoEmptyLists(v: Values) {
    forall k | k in v :: v[k] != []
  }

  lemma {:induction false} CollectLeavesNoEmptyLists(ps: seq<Pair>)
    ensures NoEmptyLists(Collect(ps))
  {
    if ps != [] {
      CollectLeavesNoEmptyLists(ps[..|ps| - 1]);
    }
  }

  lemma CollectAddsOne(ps: seq<Pair>, p: Pair)
    ensures Collect(ps + [p]) == Add(Collect(ps), p)
  {
    assert (ps + [p])[..|ps|] == ps;
  }

  lemma PairsSplit(ps: seq<Pair>, k: Bytes, vs: seq<Bytes>)
    requires vs != []
    ensures ps + Pairs(k, vs) == (ps + Pairs(k, vs[..|vs| - 1])) + [(k, vs[|vs| - 1])]
    ensures |vs| == 1 ==> ps + Pairs(k, vs[..|vs| - 1]) == ps
  {
  }

  lemma {:induction false} CollectAddsPairs(ps: seq<Pair>, k: Bytes, vs: seq<Bytes>)
    requires k !in Collect(ps) && vs != []
    ensures Collect(ps + Pairs(k, vs)) == Collect(ps)[k := vs]
    decreases |vs|
  {
    hide Collect, Pairs;
    var n := |vs| - 1;
    var front := ps + Pairs(k, vs[..n]);
    PairsSplit(ps, k, vs);
    CollectAddsOne(front, (k, vs[n]));
    assert vs[..n] + [vs[n]] == vs;
    if n > 0 {
      CollectAddsPairs(ps, k, vs[..n]);
    }
  }

  lemma CollectNothing()
    ensures Collect([]) == map[]
  {
  }

  function Chosen(v: Values, keys: seq<Bytes>): Values
    requires forall k | k in keys :: k in v
  {
    map k | k in keys :: v[k]
  }

  lemma {:induction false} CollectInvertsFlatten(v: Values, keys: seq<Bytes>)
    requires NoEmptyLists(v) && forall k | k in keys :: k in v
    requires forall i, j | 0 <= i < j < |keys| :: keys[i] != keys[j]
    ensures Collect(Flatten(v, keys)) == Chosen(v, keys)
  {
    if keys == [] {
      hide Collect;
      CollectNothing();
    } else {
      hide Collect, Pairs, Chosen;
      var n := |keys| - 1;
      var front, last := keys[..n], keys[n];
      CollectInvertsFlatten(v, front);
      ChosenGrows(v, keys);
      CollectAddsPairs(Flatten(v, front), last, v[last]);
    }
  }

  lemma ChosenGrows(v: Values, keys: seq<Bytes>)
    requires keys != [] && (forall k | k in keys :: k in v)
    requires forall i, j | 0 <= i < j < |keys| :: keys[i] != keys[j]
    ensures var front, last := keys[..|keys| - 1], keys[|keys| - 1];
            Chosen(v, keys) == Chosen(v, front)[last := v[last]] && last !in Chosen(v, front)
  {
    assert keys == keys[..|keys| - 1] + [keys[|keys| - 1]];
  }

  lemma ParseInvertsEncode(v: Values, keys: seq<Bytes>)
    requires NoEmptyLists(v) && IsOrderOf(keys, v)
    ensures ParseQuery(Encode(v, keys)) == v
  {
    PrintedPairsParse(Flatten(v, keys));
    CollectInvertsFlatten(v, keys);
  }

  lemma {:induction false} FlattenedIsNotEmpty(v: Values, keys: seq<Bytes>)
    requires NoEmptyLists(v) && keys != [] && forall k | k in keys :: k in v
    ensures Flatten(v, keys) != []
  {
    assert v[keys[|keys| - 1]] != [];
  }

  /** At least the code is printed. */
  lemma ParamsAreThere(rawQuery: Bytes, code: Bytes, state: Bytes, keys: seq<Bytes>)
    requires IsOrderOf(keys, RedirectParams(rawQuery, code, state))
    ensures Flatten(RedirectParams(rawQuery, code, state), keys) != []
  {
    CollectLeavesNoEmptyLists(ParsePairs(rawQuery));
    assert "code" in keys;
    FlattenedIsNotEmpty(RedirectParams(rawQuery, code, state), keys);
  }

  /** Of the parameters sent, `code` is the new code, `state` is the request's if it had one, and the rest are those
    * given. */
  ghost predicate IsSentBack(given: Bytes, code: Bytes, state: Bytes, sent: Bytes) {
    var was, now := ParseQuery(given), ParseQuery(sent);
    && "code" in now && now["code"] == [code]
    && (state != "" ==> "state" in now && now["state"] == [state])
    && forall k | k != "code" && (k != "state" || state == "") ::
         (k in now <==> k in was) && (k in now ==> now[k] == was[k])
  }

  /** Whatever the redirect URI's query was, malformed ones included: the client parses back exactly its parameters,
    * with `code` replaced by the new code and `state` replaced exactly when the request had one. */
  lemma RedirectQueryRoundTrip(rawQuery: Bytes, code: Bytes, state: Bytes, keys: seq<Bytes>)
    requires IsOrderOf(keys, RedirectParams(rawQuery, code, state))
    ensures ParseQuery(Encode(RedirectParams(rawQuery, code, state), keys)) == RedirectParams(rawQuery, code, state)
    ensures IsSentBack(rawQuery, code, state, Encode(RedirectParams(rawQuery, code, state), keys))
  {
    CollectLeavesNoEmptyLists(ParsePairs(rawQuery));
    ParseInvertsEncode(RedirectParams(rawQuery, code, state), keys);
  }

  // ----- Whatever way the client wrote its parameters -----

  /** Text that can stand for a name or, with equals signs, for a value. */
  predicate IsSegmentText(name: Bytes, value: Bytes) {
    '&' !in name && '=' !in name && ';' !in name && '&' !in value && ';' !in value
  }

  /** The texts of names and values put together as a query. */
  function Join(texts: seq<Pair>): Bytes {
    if texts == [] then []
    else
      var first := texts[0].0 + ['='] + texts[0].1;
      if |texts| == 1 then first else first + ['&'] + Join(texts[1..])
  }

  ghost predicate AreWritten(texts: seq<Pair>, ps: seq<Pair>) {
    && |texts| == |ps|
    && forall i | 0 <= i < |ps| ::
         && IsSegmentText(texts[i].0, texts[i].1)
         && Writes(texts[i].0, ps[i].0) && Writes(texts[i].1, ps[i].1)
  }

  lemma WrittenPairParses(text: Pair, p: Pair)
    requires IsSegmentText(text.0, text.1)
    ensures ParsePair(text.0 + ['='] + text.1) == Some(p) <==> Writes(text.0, p.0) && Writes(text.1, p.1)
  {
    CutAtSeparator(text.0, '=', text.1);
    UnescapeReadsWhatWrites(text.0, p.0);
    UnescapeReadsWhatWrites(text.1, p.1);
  }

  lemma {:induction false} WrittenPairsParse(texts: seq<Pair>, ps: seq<Pair>)
    requires AreWritten(texts, ps)
    ensures ParsePairs(Join(texts)) == ps
  {
    hide Writes, ParsePair, IsSegmentText;
    if ps != [] {
      var first := texts[0].0 + ['='] + texts[0].1;
      WrittenPairParses(texts[0], ps[0]);
      SegmentsAreOneField(texts[0]);
      if |ps| == 1 {
        CutWithoutSeparator(first, '&');
        assert ParsePairs([]) == [];
      } else {
        WrittenPairsParse(texts[1..], ps[1..]);
        CutAtSeparator(first, '&', Join(texts[1..]));
        assert ps == [ps[0]] + ps[1..];
      }
    }
  }

  lemma SegmentsAreOneField(text: Pair)
    requires IsSegmentText(text.0, text.1)
    ensures '&' !in text.0 + ['='] + text.1
  {
  }

  /** The values given for a name, in order. */
  function ValuesOf(ps: seq<Pair>, name: Bytes): seq<Bytes> {
    if ps == [] then []
    else
      var p := ps[|ps| - 1];
      ValuesOf(ps[..|ps| - 1], name) + if p.0 == name then [p.1] else []
  }

  lemma {:induction false} CollectGathersValues(ps: seq<Pair>, name: Bytes)
    ensures name in Collect(ps) <==> ValuesOf(ps, name) != []
    ensures name in Collect(ps) ==> Collect(ps)[name] == ValuesOf(ps, name)
  {
    if ps != [] {
      CollectGathersValues(ps[..|ps| - 1], name);
    }
  }

  /** Every parameter the client wrote arrives, whichever way it was written, with its values in order; `code` is the
    * new code, and `state` the request's if it had one. */
  lemma WrittenParametersArrive(texts: seq<Pair>, ps: seq<Pair>, code: Bytes, state: Bytes, keys: seq<Bytes>,
                                name: Bytes)
    requires AreWritten(texts, ps) && IsOrderOf(keys, RedirectParams(Join(texts), code, state))
    ensures var sent := ParseQuery(Encode(RedirectParams(Join(texts), code, state), keys));
            var values := if name == "code" then [code]
                          else if name == "state" && state != "" then [state] else ValuesOf(ps, name);
            (name in sent <==> values != []) && (name in sent ==> sent[name] == values)
  {
    WrittenPairsParse(texts, ps);
    CollectGathersValues(ps, name);
    RedirectQueryRoundTrip(Join(texts), code, state, keys);
  }
}
