/**
 * The transport helpers of the client: peer addresses inside Matrix user ids, the capability
 * codec, capability lookup with a fallback table, address ordering, the running set of peers
 * that do not want Delivered messages, and validation of incoming messages.
 *
 * The EIP-55 checksum (`getAddress`), JSON message decoding and signature recovery are not
 * part of this model: they are passed in as functions, with `None` standing for a thrown error.
 * The URL layer of the capability codec is abstract too: a caps string is seen through its list
 * of search parameters, in order.
 */
module TransportUtils {
  import opened Wrappers
  import opened Text

  type Address = string

  // ---------------------------------------------------------------------------------------------
  // Addresses inside Matrix user ids

  /** The regular expression `^@(0x[0-9a-f]{40})[.:]` with the case-insensitive flag. */
  predicate MatchesUserRe(userId: string)
  {
    && |userId| >= 44
    && userId[0] == '@' && userId[1] == '0' && LowerChar(userId[2]) == 'x'
    && (forall i :: 3 <= i < 43 ==> IsHexDigit(userId[i]))
    && (userId[43] == '.' || userId[43] == ':')
  }

  /** The number of hex digits in `s` from position `from` on, counting at most `max` of them. */
  function HexRunLength(s: string, from: nat, max: nat): (n: nat)
    requires from <= |s|
    ensures n <= max && from + n <= |s|
    ensures forall i :: from <= i < from + n ==> IsHexDigit(s[i])
    ensures n < max && from + n < |s| ==> !IsHexDigit(s[from + n])
    decreases max
  {
    if max == 0 || from == |s| || !IsHexDigit(s[from]) then 0
    else 1 + HexRunLength(s, from + 1, max - 1)
  }

  /** Group 1 of `userRe.exec(userId)`: the `0x`-prefixed hex string, or None without a match. */
  function UserIdCapture(userId: string): (r: Option<string>)
    ensures r.Some? <==> MatchesUserRe(userId)
    ensures r.Some? ==> r.value == userId[1..43]
  {
    if |userId| < 44 || userId[0] != '@' || userId[1] != '0' || LowerChar(userId[2]) != 'x' then None
    else if HexRunLength(userId, 3, 40) != 40 then None
    else if userId[43] != '.' && userId[43] != ':' then None
    else Some(userId[1..43])
  }

  /**
   * The address embedded in a Matrix user id, checksummed by `getAddress`; None when the id does
   * not match or when the checksum step fails (its exception is swallowed).
   */
  function GetAddressFromUserId(userId: string, getAddress: string -> Option<Address>): (r: Option<Address>)
    ensures !MatchesUserRe(userId) ==> r.None?
    ensures MatchesUserRe(userId) ==> r == getAddress(userId[1..43])
  {
    match UserIdCapture(userId)
    case None => None
    case Some(hex) => getAddress(hex)
  }

  /** Every user id built as `@0x<40 hex digits>` then `.` or `:` then anything yields the checksummed `0x...` part. */
  lemma UserIdOfAddress(x: char, hex: string, sep: char, server: string, getAddress: string -> Option<Address>)
    requires x == 'x' || x == 'X'
    requires |hex| == 40 && forall i :: 0 <= i < 40 ==> IsHexDigit(hex[i])
    requires sep == '.' || sep == ':'
    ensures GetAddressFromUserId("@0" + [x] + hex + [sep] + server, getAddress) == getAddress("0" + [x] + hex)
  {
    var userId := "@0" + [x] + hex + [sep] + server;
    assert forall i :: 3 <= i < 43 ==> userId[i] == hex[i - 3];
    assert userId[43] == sep;
    assert userId[1..43] == "0" + [x] + hex;
  }

  // ---------------------------------------------------------------------------------------------
  // Capability values and their text form

  /** A capability primitive: string, non-negative integer, boolean or null. */
  datatype Prim = PStr(s: string) | PNum(n: nat) | PBool(b: bool) | PNull

  /** A capability value: a primitive or a list of primitives. */
  datatype CapValue = Scalar(p: Prim) | List(items: seq<Prim>)

  /** A capability mapping, with its keys in insertion order. */
  type Caps = seq<(string, CapValue)>

  /** One search parameter of a caps URL: key and raw value. */
  type Pair = (string, string)

  predicate IsKeyword(low: string)
  {
    low == "none" || low == "null" || low == "false" || low == "true"
  }

  /**
   * How `parseCaps` reads one raw value, trying in order: all digits gives a number,
   * `none` or `null` in any case gives null, `false` or `true` in any case gives that boolean,
   * and anything else stays the string it was.
   */
  function Interpret(value: string): (p: Prim)
    ensures p.PNum? <==> AllDigits(value)
    ensures p.PNum? ==> p.n == DigitsValue(value)
    ensures p.PNull? <==> !AllDigits(value) && (Lower(value) == "none" || Lower(value) == "null")
    ensures p.PBool? <==> !AllDigits(value) && (Lower(value) == "false" || Lower(value) == "true")
    ensures p.PBool? ==> p.b == (Lower(value) == "true")
    ensures p.PStr? <==> !AllDigits(value) && !IsKeyword(Lower(value))
    ensures p.PStr? ==> p.s == value
  {
    if AllDigits(value) then PNum(DigitsValue(value))
    else
      var low := Lower(value);
      if low == "none" || low == "null" then PNull
      else if low == "false" then PBool(false)
      else if low == "true" then PBool(true)
      else PStr(value)
  }

  /** The text `URLSearchParams.append` stores for a primitive (`String(value)`). */
  function Show(p: Prim): (r: string)
    ensures p.PStr? ==> r == p.s
    ensures p.PNum? ==> AllDigits(r) && DigitsValue(r) == p.n
    ensures p.PBool? ==> r == (if p.b then "true" else "false")
    ensures p.PNull? ==> r == "null"
    ensures !p.PStr? ==> Interpret(r) == p
  {
    match p
    case PStr(s) => s
    case PNum(n) => NatToStringValue(n); NatToString(n)
    case PBool(b) => KeywordsAreLower(); if b then "true" else "false"
    case PNull => KeywordsAreLower(); "null"
  }

  /** A primitive that reads back as itself: a string that is neither all digits nor a keyword. */
  predicate Reparsable(p: Prim)
  {
    p.PStr? ==> !AllDigits(p.s) && !IsKeyword(Lower(p.s))
  }

  lemma KeywordsAreLower()
    ensures Lower("none") == "none" && Lower("null") == "null"
    ensures Lower("true") == "true" && Lower("false") == "false"
    ensures !AllDigits("none") && !AllDigits("null") && !AllDigits("true") && !AllDigits("false")
  {
    assert !IsDigit("none"[0]) && !IsDigit("null"[0]) && !IsDigit("true"[0]) && !IsDigit("false"[0]);
  }

  /** Showing a reparsable primitive and interpreting the text gives the primitive back. */
  lemma ShowInterpret(p: Prim)
    requires Reparsable(p)
    ensures Interpret(Show(p)) == p
  {
    KeywordsAreLower();
    if p.PNum? {
      NatToStringValue(p.n);
    }
  }

  /** Interpreting is idempotent: writing an interpreted value out and reading it again changes nothing. */
  lemma InterpretIdempotent(value: string)
    ensures Interpret(Show(Interpret(value))) == Interpret(value)
  {
    var p := Interpret(value);
    KeywordsAreLower();
    if p.PNum? {
      NatToStringValue(p.n);
    }
  }

  // ---------------------------------------------------------------------------------------------
  // Looking keys up in a caps mapping

  /** The position of `key` in `c`, if it is there. */
  function Find(c: Caps, key: string): (r: Option<nat>)
    ensures r.Some? ==> r.value < |c| && c[r.value].0 == key
    ensures r.Some? ==> forall j :: 0 <= j < r.value ==> c[j].0 != key
    ensures r.None? ==> forall j :: 0 <= j < |c| ==> c[j].0 != key
  {
    if c == [] then None
    else if c[0].0 == key then Some(0)
    else match Find(c[1..], key)
      case None => None
      case Some(i) => Some(i + 1)
  }

  /** `caps[key]`: the value stored under `key`, or None when the key is absent. */
  function Lookup(c: Caps, key: string): Option<CapValue>
  {
    match Find(c, key)
    case None => None
    case Some(i) => Some(c[i].1)
  }

  predicate DistinctKeys(c: Caps)
  {
    forall i, j :: 0 <= i < j < |c| ==> c[i].0 != c[j].0
  }

  /** Find is the first position holding the key: anything with that description is its result. */
  lemma FindDetermined(c: Caps, key: string, r: Option<nat>)
    requires r.Some? ==> r.value < |c| && c[r.value].0 == key && forall j :: 0 <= j < r.value ==> c[j].0 != key
    requires r.None? ==> forall j :: 0 <= j < |c| ==> c[j].0 != key
    ensures Find(c, key) == r
  {
  }

  lemma FindSameKeys(c: Caps, d: Caps, key: string)
    requires |c| == |d| && forall j :: 0 <= j < |c| ==> c[j].0 == d[j].0
    ensures Find(c, key) == Find(d, key)
  {
    FindDetermined(d, key, Find(c, key));
  }

  lemma FindAppend(c: Caps, e: (string, CapValue), key: string)
    ensures Find(c + [e], key) == if Find(c, key).Some? then Find(c, key) else if e.0 == key then Some(|c|) else None
  {
    var d := c + [e];
    var r := if Find(c, key).Some? then Find(c, key) else if e.0 == key then Some(|c|) else None;
    assert forall j :: 0 <= j < |c| ==> d[j] == c[j];
    FindDetermined(d, key, r);
  }

  // ---------------------------------------------------------------------------------------------
  // stringifyCaps

  /** The pairs a list value becomes: one per element, in list order, all under `key`. */
  function EmitItems(key: string, items: seq<Prim>): (r: seq<Pair>)
    ensures |r| == |items|
    ensures forall i :: 0 <= i < |items| ==> r[i] == (key, Show(items[i]))
  {
    if items == [] then []
    else EmitItems(key, items[..|items| - 1]) + [(key, Show(items[|items| - 1]))]
  }

  /** The pairs one entry becomes: a scalar gives one pair, a list one pair per element. */
  function EmitEntry(key: string, v: CapValue): (r: seq<Pair>)
    ensures forall i :: 0 <= i < |r| ==> r[i].0 == key
    ensures v.Scalar? ==> r == [(key, Show(v.p))]
  {
    match v
    case Scalar(p) => [(key, Show(p))]
    case List(items) => EmitItems(key, items)
  }

  /** The search parameters of the caps URL, entry after entry. */
  function Query(c: Caps): seq<Pair>
  {
    if c == [] then []
    else Query(c[..|c| - 1]) + EmitEntry(c[|c| - 1].0, c[|c| - 1].1)
  }

  /** Every search parameter written comes from a key of the mapping. */
  lemma {:induction false} QueryKeys(c: Caps)
    ensures forall i :: 0 <= i < |Query(c)| ==> Find(c, Query(c)[i].0).Some?
    decreases |c|
  {
    if c != [] {
      var init, last := c[..|c| - 1], c[|c| - 1];
      SnocSplit(c);
      QueryKeys(init);
      forall k | Find(init, k).Some? || k == last.0
        ensures Find(c, k).Some?
      {
        FindAppend(init, last, k);
      }
    }
  }

  /** stringifyCaps: append every entry, and every element of a list entry, to the search parameters. */
  method StringifyCaps(caps: Caps) returns (query: seq<Pair>)
    ensures query == Query(caps)
  {
    query := [];
    var i := 0;
    while i < |caps|
      invariant 0 <= i <= |caps|
      invariant query == Query(caps[..i])
    {
      ghost var before := query;
      query := AppendEntry(query, caps[i].0, caps[i].1);
      QueryStep(caps, i, before, query);
      i := i + 1;
    }
    TakeAll(caps);
  }

  /** One entry of stringifyCaps: a scalar is appended once, a list element by element. */
  method AppendEntry(before: seq<Pair>, key: string, value: CapValue) returns (query: seq<Pair>)
    ensures query == before + EmitEntry(key, value)
  {
    match value {
      case Scalar(p) =>
        query := before + [(key, Show(p))];
        ScalarEntryDone(before, query, key, p);
      case List(items) =>
        query := before;
        var j := 0;
        while j < |items|
          invariant 0 <= j <= |items|
          invariant query == before + EmitItems(key, items[..j])
        {
          EmitItemsStep(before, query, key, items, j);
          query := query + [(key, Show(items[j]))];
          j := j + 1;
        }
        ListEntryDone(before, query, key, items);
    }
  }

  /** The raw values stored under `key`, in order. */
  function RawValues(q: seq<Pair>, key: string): seq<string>
  {
    if q == [] then []
    else RawValues(q[..|q| - 1], key) + (if q[|q| - 1].0 == key then [q[|q| - 1].1] else [])
  }

  function ShowAll(items: seq<Prim>): (r: seq<string>)
    ensures |r| == |items|
    ensures forall i :: 0 <= i < |items| ==> r[i] == Show(items[i])
  {
    if items == [] then [] else ShowAll(items[..|items| - 1]) + [Show(items[|items| - 1])]
  }

  /** The values a stringified entry is written as: nothing, its one scalar, or its list elements. */
  function WrittenValues(v: Option<CapValue>): seq<string>
  {
    match v
    case None => []
    case Some(Scalar(p)) => [Show(p)]
    case Some(List(items)) => ShowAll(items)
  }

  lemma {:induction false} RawValuesConcat(xs: seq<Pair>, ys: seq<Pair>, key: string)
    ensures RawValues(xs + ys, key) == RawValues(xs, key) + RawValues(ys, key)
    decreases |ys|
  {
    if ys != [] {
      var zs := xs + ys;
      assert zs[..|zs| - 1] == xs + ys[..|ys| - 1];
      RawValuesConcat(xs, ys[..|ys| - 1], key);
    } else {
      assert xs + ys == xs;
    }
  }

  lemma {:induction false} RawValuesOfItems(k: string, items: seq<Prim>, key: string)
    ensures RawValues(EmitItems(k, items), key) == if k == key then ShowAll(items) else []
    decreases |items|
  {
    if items != [] {
      var pre := items[..|items| - 1];
      var q := EmitItems(k, items);
      assert q[..|q| - 1] == EmitItems(k, pre);
      RawValuesOfItems(k, pre, key);
    }
  }

  /**
   * stringifyCaps writes, under each key of a mapping, exactly the values stored there: its one
   * scalar, or every element of its list in list order.
   */
  lemma {:induction false} QueryValues(c: Caps, key: string)
    requires DistinctKeys(c)
    ensures RawValues(Query(c), key) == WrittenValues(Lookup(c, key))
    decreases |c|
  {
    if c != [] {
      var init, last := c[..|c| - 1], c[|c| - 1];
      SnocSplit(c);
      QueryValues(init, key);
      RawValuesConcat(Query(init), EmitEntry(last.0, last.1), key);
      FindAppend(init, last, key);
      if last.1.List? {
        RawValuesOfItems(last.0, last.1.items, key);
      }
      if last.0 == key {
        assert Find(init, key).None?;
      }
    }
  }

  // ---------------------------------------------------------------------------------------------
  // parseCaps

  /** One more value for a key already present: a scalar becomes a two-element list, a list grows. */
  function Append(v: CapValue, p: Prim): (w: CapValue)
    ensures w.List? && |w.items| > 0 && w.items[|w.items| - 1] == p
    ensures w.items[..|w.items| - 1] == match v case Scalar(q) => [q] case List(items) => items
  {
    match v
    case Scalar(q) => List([q, p])
    case List(items) => List(items + [p])
  }

  /** What one search parameter does to the result being built. */
  function Insert(c: Caps, key: string, p: Prim): (r: Caps)
    ensures |r| == if Find(c, key).None? then |c| + 1 else |c|
  {
    match Find(c, key)
    case None => c + [(key, Scalar(p))]
    case Some(i) => c[i := (key, Append(c[i].1, p))]
  }

  /** The mapping built from `acc` by processing `pairs` in order. */
  function ParseInto(acc: Caps, pairs: seq<Pair>): (r: Caps)
    ensures |acc| <= |r| <= |acc| + |pairs|
  {
    if pairs == [] then acc
    else Insert(ParseInto(acc, pairs[..|pairs| - 1]), pairs[|pairs| - 1].0, Interpret(pairs[|pairs| - 1].1))
  }

  /** The mapping `parseCaps` builds from the search parameters of a caps URL. */
  function ParsePairs(pairs: seq<Pair>): (r: Caps)
    ensures |r| <= |pairs|
  {
    ParseInto([], pairs)
  }

  /**
   * parseCaps: None for a missing or empty string and for a string that is not a URL; otherwise
   * the mapping built from its search parameters.
   */
  method ParseCaps(caps: Option<string>, searchParams: string -> Option<seq<Pair>>) returns (r: Option<Caps>)
    ensures caps.None? || caps == Some("") ==> r.None?
    ensures r.Some? <==> caps.Some? && caps.value != "" && searchParams(caps.value).Some?
    ensures r.Some? ==> r.value == ParsePairs(searchParams(caps.value).value)
  {
    if caps.None? || caps.value == "" {
      return None;
    }
    var url := searchParams(caps.value);
    if url.None? {
      return None;
    }
    var pairs := url.value;
    var result: Caps := [];
    var i := 0;
    while i < |pairs|
      invariant 0 <= i <= |pairs|
      invariant result == ParsePairs(pairs[..i])
    {
      var key, value := pairs[i].0, pairs[i].1;
      var resValue := Interpret(value);
      ghost var before := result;
      var at := Find(result, key);
      if at.None? {
        result := result + [(key, Scalar(resValue))];
      } else {
        var prevValues := result[at.value].1;
        var items := if prevValues.Scalar? then [prevValues.p] else prevValues.items;
        assert List(items + [resValue]) == Append(prevValues, resValue);
        result := result[at.value := (key, List(items + [resValue]))];
      }
      assert result == Insert(before, key, resValue);
      ParsePairsStep(pairs, i, before, result);
      i := i + 1;
    }
    assert pairs[..i] == pairs;
    return Some(result);
  }

  /** The interpreted values given for `key`, in order. */
  function ValuesOf(pairs: seq<Pair>, key: string): seq<Prim>
  {
    if pairs == [] then []
    else ValuesOf(pairs[..|pairs| - 1], key)
         + (if pairs[|pairs| - 1].0 == key then [Interpret(pairs[|pairs| - 1].1)] else [])
  }

  /** The entry the collected values of one key make: nothing, one scalar, or a list of two or more. */
  function Collected(vs: seq<Prim>): Option<CapValue>
  {
    if |vs| == 0 then None
    else if |vs| == 1 then Some(Scalar(vs[0]))
    else Some(List(vs))
  }

  lemma InsertOther(c: Caps, k: string, p: Prim, key: string)
    requires key != k
    ensures Lookup(Insert(c, k, p), key) == Lookup(c, key)
  {
    match Find(c, k)
    case None =>
      FindAppend(c, (k, Scalar(p)), key);
    case Some(i) =>
      FindSameKeys(c, Insert(c, k, p), key);
  }

  lemma InsertSame(c: Caps, k: string, p: Prim)
    ensures Lookup(Insert(c, k, p), k) == Some(match Lookup(c, k) case None => Scalar(p) case Some(w) => Append(w, p))
  {
    match Find(c, k)
    case None =>
      FindAppend(c, (k, Scalar(p)), k);
    case Some(i) =>
      FindSameKeys(c, Insert(c, k, p), k);
  }

  /**
   * In the parsed mapping, a key that occurs once holds its value as a scalar, and a key that
   * occurs several times holds the list of all its values in order of occurrence.
   */
  lemma {:induction false} ParseLookup(pairs: seq<Pair>, key: string)
    ensures Lookup(ParsePairs(pairs), key) == Collected(ValuesOf(pairs, key))
    decreases |pairs|
  {
    if pairs != [] {
      var init, last := pairs[..|pairs| - 1], pairs[|pairs| - 1];
      var prev := ParsePairs(init);
      var p := Interpret(last.1);
      assert ParsePairs(pairs) == Insert(prev, last.0, p);
      ParseLookup(init, key);
      if last.0 == key {
        assert ValuesOf(pairs, key) == ValuesOf(init, key) + [p];
        CollectedGrows(prev, key, p, ValuesOf(init, key));
      } else {
        InsertOther(prev, last.0, p, key);
        assert ValuesOf(pairs, key) == ValuesOf(init, key);
      }
    }
  }

  lemma CollectedGrows(c: Caps, key: string, p: Prim, vs: seq<Prim>)
    requires Lookup(c, key) == Collected(vs)
    ensures Lookup(Insert(c, key, p), key) == Collected(vs + [p])
  {
    InsertSame(c, key, p);
    if |vs| == 1 {
      assert vs + [p] == [vs[0], p];
    }
  }

  /** Storing a value never removes a key. */
  lemma InsertKeepsKeys(c: Caps, key: string, p: Prim, k: string)
    requires Find(c, k).Some?
    ensures Find(Insert(c, key, p), k).Some?
  {
    match Find(c, key)
    case None =>
      FindAppend(c, (key, Scalar(p)), k);
    case Some(i) =>
      FindSameKeys(c, Insert(c, key, p), k);
  }

  /** Processing more search parameters never removes a key already in the mapping. */
  lemma {:induction false} ParseIntoKeepsKeys(acc: Caps, pairs: seq<Pair>, k: string)
    requires Find(acc, k).Some?
    ensures Find(ParseInto(acc, pairs), k).Some?
    decreases |pairs|
  {
    if pairs != [] {
      var init, last := pairs[..|pairs| - 1], pairs[|pairs| - 1];
      ParseIntoKeepsKeys(acc, init, k);
      ParseIntoLast(acc, pairs);
      InsertKeepsKeys(ParseInto(acc, init), last.0, Interpret(last.1), k);
    }
  }

  lemma InsertKeepsDistinct(c: Caps, k: string, p: Prim)
    requires DistinctKeys(c)
    ensures DistinctKeys(Insert(c, k, p))
  {
  }

  /** The parsed mapping never holds a key twice. */
  lemma {:induction false} ParsedKeysDistinct(pairs: seq<Pair>)
    ensures DistinctKeys(ParsePairs(pairs))
    decreases |pairs|
  {
    if pairs != [] {
      var init, last := pairs[..|pairs| - 1], pairs[|pairs| - 1];
      ParsedKeysDistinct(init);
      InsertKeepsDistinct(ParsePairs(init), last.0, Interpret(last.1));
    }
  }

  lemma {:induction false} ParseIntoConcat(acc: Caps, xs: seq<Pair>, ys: seq<Pair>)
    ensures ParseInto(acc, xs + ys) == ParseInto(ParseInto(acc, xs), ys)
    decreases |ys|
  {
    if ys == [] {
      assert xs + ys == xs;
    } else {
      var zs, init, last := xs + ys, ys[..|ys| - 1], ys[|ys| - 1];
      assert zs[..|zs| - 1] == xs + init;
      assert zs[|zs| - 1] == last;
      ParseIntoConcat(acc, xs, init);
      ParseIntoLast(acc, zs);
      ParseIntoLast(ParseInto(acc, xs), ys);
    }
  }

  // ---------------------------------------------------------------------------------------------
  // The round trip

  predicate WellFormedValue(v: CapValue)
  {
    match v
    case Scalar(p) => Reparsable(p)
    case List(items) => |items| >= 2 && forall i :: 0 <= i < |items| ==> Reparsable(items[i])
  }

  /** A mapping that survives the round trip: distinct keys, lists of two or more, reparsable primitives. */
  predicate WellFormedCaps(c: Caps)
  {
    DistinctKeys(c) && forall i :: 0 <= i < |c| ==> WellFormedValue(c[i].1)
  }

  lemma {:induction false} ItemsRoundTrip(acc: Caps, k: string, items: seq<Prim>)
    requires Find(acc, k).None?
    requires |items| >= 1 && forall i :: 0 <= i < |items| ==> Reparsable(items[i])
    ensures ParseInto(acc, EmitItems(k, items)) == acc + [(k, Collected(items).value)]
    decreases |items|
  {
    var pre, last := items[..|items| - 1], items[|items| - 1];
    SnocSplit(items);
    if pre == [] {
      FirstItemRoundTrip(acc, k, last);
    } else {
      ItemsRoundTrip(acc, k, pre);
      NextItemRoundTrip(acc, k, pre, last);
    }
  }

  lemma FirstItemRoundTrip(acc: Caps, k: string, p: Prim)
    requires Find(acc, k).None? && Reparsable(p)
    ensures ParseInto(acc, EmitItems(k, [p])) == acc + [(k, Scalar(p))]
  {
    var one := [p];
    var q := EmitItems(k, one);
    assert one[..|one| - 1] == [] && one[|one| - 1] == p;
    assert q == EmitItems(k, one[..|one| - 1]) + [(k, Show(one[|one| - 1]))];
    assert q == [(k, Show(p))];
    ParseIntoLast(acc, q);
    assert q[..0] == [];
    ShowInterpret(p);
    FindAppend(acc, (k, Scalar(p)), k);
  }

  lemma NextItemRoundTrip(acc: Caps, k: string, pre: seq<Prim>, p: Prim)
    requires Find(acc, k).None? && Reparsable(p) && pre != []
    requires ParseInto(acc, EmitItems(k, pre)) == acc + [(k, Collected(pre).value)]
    ensures ParseInto(acc, EmitItems(k, pre + [p])) == acc + [(k, Collected(pre + [p]).value)]
  {
    var items := pre + [p];
    var q := EmitItems(k, items);
    assert items[..|items| - 1] == pre;
    assert q == EmitItems(k, pre) + [(k, Show(p))];
    assert q[..|q| - 1] == EmitItems(k, pre);
    ParseIntoLast(acc, q);
    ShowInterpret(p);
    var w := Collected(pre).value;
    InsertAfterNew(acc, k, w, p);
    if |pre| == 1 {
      assert items == [pre[0], p];
    }
  }

  /** A second value for a key that was just added extends that key's entry in place. */
  lemma InsertAfterNew(acc: Caps, k: string, w: CapValue, p: Prim)
    requires Find(acc, k).None?
    ensures Insert(acc + [(k, w)], k, p) == acc + [(k, Append(w, p))]
  {
    FindAppend(acc, (k, w), k);
  }

  lemma EntryRoundTrip(acc: Caps, k: string, v: CapValue)
    requires Find(acc, k).None?
    requires WellFormedValue(v)
    ensures ParseInto(acc, EmitEntry(k, v)) == acc + [(k, v)]
  {
    match v
    case Scalar(p) =>
      var q := EmitEntry(k, v);
      assert q[..0] == [];
      ShowInterpret(p);
    case List(items) =>
      ItemsRoundTrip(acc, k, items);
  }

  /** One more entry, with a new key, survives the round trip when the entries before it do. */
  lemma RoundTripSnoc(init: Caps, last: (string, CapValue))
    requires ParsePairs(Query(init)) == init
    requires Find(init, last.0).None? && WellFormedValue(last.1)
    ensures ParsePairs(Query(init + [last])) == init + [last]
  {
    var c := init + [last];
    QueryLast(c);
    assert c[..|c| - 1] == init && c[|c| - 1] == last;
    ParseAfterEntry(Query(init), init, last.0, last.1);
  }

  /** Parsing the pairs of one more entry after pairs that parse to `acc` appends that entry. */
  lemma ParseAfterEntry(q: seq<Pair>, acc: Caps, k: string, v: CapValue)
    requires ParsePairs(q) == acc && Find(acc, k).None? && WellFormedValue(v)
    ensures ParsePairs(q + EmitEntry(k, v)) == acc + [(k, v)]
  {
    ParseIntoConcat([], q, EmitEntry(k, v));
    EntryRoundTrip(acc, k, v);
  }

  /** Taking off the last entry of a well-formed mapping leaves a well-formed mapping without its key. */
  lemma WellFormedSplit(c: Caps)
    requires WellFormedCaps(c) && c != []
    ensures WellFormedCaps(c[..|c| - 1]) && WellFormedValue(c[|c| - 1].1)
    ensures Find(c[..|c| - 1], c[|c| - 1].0).None?
  {
    var init := c[..|c| - 1];
    assert forall j :: 0 <= j < |init| ==> init[j].0 != c[|c| - 1].0;
    FindDetermined(init, c[|c| - 1].0, None);
  }

  /** parseCaps undoes stringifyCaps on every well-formed mapping, entry order included. */
  lemma {:induction false} ParseStringifyRoundTrip(c: Caps)
    requires WellFormedCaps(c)
    ensures ParsePairs(Query(c)) == c
    decreases |c|
  {
    if c != [] {
      var init, last := c[..|c| - 1], c[|c| - 1];
      WellFormedSplit(c);
      ParseStringifyRoundTrip(init);
      RoundTripSnoc(init, last);
      SnocSplit(c);
    }
  }

  // ---------------------------------------------------------------------------------------------
  // getCap

  /**
   * `caps?.[cap] ?? CapsFallback[cap]`: the stored value unless the mapping is missing, the key is
   * absent or the value is null; the fallback table `fallback` (CapsFallback) otherwise.
   */
  function GetCap(caps: Option<Caps>, cap: string, fallback: string -> CapValue): (v: CapValue)
    ensures caps.Some? && Lookup(caps.value, cap).Some? && Lookup(caps.value, cap).value != Scalar(PNull)
            ==> v == Lookup(caps.value, cap).value
    ensures caps.None? || Lookup(caps.value, cap).None? || Lookup(caps.value, cap).value == Scalar(PNull)
            ==> v == fallback(cap)
  {
    if caps.None? then fallback(cap)
    else match Lookup(caps.value, cap)
      case None => fallback(cap)
      case Some(v) => if v == Scalar(PNull) then fallback(cap) else v
  }

  /** JavaScript truthiness of a capability value: lists are truthy, `""`, `0`, `false` and null are not. */
  predicate Truthy(v: CapValue): (t: bool)
    ensures !t <==> v == Scalar(PNull) || v == Scalar(PBool(false)) || v == Scalar(PNum(0)) || v == Scalar(PStr(""))
  {
    match v
    case List(_) => true
    case Scalar(p) =>
      match p
      case PStr(s) => s != ""
      case PNum(n) => n != 0
      case PBool(b) => b
      case PNull => false
  }

  // ---------------------------------------------------------------------------------------------
  // getSortedAddresses

  /** The comparator: lower-case both addresses, then compare. */
  predicate AddressLe(a: Address, b: Address)
  {
    LexLe(Lower(a), Lower(b))
  }

  predicate SortedByLower(s: seq<Address>)
  {
    forall i, j :: 0 <= i < j < |s| ==> AddressLe(s[i], s[j])
  }

  function InsertByLower(x: Address, s: seq<Address>): seq<Address>
  {
    if s == [] then [x]
    else if AddressLe(x, s[0]) then [x] + s
    else [s[0]] + InsertByLower(x, s[1..])
  }

  /** Everything in a multiset built from `s` and `x` is bounded below by a lower bound of both. */
  lemma BoundedBelow(lo: Address, x: Address, s: seq<Address>, t: seq<Address>)
    requires AddressLe(lo, x)
    requires forall k :: 0 <= k < |s| ==> AddressLe(lo, s[k])
    requires multiset(t) == multiset(s) + multiset{x}
    ensures forall k :: 0 <= k < |t| ==> AddressLe(lo, t[k])
  {
    forall k | 0 <= k < |t|
      ensures AddressLe(lo, t[k])
    {
      assert t[k] in multiset(t);
      if t[k] != x {
        assert t[k] in multiset(s);
      }
    }
  }

  lemma SortedCons(y: Address, t: seq<Address>)
    requires SortedByLower(t)
    requires forall k :: 0 <= k < |t| ==> AddressLe(y, t[k])
    ensures SortedByLower([y] + t)
  {
    var r := [y] + t;
    forall i, j | 0 <= i < j < |r|
      ensures AddressLe(r[i], r[j])
    {
      assert r[j] == t[j - 1];
      if i > 0 {
        assert r[i] == t[i - 1];
      }
    }
  }

  lemma {:induction false} InsertByLowerSorted(x: Address, s: seq<Address>)
    requires SortedByLower(s)
    ensures SortedByLower(InsertByLower(x, s))
    ensures multiset(InsertByLower(x, s)) == multiset(s) + multiset{x}
    decreases |s|
  {
    if s == [] {
    } else {
      assert s == [s[0]] + s[1..];
      assert SortedByLower(s[1..]);
      if AddressLe(x, s[0]) {
        forall k | 0 <= k < |s|
          ensures AddressLe(x, s[k])
        {
          if k > 0 {
            LexLeTransitive(Lower(x), Lower(s[0]), Lower(s[k]));
          }
        }
        SortedCons(x, s);
      } else {
        LexLeTotal(Lower(x), Lower(s[0]));
        var tail := InsertByLower(x, s[1..]);
        InsertByLowerSorted(x, s[1..]);
        BoundedBelow(s[0], x, s[1..], tail);
        SortedCons(s[0], tail);
      }
    }
  }

  /** Inserting the head into the sorted tail sorts the whole sequence. */
  lemma SortedInsertStep(x: Address, tail: seq<Address>, rest: seq<Address>)
    requires SortedByLower(rest) && multiset(rest) == multiset(tail)
    ensures SortedByLower(InsertByLower(x, rest))
    ensures multiset(InsertByLower(x, rest)) == multiset([x] + tail)
  {
    InsertByLowerSorted(x, rest);
  }

  /**
   * getSortedAddresses: the addresses rearranged in ascending order of their lower-cased form.
   * Nothing is stated about the relative order of addresses that are equal up to case.
   */
  function SortedAddresses(addresses: seq<Address>): (r: seq<Address>)
    ensures multiset(r) == multiset(addresses)
    ensures SortedByLower(r)
  {
    if addresses == [] then []
    else
      var rest := SortedAddresses(addresses[1..]);
      SortedInsertStep(addresses[0], addresses[1..], rest);
      assert addresses == [addresses[0]] + addresses[1..];
      InsertByLower(addresses[0], rest)
  }

  // ---------------------------------------------------------------------------------------------
  // getNoDeliveryPeers

  /** An action on the stream, as the fold sees it: a presence success for a peer, or anything else. */
  datatype RaidenAction = PresenceSuccess(address: Address, caps: Option<Caps>) | OtherAction

  /** The peer's announced DELIVERY capability, after fallback, is falsy. */
  predicate LacksDelivery(caps: Option<Caps>, delivery: string, fallback: string -> CapValue)
  {
    !Truthy(GetCap(caps, delivery, fallback))
  }

  /** One step of the fold: a presence success adds or removes its peer; anything else changes nothing. */
  function NoDeliveryStep(peers: set<Address>, a: RaidenAction, delivery: string, fallback: string -> CapValue): (r: set<Address>)
    ensures a.OtherAction? ==> r == peers
    ensures a.PresenceSuccess? ==> (a.address in r <==> LacksDelivery(a.caps, delivery, fallback))
    ensures a.PresenceSuccess? ==> forall p :: p != a.address ==> (p in r <==> p in peers)
  {
    match a
    case OtherAction => peers
    case PresenceSuccess(address, caps) =>
      if LacksDelivery(caps, delivery, fallback) then peers + {address} else peers - {address}
  }

  /** The set after folding `actions` into the initially empty set. */
  function NoDeliveryAfter(actions: seq<RaidenAction>, delivery: string, fallback: string -> CapValue): set<Address>
  {
    if actions == [] then {}
    else NoDeliveryStep(NoDeliveryAfter(actions[..|actions| - 1], delivery, fallback), actions[|actions| - 1], delivery, fallback)
  }

  /** The caps carried by the last presence success of `peer` in `actions`, if there is one. */
  function LastPresence(actions: seq<RaidenAction>, peer: Address): Option<Option<Caps>>
  {
    if actions == [] then None
    else
      var a := actions[|actions| - 1];
      if a.PresenceSuccess? && a.address == peer then Some(a.caps)
      else LastPresence(actions[..|actions| - 1], peer)
  }

  /** A peer is in the set exactly when its latest presence announced no (truthy) DELIVERY capability. */
  lemma {:induction false} NoDeliveryMembership(actions: seq<RaidenAction>, peer: Address, delivery: string, fallback: string -> CapValue)
    ensures peer in NoDeliveryAfter(actions, delivery, fallback)
            <==> LastPresence(actions, peer).Some? && LacksDelivery(LastPresence(actions, peer).value, delivery, fallback)
    decreases |actions|
  {
    if actions != [] {
      NoDeliveryMembership(actions[..|actions| - 1], peer, delivery, fallback);
    }
  }

  lemma NoDeliveryAfterAppend(actions: seq<RaidenAction>, a: RaidenAction, delivery: string, fallback: string -> CapValue)
    ensures NoDeliveryAfter(actions + [a], delivery, fallback)
            == NoDeliveryStep(NoDeliveryAfter(actions, delivery, fallback), a, delivery, fallback)
  {
    assert (actions + [a])[..|actions|] == actions;
  }

  /** The live set behind getNoDeliveryPeers: one shared set, updated in place by each presence success. */
  class NoDeliveryPeers {
    const delivery: string
    const fallback: string -> CapValue
    var peers: set<Address>
    ghost var seen: seq<RaidenAction>

    ghost predicate Valid()
      reads this
    {
      peers == NoDeliveryAfter(seen, delivery, fallback)
    }

    /** The operator starts with the empty set, which it emits before any action. */
    constructor (delivery: string, fallback: string -> CapValue)
      ensures Valid()
      ensures this.delivery == delivery && this.fallback == fallback
      ensures peers == {} && seen == []
    {
      this.delivery := delivery;
      this.fallback := fallback;
      peers := {};
      seen := [];
    }

    /** Feed one action; `emitted` tells whether the operator emits the (same, updated) set for it. */
    method Observe(a: RaidenAction) returns (emitted: bool)
      requires Valid()
      modifies this
      ensures Valid()
      ensures emitted == a.PresenceSuccess?
      ensures peers == NoDeliveryStep(old(peers), a, delivery, fallback)
      ensures seen == old(seen) + [a]
    {
      NoDeliveryAfterAppend(seen, a, delivery, fallback);
      if a.PresenceSuccess? {
        if !Truthy(GetCap(a.caps, delivery, fallback)) {
          peers := peers + {a.address};
        } else {
          peers := peers - {a.address};
        }
        emitted := true;
      } else {
        emitted := false;
      }
      assert peers == NoDeliveryStep(old(peers), a, delivery, fallback);
      seen := seen + [a];
    }
  }

  // ---------------------------------------------------------------------------------------------
  // parseMessage

  /** What arrives from the transport: a text line, or a value of another JavaScript type. */
  datatype Line = TextLine(text: string) | NotText

  /**
   * parseMessage: only a text line can give a message; it must decode, and a signed message is
   * accepted only when the signer recovered from it is the sender. Every failure gives None.
   */
  function ParseMessage<M>(line: Line, sender: Address, decode: string -> Option<M>,
                           isSigned: M -> bool, signer: M -> Option<Address>): (r: Option<M>)
    ensures line.NotText? ==> r.None?
    ensures r.Some? <==> line.TextLine? && decode(line.text).Some?
                         && (isSigned(decode(line.text).value) ==> signer(decode(line.text).value) == Some(sender))
    ensures r.Some? ==> r == decode(line.text)
  {
    match line
    case NotText => None
    case TextLine(text) =>
      match decode(text)
      case None => None
      case Some(message) =>
        if isSigned(message) && signer(message) != Some(sender) then None else Some(message)
  }

  // ---------------------------------------------------------------------------------------------
  // Proof aids
  //
  // The lemmas below are not properties of the system. Each one restates a definition, or one
  // step of a loop, in the shape the solver needs where it is called.

  lemma TakeAll<T>(s: seq<T>)
    ensures s[..|s|] == s
  {
  }

  lemma ScalarEntryDone(before: seq<Pair>, query: seq<Pair>, key: string, p: Prim)
    requires query == before + [(key, Show(p))]
    ensures query == before + EmitEntry(key, Scalar(p))
  {
  }

  lemma ListEntryDone(before: seq<Pair>, query: seq<Pair>, key: string, items: seq<Prim>)
    requires query == before + EmitItems(key, items[..|items|])
    ensures query == before + EmitEntry(key, List(items))
  {
    TakeAll(items);
  }

  lemma EmitItemsStep(before: seq<Pair>, query: seq<Pair>, key: string, items: seq<Prim>, j: nat)
    requires j < |items| && query == before + EmitItems(key, items[..j])
    ensures query + [(key, Show(items[j]))] == before + EmitItems(key, items[..j + 1])
  {
    assert items[..j + 1][..j] == items[..j];
  }

  lemma QueryStep(c: Caps, i: nat, before: seq<Pair>, after: seq<Pair>)
    requires i < |c| && before == Query(c[..i])
    requires after == before + EmitEntry(c[i].0, c[i].1)
    ensures after == Query(c[..i + 1])
  {
    assert c[..i + 1][..i] == c[..i];
  }

  /** One more search parameter: inserting it into the mapping of the first `i` gives the mapping of the first `i + 1`. */
  lemma ParsePairsStep(pairs: seq<Pair>, i: nat, before: Caps, after: Caps)
    requires i < |pairs| && before == ParsePairs(pairs[..i])
    requires after == Insert(before, pairs[i].0, Interpret(pairs[i].1))
    ensures after == ParsePairs(pairs[..i + 1])
  {
    assert pairs[..i + 1][..i] == pairs[..i];
    ParseIntoLast([], pairs[..i + 1]);
  }

  lemma ParseIntoLast(acc: Caps, pairs: seq<Pair>)
    requires pairs != []
    ensures ParseInto(acc, pairs)
            == Insert(ParseInto(acc, pairs[..|pairs| - 1]), pairs[|pairs| - 1].0, Interpret(pairs[|pairs| - 1].1))
  {
  }

  lemma SnocSplit<T>(s: seq<T>)
    requires s != []
    ensures s == s[..|s| - 1] + [s[|s| - 1]]
  {
  }

  lemma QueryLast(c: Caps)
    requires c != []
    ensures Query(c) == Query(c[..|c| - 1]) + EmitEntry(c[|c| - 1].0, c[|c| - 1].1)
  {
  }
}
