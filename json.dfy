/**
 * String and JSON hygiene (src/utils/json.ts): the Unicode sanitizer, its
 * recursive extension to JSON-like values, and the bounded serializer.
 *
 * Strings here are sequences of UTF-16 code units, as JavaScript's regular
 * expressions without the `u` flag see them.
 */
module Json {
  import opened Wrappers

  type CodeUnit = c: int | 0 <= c < 0x1_0000
  type Utf16 = seq<CodeUnit>

  const Newline: CodeUnit := 0x0A
  const LineSeparator: CodeUnit := 0x2028
  const ParagraphSeparator: CodeUnit := 0x2029

  /** A Dafny string literal as UTF-16 code units (exact for the ASCII literals used here). */
  function Units(s: string): (r: Utf16)
    ensures |r| == |s|
  {
    seq(|s|, i requires 0 <= i < |s| => (s[i] as int) % 0x1_0000)
  }

  // ---------------------------------------------------------------------
  // sanitizeUnicodeString
  // ---------------------------------------------------------------------

  /** A global regex replace whose pattern matches single code units: each unit is rewritten on its own. */
  function FlatMap(f: CodeUnit -> Utf16, s: Utf16): Utf16
  {
    if s == [] then [] else f(s[0]) + FlatMap(f, s[1..])
  }

  /** `.replace(/\u2028/g, '\n')` */
  function ReplaceLineSeparator(c: CodeUnit): Utf16 {
    if c == LineSeparator then [Newline] else [c]
  }

  /** `.replace(/\u2029/g, '\n\n')` */
  function ReplaceParagraphSeparator(c: CodeUnit): Utf16 {
    if c == ParagraphSeparator then [Newline, Newline] else [c]
  }

  /** `.replace(/[\u0080-\u009F]/g, '')` */
  function RemoveC1Control(c: CodeUnit): Utf16 {
    if 0x80 <= c <= 0x9F then [] else [c]
  }

  /** `.replace(/[^\x00-\x7F]/g, ...)`: the callback deletes a non-ASCII unit above 255 and keeps the rest. */
  function RemoveAboveLatin1(c: CodeUnit): Utf16 {
    if c > 0x7F then (if c > 255 then [] else [c]) else [c]
  }

  /** The four chained replacements, in the order the source applies them. */
  function SanitizeUnicodeString(s: Utf16): Utf16 {
    FlatMap(RemoveAboveLatin1,
      FlatMap(RemoveC1Control,
        FlatMap(ReplaceParagraphSeparator,
          FlatMap(ReplaceLineSeparator, s))))
  }

  /** Code units the sanitizer lets through unchanged: ASCII and U+00A0..U+00FF. */
  predicate IsKept(c: CodeUnit) {
    c <= 0x7F || 0xA0 <= c <= 0xFF
  }

  predicate AllKept(s: Utf16) {
    forall i :: 0 <= i < |s| ==> IsKept(s[i])
  }

  /** Reference table: what each single input code unit becomes. */
  function SanitizedUnit(c: CodeUnit): Utf16 {
    if c == LineSeparator then [Newline]
    else if c == ParagraphSeparator then [Newline, Newline]
    else if IsKept(c) then [c]
    else []
  }

  lemma {:induction false} FlatMapAppend(f: CodeUnit -> Utf16, a: Utf16, b: Utf16)
    ensures FlatMap(f, a + b) == FlatMap(f, a) + FlatMap(f, b)
  {
    if a == [] {
      assert a + b == b;
    } else {
      assert (a + b)[0] == a[0];
      assert (a + b)[1..] == a[1..] + b;
      FlatMapAppend(f, a[1..], b);
    }
  }

  lemma FlatMapSmall(f: CodeUnit -> Utf16, x: CodeUnit, y: CodeUnit)
    ensures FlatMap(f, []) == []
    ensures FlatMap(f, [x]) == f(x)
    ensures FlatMap(f, [x, y]) == f(x) + f(y)
  {
    assert [x][1..] == [];
    assert [x, y][1..] == [y];
    assert [y][1..] == [];
    assert FlatMap(f, [y]) == f(y);
  }

  lemma SanitizeOneUnit(c: CodeUnit)
    ensures FlatMap(RemoveAboveLatin1, FlatMap(RemoveC1Control, FlatMap(ReplaceParagraphSeparator,
              ReplaceLineSeparator(c)))) == SanitizedUnit(c)
  {
    FlatMapSmall(ReplaceParagraphSeparator, c, c);
    FlatMapSmall(ReplaceParagraphSeparator, Newline, Newline);
    FlatMapSmall(RemoveC1Control, c, c);
    FlatMapSmall(RemoveC1Control, Newline, Newline);
    FlatMapSmall(RemoveAboveLatin1, c, c);
    FlatMapSmall(RemoveAboveLatin1, Newline, Newline);
  }

  /** The chain of four replacements is a per-code-unit rewrite given by `SanitizedUnit`. */
  lemma {:induction false} SanitizeIsPerUnit(s: Utf16)
    ensures SanitizeUnicodeString(s) == FlatMap(SanitizedUnit, s)
  {
    if s != [] {
      var c, t := s[0], s[1..];
      SanitizeIsPerUnit(t);
      var l1 := FlatMap(ReplaceLineSeparator, t);
      FlatMapAppend(ReplaceParagraphSeparator, ReplaceLineSeparator(c), l1);
      var p0 := FlatMap(ReplaceParagraphSeparator, ReplaceLineSeparator(c));
      var p1 := FlatMap(ReplaceParagraphSeparator, l1);
      FlatMapAppend(RemoveC1Control, p0, p1);
      var q0 := FlatMap(RemoveC1Control, p0);
      var q1 := FlatMap(RemoveC1Control, p1);
      FlatMapAppend(RemoveAboveLatin1, q0, q1);
      SanitizeOneUnit(c);
    }
  }

  lemma {:induction false} SanitizeAppend(a: Utf16, b: Utf16)
    ensures SanitizeUnicodeString(a + b) == SanitizeUnicodeString(a) + SanitizeUnicodeString(b)
  {
    SanitizeIsPerUnit(a + b);
    SanitizeIsPerUnit(a);
    SanitizeIsPerUnit(b);
    FlatMapAppend(SanitizedUnit, a, b);
  }

  lemma {:induction false} PerUnitOutputKept(s: Utf16)
    ensures AllKept(FlatMap(SanitizedUnit, s))
  {
    if s != [] {
      PerUnitOutputKept(s[1..]);
      var h, t := SanitizedUnit(s[0]), FlatMap(SanitizedUnit, s[1..]);
      assert forall i :: 0 <= i < |h| ==> IsKept(h[i]);
      forall i | 0 <= i < |h + t| ensures IsKept((h + t)[i]) {
        if i >= |h| { assert (h + t)[i] == t[i - |h|]; }
      }
    }
  }

  /** The output holds no code unit in U+0080..U+009F and none above U+00FF. */
  lemma SanitizedIsKept(s: Utf16)
    ensures AllKept(SanitizeUnicodeString(s))
    ensures forall i :: 0 <= i < |SanitizeUnicodeString(s)| ==>
              !(0x80 <= SanitizeUnicodeString(s)[i] <= 0x9F) && SanitizeUnicodeString(s)[i] <= 0xFF
  {
    SanitizeIsPerUnit(s);
    PerUnitOutputKept(s);
  }

  lemma {:induction false} PerUnitFixesKept(s: Utf16)
    requires AllKept(s)
    ensures FlatMap(SanitizedUnit, s) == s
  {
    if s != [] {
      assert IsKept(s[0]);
      assert AllKept(s[1..]) by {
        forall i | 0 <= i < |s[1..]| ensures IsKept(s[1..][i]) { assert s[1..][i] == s[i + 1]; }
      }
      PerUnitFixesKept(s[1..]);
      assert s == [s[0]] + s[1..];
    }
  }

  /** A string made only of kept code units (ASCII, U+00A0..U+00FF) is returned unchanged. */
  lemma SanitizeFixesKept(s: Utf16)
    requires AllKept(s)
    ensures SanitizeUnicodeString(s) == s
  {
    SanitizeIsPerUnit(s);
    PerUnitFixesKept(s);
  }

  /** Sanitizing twice is sanitizing once. */
  lemma SanitizeIdempotent(s: Utf16)
    ensures SanitizeUnicodeString(SanitizeUnicodeString(s)) == SanitizeUnicodeString(s)
  {
    SanitizedIsKept(s);
    SanitizeFixesKept(SanitizeUnicodeString(s));
  }

  // ---------------------------------------------------------------------
  // sanitizeObjectStrings
  // ---------------------------------------------------------------------

  /**
   * A JSON-like JavaScript value. An object is the ordered list of its own
   * enumerable entries, as `Object.entries` returns them.
   */
  datatype JsonValue =
    | JNull
    | JBool(b: bool)
    | JNumber(n: real)
    | JString(s: Utf16)
    | JArray(items: seq<JsonValue>)
    | JObject(entries: seq<(Utf16, JsonValue)>)

  function KeysOf<K, V>(entries: seq<(K, V)>): (keys: seq<K>)
    ensures |keys| == |entries|
    ensures forall i :: 0 <= i < |entries| ==> keys[i] == entries[i].0
  {
    seq(|entries|, i requires 0 <= i < |entries| => entries[i].0)
  }

  ghost predicate DistinctKeys<K, V>(entries: seq<(K, V)>) {
    forall i, j :: 0 <= i < j < |entries| ==> entries[i].0 != entries[j].0
  }

  /** `obj[k] = v` on an object with entries `entries`: an existing key keeps its position, a new key goes last. */
  function Put<K(==), V>(entries: seq<(K, V)>, k: K, v: V): seq<(K, V)>
  {
    if entries == [] then [(k, v)]
    else if entries[0].0 == k then [(k, v)] + entries[1..]
    else [entries[0]] + Put(entries[1..], k, v)
  }

  /** The assignments of the `for` loop over `pairs`, performed in order on a fresh object. */
  function AssignAll<K(==), V>(pairs: seq<(K, V)>): seq<(K, V)>
  {
    if pairs == [] then []
    else Put(AssignAll(pairs[..|pairs| - 1]), pairs[|pairs| - 1].0, pairs[|pairs| - 1].1)
  }

  /** Reading property `k` of an object. */
  function Lookup<K(==), V>(entries: seq<(K, V)>, k: K): Option<V>
  {
    if entries == [] then None
    else if entries[0].0 == k then Some(entries[0].1)
    else Lookup(entries[1..], k)
  }

  /** The value of the last pair whose key is `k`. */
  function LastValue<K(==), V>(pairs: seq<(K, V)>, k: K): Option<V>
  {
    if pairs == [] then None
    else if pairs[|pairs| - 1].0 == k then Some(pairs[|pairs| - 1].1)
    else LastValue(pairs[..|pairs| - 1], k)
  }

  /** The key "__proto__" as code units. */
  const ProtoKey: Utf16 := [0x5F, 0x5F, 0x70, 0x72, 0x6F, 0x74, 0x6F, 0x5F, 0x5F]

  /**
   * One assignment `sanitized[key] = value` of the loop. `keeps` says whether
   * `value`, once installed as the prototype, still leads a lookup of
   * "__proto__" to the `Object.prototype` accessor (see `KeepsSetter`).
   */
  datatype Write<V> = Write(key: Utf16, value: V, keeps: bool)

  /** The key-value pairs of a list of writes. */
  function Pairs<V>(ws: seq<Write<V>>): (r: seq<(Utf16, V)>)
    ensures |r| == |ws|
    ensures forall i :: 0 <= i < |ws| ==> r[i] == (ws[i].key, ws[i].value)
  {
    seq(|ws|, i requires 0 <= i < |ws| => (ws[i].key, ws[i].value))
  }

  /**
   * Whether, after the writes `ws` on a fresh `{}`, the inherited
   * `__proto__` setter is still reachable. The fresh object inherits it; a
   * write to "__proto__" that reaches it installs its value as the
   * prototype, which keeps the setter reachable exactly when `keeps` holds.
   * Once the setter is unreachable, no later write brings it back, so it is
   * reachable at the end exactly when every "__proto__" write kept it.
   */
  function SetterAfter<V>(ws: seq<Write<V>>): bool
  {
    forall i :: 0 <= i < |ws| && ws[i].key == ProtoKey ==> ws[i].keeps
  }

  /**
   * The assignments that create an own property, in order. While the setter
   * is reachable, `obj["__proto__"] = v` runs it instead: a primitive is
   * ignored, and null or an object becomes the prototype; neither is an
   * entry of the object. Every other assignment, and every "__proto__"
   * assignment once the setter is unreachable, is an own data property.
   */
  function OwnPairs<V>(ws: seq<Write<V>>): seq<(Utf16, V)>
  {
    if ws == [] then []
    else
      var init, last := ws[..|ws| - 1], ws[|ws| - 1];
      OwnPairs(init) + (if last.key == ProtoKey && SetterAfter(init) then [] else [(last.key, last.value)])
  }

  /** The number of leading writes performed while the setter is reachable. */
  function Reached<V>(ws: seq<Write<V>>): (n: nat)
    ensures n <= |ws|
  {
    if ws == [] then 0
    else if SetterAfter(ws[..|ws| - 1]) then |ws|
    else Reached(ws[..|ws| - 1])
  }

  /** The pairs whose key is not "__proto__". */
  function DropProto<V>(pairs: seq<(Utf16, V)>): seq<(Utf16, V)>
  {
    if pairs == [] then []
    else
      var last := pairs[|pairs| - 1];
      DropProto(pairs[..|pairs| - 1]) + (if last.0 == ProtoKey then [] else [last])
  }

  /** Keys in order of first occurrence. */
  function Dedup<K(==)>(keys: seq<K>): seq<K>
  {
    if keys == [] then []
    else
      var d := Dedup(keys[..|keys| - 1]);
      if keys[|keys| - 1] in d then d else d + [keys[|keys| - 1]]
  }

  lemma {:induction false} PutLookup<K, V>(entries: seq<(K, V)>, k: K, v: V, k': K)
    ensures Lookup(Put(entries, k, v), k') == if k' == k then Some(v) else Lookup(entries, k')
  {
    if entries != [] && entries[0].0 != k {
      PutLookup(entries[1..], k, v, k');
      assert ([entries[0]] + Put(entries[1..], k, v))[1..] == Put(entries[1..], k, v);
    } else if entries != [] {
      assert ([(k, v)] + entries[1..])[1..] == entries[1..];
    }
  }

  lemma {:induction false} PutKeys<K, V>(entries: seq<(K, V)>, k: K, v: V)
    ensures KeysOf(Put(entries, k, v)) == if k in KeysOf(entries) then KeysOf(entries) else KeysOf(entries) + [k]
  {
    if entries == [] {
    } else if entries[0].0 == k {
      assert KeysOf(Put(entries, k, v)) == KeysOf(entries);
    } else {
      PutKeys(entries[1..], k, v);
      assert KeysOf(entries) == [entries[0].0] + KeysOf(entries[1..]);
      assert KeysOf(Put(entries, k, v)) == [entries[0].0] + KeysOf(Put(entries[1..], k, v));
    }
  }

  lemma {:induction false} PutElements<K, V>(entries: seq<(K, V)>, k: K, v: V)
    ensures forall x :: x in Put(entries, k, v) ==> x in entries || x == (k, v)
  {
    if entries != [] && entries[0].0 != k {
      PutElements(entries[1..], k, v);
    }
  }

  lemma PutDistinct<K, V>(entries: seq<(K, V)>, k: K, v: V)
    requires DistinctKeys(entries)
    ensures DistinctKeys(Put(entries, k, v))
  {
    PutKeys(entries, k, v);
    var e' := Put(entries, k, v);
    var keys, keys' := KeysOf(entries), KeysOf(e');
    forall i, j | 0 <= i < j < |e'| ensures e'[i].0 != e'[j].0 {
      assert e'[i].0 == keys'[i] && e'[j].0 == keys'[j];
      if j < |entries| {
        assert keys'[i] == keys[i] == entries[i].0;
        assert keys'[j] == keys[j] == entries[j].0;
      } else {
        assert keys'[i] == keys[i] && keys'[j] == k;
      }
    }
  }

  lemma {:induction false} PutFresh<K, V>(entries: seq<(K, V)>, k: K, v: V)
    requires k !in KeysOf(entries)
    ensures Put(entries, k, v) == entries + [(k, v)]
  {
    if entries != [] {
      assert entries[0].0 == KeysOf(entries)[0];
      assert KeysOf(entries[1..]) == KeysOf(entries)[1..];
      PutFresh(entries[1..], k, v);
      assert entries == [entries[0]] + entries[1..];
    }
  }

  /** After the loop, every key is present once. */
  lemma {:induction false} AssignAllDistinct<K, V>(pairs: seq<(K, V)>)
    ensures DistinctKeys(AssignAll(pairs))
  {
    if pairs != [] {
      var n := |pairs| - 1;
      AssignAllDistinct(pairs[..n]);
      PutDistinct(AssignAll(pairs[..n]), pairs[n].0, pairs[n].1);
    }
  }

  /** A later entry overwrites an earlier one with the same key: each key reads the last value written. */
  lemma {:induction false} AssignAllLookup<K, V>(pairs: seq<(K, V)>, k: K)
    ensures Lookup(AssignAll(pairs), k) == LastValue(pairs, k)
  {
    if pairs != [] {
      var n := |pairs| - 1;
      AssignAllLookup(pairs[..n], k);
      PutLookup(AssignAll(pairs[..n]), pairs[n].0, pairs[n].1, k);
    }
  }

  /** The keys of the result are the keys written, in order of first occurrence. */
  lemma {:induction false} AssignAllKeys<K, V>(pairs: seq<(K, V)>)
    ensures KeysOf(AssignAll(pairs)) == Dedup(KeysOf(pairs))
  {
    if pairs != [] {
      var n := |pairs| - 1;
      AssignAllKeys(pairs[..n]);
      PutKeys(AssignAll(pairs[..n]), pairs[n].0, pairs[n].1);
      assert KeysOf(pairs)[..n] == KeysOf(pairs[..n]);
    }
  }

  /** Every entry of the result is one of the pairs written. */
  lemma {:induction false} AssignAllElements<K, V>(pairs: seq<(K, V)>)
    ensures forall x :: x in AssignAll(pairs) ==> x in pairs
  {
    if pairs != [] {
      var n := |pairs| - 1;
      AssignAllElements(pairs[..n]);
      PutElements(AssignAll(pairs[..n]), pairs[n].0, pairs[n].1);
      assert forall x :: x in pairs[..n] ==> x in pairs;
      assert pairs[n] in pairs;
    }
  }

  /** Writing pairs whose keys are already distinct rebuilds exactly those entries. */
  lemma {:induction false} AssignAllOfDistinct<K, V>(pairs: seq<(K, V)>)
    requires DistinctKeys(pairs)
    ensures AssignAll(pairs) == pairs
  {
    if pairs != [] {
      var n := |pairs| - 1;
      assert DistinctKeys(pairs[..n]);
      AssignAllOfDistinct(pairs[..n]);
      assert pairs[n].0 !in KeysOf(pairs[..n]) by {
        forall i | 0 <= i < n ensures KeysOf(pairs[..n])[i] != pairs[n].0 {
          assert pairs[..n][i] == pairs[i];
        }
      }
      PutFresh(pairs[..n], pairs[n].0, pairs[n].1);
      assert pairs == pairs[..n] + [pairs[n]];
    }
  }

  lemma PairsAppend<V>(a: seq<Write<V>>, b: seq<Write<V>>)
    ensures Pairs(a + b) == Pairs(a) + Pairs(b)
  {
  }

  lemma DropProtoSnoc<V>(init: seq<(Utf16, V)>, last: (Utf16, V))
    ensures DropProto(init + [last]) == DropProto(init) + (if last.0 == ProtoKey then [] else [last])
  {
    var pairs := init + [last];
    assert pairs[..|pairs| - 1] == init;
  }

  /** `DropProto` keeps exactly the pairs whose key is not "__proto__". */
  lemma {:induction false} DropProtoElements<V>(pairs: seq<(Utf16, V)>)
    ensures forall x :: x in DropProto(pairs) <==> x in pairs && x.0 != ProtoKey
  {
    if pairs != [] {
      var init := pairs[..|pairs| - 1];
      DropProtoElements(init);
      assert pairs == init + [pairs[|pairs| - 1]];
    }
  }

  lemma {:induction false} DropProtoLength<V>(pairs: seq<(Utf16, V)>)
    ensures |DropProto(pairs)| <= |pairs|
  {
    if pairs != [] { DropProtoLength(pairs[..|pairs| - 1]); }
  }

  /** Pairs without "__proto__" are all kept. */
  lemma {:induction false} DropProtoOfOwnKeys<V>(pairs: seq<(Utf16, V)>)
    requires forall i :: 0 <= i < |pairs| ==> pairs[i].0 != ProtoKey
    ensures DropProto(pairs) == pairs
  {
    if pairs != [] {
      var init := pairs[..|pairs| - 1];
      assert forall i :: 0 <= i < |init| ==> init[i] == pairs[i];
      DropProtoOfOwnKeys(init);
      assert pairs == init + [pairs[|pairs| - 1]];
    }
  }

  /** Dropping "__proto__" pairs leaves every other key's last value, and none for "__proto__". */
  lemma {:induction false} DropProtoLastValue<V>(pairs: seq<(Utf16, V)>, k: Utf16)
    ensures LastValue(DropProto(pairs), k) == if k == ProtoKey then None else LastValue(pairs, k)
  {
    if pairs != [] {
      var init, last := pairs[..|pairs| - 1], pairs[|pairs| - 1];
      DropProtoLastValue(init, k);
      if last.0 != ProtoKey {
        var d := DropProto(init) + [last];
        assert d[..|d| - 1] == DropProto(init);
      } else {
        assert DropProto(init) + [] == DropProto(init);
      }
    }
  }

  /** The last value in a concatenation is the second part's, if it has one. */
  lemma {:induction false} LastValueAppend<K, V>(a: seq<(K, V)>, b: seq<(K, V)>, k: K)
    ensures LastValue(a + b, k) == if LastValue(b, k).Some? then LastValue(b, k) else LastValue(a, k)
  {
    if b != [] {
      var ab := a + b;
      assert ab[..|ab| - 1] == a + b[..|b| - 1];
      LastValueAppend(a, b[..|b| - 1], k);
    } else {
      assert a + b == a;
    }
  }

  /** The setter is reachable after one more write exactly when it was before and the write kept it. */
  lemma SetterAfterSnoc<V>(init: seq<Write<V>>, last: Write<V>)
    ensures SetterAfter(init + [last]) == (SetterAfter(init) && (last.key == ProtoKey ==> last.keeps))
  {
    var ws := init + [last];
    assert ws[|init|] == last;
    assert forall i :: 0 <= i < |init| ==> ws[i] == init[i];
  }

  /** `Reached` counts exactly the writes made while the setter is reachable. */
  lemma {:induction false} ReachedIff<V>(ws: seq<Write<V>>, i: nat)
    requires i < |ws|
    ensures SetterAfter(ws[..i]) <==> i < Reached(ws)
  {
    var init := ws[..|ws| - 1];
    if SetterAfter(init) {
      assert forall j :: 0 <= j < |ws[..i]| ==> ws[..i][j] == init[j];
    } else if i < |init| {
      ReachedIff(init, i);
      assert init[..i] == ws[..i];
    } else {
      assert ws[..i] == init;
    }
  }

  /** When the setter survives every write, all of them were made while it was reachable. */
  lemma ReachedAll<V>(ws: seq<Write<V>>)
    requires SetterAfter(ws)
    ensures Reached(ws) == |ws|
  {
    if ws != [] {
      SetterAfterSnoc(ws[..|ws| - 1], ws[|ws| - 1]);
      assert ws[..|ws| - 1] + [ws[|ws| - 1]] == ws;
    }
  }

  /** One more write: nothing when it reaches the setter, its pair otherwise. */
  lemma OwnPairsSnoc<V>(init: seq<Write<V>>, last: Write<V>)
    ensures OwnPairs(init + [last]) ==
              OwnPairs(init) + (if last.key == ProtoKey && SetterAfter(init) then [] else [(last.key, last.value)])
  {
    var ws := init + [last];
    assert ws[..|ws| - 1] == init;
  }

  lemma PairsSnocSlices<V>(init: seq<Write<V>>, last: Write<V>, n: nat)
    requires n <= |init|
    ensures (init + [last])[..n] == init[..n]
    ensures Pairs((init + [last])[n..]) == Pairs(init[n..]) + [(last.key, last.value)]
  {
    assert (init + [last])[n..] == init[n..] + [last];
    PairsAppend(init[n..], [last]);
  }

  lemma AppendAssoc<T>(x: seq<T>, a: seq<T>, b: seq<T>, c: seq<T>)
    requires x == a + b
    ensures x + c == a + (b + c)
  {
  }

  /**
   * The own properties are the non-"__proto__" pairs written while the
   * setter is reachable, followed by every pair written after it is lost.
   */
  lemma {:induction false} OwnPairsSplit<V>(ws: seq<Write<V>>)
    ensures OwnPairs(ws) == DropProto(Pairs(ws[..Reached(ws)])) + Pairs(ws[Reached(ws)..])
  {
    if ws != [] {
      var init, last := ws[..|ws| - 1], ws[|ws| - 1];
      var pair := (last.key, last.value);
      OwnPairsSplit(init);
      assert ws == init + [last];
      OwnPairsSnoc(init, last);
      PairsAppend(init, [last]);
      if SetterAfter(init) {
        ReachedAll(init);
        assert init[..|init|] == init && init[|init|..] == [];
        assert ws[..|ws|] == ws && ws[|ws|..] == [];
        DropProtoSnoc(Pairs(init), pair);
      } else {
        var n := Reached(init);
        PairsSnocSlices(init, last, n);
        AppendAssoc(OwnPairs(init), DropProto(Pairs(init[..n])), Pairs(init[n..]), [pair]);
      }
    }
  }

  /**
   * An own property is a pair written while the setter is reachable whose
   * key is not "__proto__", or any pair written after the setter is lost.
   */
  lemma OwnPairsElements<V>(ws: seq<Write<V>>)
    ensures forall x :: x in OwnPairs(ws) <==>
              (x in Pairs(ws[..Reached(ws)]) && x.0 != ProtoKey) || x in Pairs(ws[Reached(ws)..])
  {
    OwnPairsSplit(ws);
    DropProtoElements(Pairs(ws[..Reached(ws)]));
  }

  /** Every own property is one of the pairs written. */
  lemma OwnPairsWritten<V>(ws: seq<Write<V>>)
    ensures forall x :: x in OwnPairs(ws) ==> x in Pairs(ws)
  {
    OwnPairsElements(ws);
    var n := Reached(ws);
    assert ws == ws[..n] + ws[n..];
    PairsAppend(ws[..n], ws[n..]);
  }

  lemma OwnPairsLength<V>(ws: seq<Write<V>>)
    ensures |OwnPairs(ws)| <= |ws|
  {
    OwnPairsSplit(ws);
    DropProtoLength(Pairs(ws[..Reached(ws)]));
  }

  /**
   * Every key other than "__proto__" keeps its last value; "__proto__" holds
   * the last value written to it after the setter is lost, if any.
   */
  lemma OwnPairsLastValue<V>(ws: seq<Write<V>>, k: Utf16)
    ensures LastValue(OwnPairs(ws), k) ==
              if k == ProtoKey then LastValue(Pairs(ws[Reached(ws)..]), k) else LastValue(Pairs(ws), k)
  {
    var n := Reached(ws);
    OwnPairsSplit(ws);
    LastValueAppend(DropProto(Pairs(ws[..n])), Pairs(ws[n..]), k);
    DropProtoLastValue(Pairs(ws[..n]), k);
    assert ws == ws[..n] + ws[n..];
    PairsAppend(ws[..n], ws[n..]);
    LastValueAppend(Pairs(ws[..n]), Pairs(ws[n..]), k);
  }

  /** While the setter stays reachable, no own property is named "__proto__". */
  lemma OwnPairsNoProto<V>(ws: seq<Write<V>>)
    requires SetterAfter(ws)
    ensures forall x :: x in OwnPairs(ws) ==> x.0 != ProtoKey
  {
    OwnPairsElements(ws);
    ReachedAll(ws);
    assert ws[|ws|..] == [];
  }

  /**
   * One more loop step: a write reaching the setter creates no entry; any
   * other is an own-property assignment.
   */
  lemma AssignOwnSnoc<V>(before: seq<Write<V>>, w: Write<V>)
    ensures AssignAll(OwnPairs(before + [w])) ==
              if w.key == ProtoKey && SetterAfter(before) then AssignAll(OwnPairs(before))
              else Put(AssignAll(OwnPairs(before)), w.key, w.value)
  {
    var ws := before + [w];
    assert ws[..|ws| - 1] == before;
    if w.key == ProtoKey && SetterAfter(before) {
      assert OwnPairs(before) + [] == OwnPairs(before);
    } else {
      var own := OwnPairs(before) + [(w.key, w.value)];
      assert own[..|own| - 1] == OwnPairs(before);
    }
  }

  /** Writes none of whose keys is "__proto__" all become own properties. */
  lemma {:induction false} OwnPairsOfOwnKeys<V>(ws: seq<Write<V>>)
    requires forall i :: 0 <= i < |ws| ==> ws[i].key != ProtoKey
    ensures OwnPairs(ws) == Pairs(ws)
  {
    if ws != [] {
      var init := ws[..|ws| - 1];
      assert forall i :: 0 <= i < |init| ==> init[i] == ws[i];
      OwnPairsOfOwnKeys(init);
      assert ws == init + [ws[|ws| - 1]];
      PairsAppend(init, [ws[|ws| - 1]]);
    }
  }

  /**
   * Whether an object whose prototype is the sanitized `v` still reaches the
   * inherited `__proto__` setter. Null ends the chain; an array's chain runs
   * through `Array.prototype` to `Object.prototype`; a sanitized object
   * reaches it exactly when its own loop kept it. A primitive is ignored by
   * the setter, so writing one keeps it too.
   */
  function KeepsSetter(v: JsonValue): bool
    decreases v
  {
    match v
    case JNull => false
    case JObject(entries) =>
      forall i :: 0 <= i < |entries| && SanitizeUnicodeString(entries[i].0) == ProtoKey ==>
        KeepsSetter(entries[i].1)
    case _ => true
  }

  /** The writes the loop performs for an object's entries, in order. */
  function Writes(entries: seq<(Utf16, JsonValue)>): (ws: seq<Write<JsonValue>>)
    ensures |ws| == |entries|
    decreases JObject(entries), 0
  {
    seq(|entries|, i requires 0 <= i < |entries| =>
      Write(SanitizeUnicodeString(entries[i].0), SanitizeValue(entries[i].1), KeepsSetter(entries[i].1)))
  }

  /** The specification of `sanitizeObjectStrings`. */
  function SanitizeValue(v: JsonValue): JsonValue
    decreases v, 1
  {
    match v
    case JString(s) => JString(SanitizeUnicodeString(s))
    case JArray(items) =>
      JArray(seq(|items|, i requires 0 <= i < |items| => SanitizeValue(items[i])))
    case JObject(entries) => JObject(AssignAll(OwnPairs(Writes(entries))))
    case _ => v
  }

  /** A sanitized object keeps the setter exactly when its loop did. */
  lemma KeepsSetterObject(entries: seq<(Utf16, JsonValue)>)
    ensures KeepsSetter(JObject(entries)) == SetterAfter(Writes(entries))
  {
    var ws := Writes(entries);
    assert forall i :: 0 <= i < |ws| ==>
      ws[i].key == SanitizeUnicodeString(entries[i].0) && ws[i].keeps == KeepsSetter(entries[i].1);
  }

  /**
   * `sanitizeObjectStrings`: strings are sanitized, arrays mapped element by
   * element, and an object is rebuilt by a loop that assigns each sanitized
   * key its sanitized value on a fresh object; a "__proto__" assignment that
   * reaches the setter creates no entry. `keeps` is the prototype state of
   * the result, as `KeepsSetter` describes it.
   */
  method SanitizeObjectStrings(v: JsonValue) returns (r: JsonValue, keeps: bool)
    ensures r == SanitizeValue(v)
    ensures keeps == KeepsSetter(v)
    decreases v, 1
  {
    match v {
      case JString(s) =>
        r, keeps := JString(SanitizeUnicodeString(s)), true;
      case JArray(items) =>
        var mapped: seq<JsonValue> := [];
        for i := 0 to |items|
          invariant |mapped| == i
          invariant forall j :: 0 <= j < i ==> mapped[j] == SanitizeValue(items[j])
        {
          var x, _ := SanitizeObjectStrings(items[i]);
          mapped := mapped + [x];
        }
        r, keeps := JArray(mapped), true;
      case JObject(entries) =>
        var sanitized, setter := SanitizeEntries(entries);
        KeepsSetterObject(entries);
        r, keeps := JObject(sanitized), setter;
      case JNull =>
        r, keeps := v, false;
      case _ =>
        r, keeps := v, true;
    }
  }

  /**
   * The object branch of `sanitizeObjectStrings`: the loop over the entries,
   * returning the entries of the fresh object and whether its prototype
   * chain still reaches the setter.
   */
  method SanitizeEntries(entries: seq<(Utf16, JsonValue)>) returns (sanitized: seq<(Utf16, JsonValue)>, setter: bool)
    ensures sanitized == AssignAll(OwnPairs(Writes(entries)))
    ensures setter == SetterAfter(Writes(entries))
    decreases JObject(entries), 0
  {
    sanitized, setter := [], true;
    ghost var written: seq<Write<JsonValue>> := [];
    for i := 0 to |entries|
      invariant written == Writes(entries)[..i]
      invariant sanitized == AssignAll(OwnPairs(written))
      invariant setter == SetterAfter(written)
    {
      var (key, value) := entries[i];
      var x, xKeeps := SanitizeObjectStrings(value);
      var k := SanitizeUnicodeString(key);
      ghost var before := written;
      if k == ProtoKey && setter {
        setter := xKeeps;
      } else {
        sanitized := Put(sanitized, k, x);
      }
      ghost var w := Write(k, x, xKeeps);
      assert w == Writes(entries)[i];
      written := before + [w];
      assert written == Writes(entries)[..i + 1];
      AssignOwnSnoc(before, w);
      SetterAfterSnoc(before, w);
    }
    assert written == Writes(entries);
  }

  /** No string and no key anywhere in the value holds a code unit the sanitizer would remove. */
  ghost predicate DeepKept(v: JsonValue)
    decreases v
  {
    match v
    case JString(s) => AllKept(s)
    case JArray(items) => forall i :: 0 <= i < |items| ==> DeepKept(items[i])
    case JObject(entries) => forall i :: 0 <= i < |entries| ==> AllKept(entries[i].0) && DeepKept(entries[i].1)
    case _ => true
  }

  /** No object anywhere in the value has an own "__proto__" entry. */
  ghost predicate DeepNoProto(v: JsonValue)
    decreases v
  {
    match v
    case JArray(items) => forall i :: 0 <= i < |items| ==> DeepNoProto(items[i])
    case JObject(entries) => forall i :: 0 <= i < |entries| ==> entries[i].0 != ProtoKey && DeepNoProto(entries[i].1)
    case _ => true
  }

  /**
   * Scalars are untouched; arrays keep length and order; objects end with
   * distinct sanitized keys, and with no "__proto__" entry while their loop
   * kept the setter.
   */
  lemma SanitizeValueShape(v: JsonValue)
    ensures v.JNull? || v.JBool? || v.JNumber? ==> SanitizeValue(v) == v
    ensures v.JString? ==> SanitizeValue(v) == JString(SanitizeUnicodeString(v.s))
    ensures v.JArray? ==> SanitizeValue(v).JArray? && |SanitizeValue(v).items| == |v.items|
    ensures v.JArray? ==> forall i :: 0 <= i < |v.items| ==> SanitizeValue(v).items[i] == SanitizeValue(v.items[i])
    ensures v.JObject? ==> SanitizeValue(v).JObject? && DistinctKeys(SanitizeValue(v).entries)
    ensures v.JObject? ==> |SanitizeValue(v).entries| <= |v.entries|
    ensures v.JObject? && KeepsSetter(v) ==>
              forall i :: 0 <= i < |SanitizeValue(v).entries| ==> SanitizeValue(v).entries[i].0 != ProtoKey
  {
    if v.JObject? {
      var ws := Writes(v.entries);
      var own := OwnPairs(ws);
      OwnPairsLength(ws);
      AssignAllDistinct(own);
      AssignAllKeys(own);
      DedupLength(KeysOf(own));
      AssignAllElements(own);
      var out := AssignAll(own);
      if KeepsSetter(v) {
        KeepsSetterObject(v.entries);
        OwnPairsNoProto(ws);
        forall i | 0 <= i < |out| ensures out[i].0 != ProtoKey {
          assert out[i] in own;
        }
      }
    }
  }

  lemma {:induction false} DedupLength<K>(keys: seq<K>)
    ensures |Dedup(keys)| <= |keys|
  {
    if keys != [] { DedupLength(keys[..|keys| - 1]); }
  }

  /**
   * For objects, each sanitized key other than "__proto__" reads the
   * sanitized value of the last entry whose key maps to it; "__proto__"
   * reads the last value assigned to it after the setter became
   * unreachable, and nothing if there is none.
   */
  lemma SanitizeObjectLookup(entries: seq<(Utf16, JsonValue)>, k: Utf16)
    ensures SanitizeValue(JObject(entries)).JObject?
    ensures Lookup(SanitizeValue(JObject(entries)).entries, k) ==
              var ws := Writes(entries);
              if k == ProtoKey then LastValue(Pairs(ws[Reached(ws)..]), k) else LastValue(Pairs(ws), k)
  {
    var ws := Writes(entries);
    AssignAllLookup(OwnPairs(ws), k);
    OwnPairsLastValue(ws, k);
  }

  /** `{"__proto__": 1}`, as `JSON.parse` builds it, sanitizes to an object without entries. */
  lemma SanitizeProtoExample()
    ensures SanitizeValue(JObject([(ProtoKey, JNumber(1.0))])) == JObject([])
  {
    assert AllKept(ProtoKey);
    SanitizeFixesKept(ProtoKey);
    var ws := Writes([(ProtoKey, JNumber(1.0))]);
    assert OwnPairs(ws) == OwnPairs(ws[..0]) + [];
  }

  /** The object `{"__proto__": null, "__proto__\u0085": 1}`. */
  const NullProtoObject: JsonValue := JObject([(ProtoKey, JNull), (ProtoKey + [0x85], JNumber(1.0))])

  /**
   * Writing null to "__proto__" removes the setter, so the next key that
   * sanitizes to "__proto__" becomes an own entry: the result is
   * `{"__proto__": 1}`, and sanitizing that again gives `{}`.
   */
  lemma SanitizeNullProtoExample()
    ensures SanitizeValue(NullProtoObject) == JObject([(ProtoKey, JNumber(1.0))])
    ensures SanitizeValue(SanitizeValue(NullProtoObject)) == JObject([])
  {
    var w0, w1 := Write(ProtoKey, JNull, false), Write(ProtoKey, JNumber(1.0), true);
    NullProtoWrites();
    OwnPairsSnoc([], w0);
    assert [w0] == [] + [w0];
    assert OwnPairs([w0]) == [];
    OwnPairsSnoc([w0], w1);
    assert [w0, w1] == [w0] + [w1];
    assert OwnPairs([w0, w1]) == [(ProtoKey, JNumber(1.0))];
    assert AssignAll([(ProtoKey, JNumber(1.0))]) == Put([], ProtoKey, JNumber(1.0));
    SanitizeProtoExample();
  }

  /** Both keys of `NullProtoObject` sanitize to "__proto__": U+0085 is a C1 control unit. */
  lemma ProtoKeysSanitized()
    ensures SanitizeUnicodeString(ProtoKey) == ProtoKey
    ensures SanitizeUnicodeString(ProtoKey + [0x85]) == ProtoKey
  {
    assert AllKept(ProtoKey);
    SanitizeFixesKept(ProtoKey);
    SanitizeAppend(ProtoKey, [0x85]);
    SanitizeIsPerUnit([0x85]);
    FlatMapSmall(SanitizedUnit, 0x85, 0x85);
    assert ProtoKey + [] == ProtoKey;
  }

  /** The loop of `SanitizeNullProtoExample` writes "__proto__" twice: first null, then 1. */
  lemma NullProtoWrites()
    ensures Writes(NullProtoObject.entries) == [Write(ProtoKey, JNull, false), Write(ProtoKey, JNumber(1.0), true)]
  {
    ProtoKeysSanitized();
    var es := NullProtoObject.entries;
    var ws := Writes(es);
    assert ws[0] == Write(SanitizeUnicodeString(es[0].0), SanitizeValue(es[0].1), KeepsSetter(es[0].1));
    assert ws[1] == Write(SanitizeUnicodeString(es[1].0), SanitizeValue(es[1].1), KeepsSetter(es[1].1));
    assert ws[0] == Write(ProtoKey, JNull, false);
    assert ws[1] == Write(ProtoKey, JNumber(1.0), true);
  }

  /** After sanitizing, no string and no key at any depth holds a removable code unit. */
  lemma {:induction false} SanitizeValueKept(v: JsonValue)
    ensures DeepKept(SanitizeValue(v))
    decreases v
  {
    match v
    case JString(s) =>
      SanitizedIsKept(s);
    case JArray(items) =>
      forall i | 0 <= i < |items| ensures DeepKept(SanitizeValue(items[i])) {
        SanitizeValueKept(items[i]);
      }
    case JObject(entries) =>
      var ws := Writes(entries);
      var pairs := Pairs(ws);
      forall j | 0 <= j < |pairs| ensures AllKept(pairs[j].0) && DeepKept(pairs[j].1) {
        SanitizedIsKept(entries[j].0);
        SanitizeValueKept(entries[j].1);
      }
      var own := OwnPairs(ws);
      OwnPairsWritten(ws);
      AssignAllElements(own);
      var out := AssignAll(own);
      forall i | 0 <= i < |out| ensures AllKept(out[i].0) && DeepKept(out[i].1) {
        assert out[i] in own;
        assert out[i] in pairs;
      }
    case _ =>
  }

  /**
   * Sanitizing a sanitized value changes nothing, provided no object in it
   * has an own "__proto__" entry (the second pass would run the setter for
   * it; see `SanitizeNullProtoExample`).
   */
  lemma {:induction false} SanitizeValueIdempotent(v: JsonValue)
    requires DeepNoProto(SanitizeValue(v))
    ensures SanitizeValue(SanitizeValue(v)) == SanitizeValue(v)
    decreases v
  {
    match v
    case JString(s) =>
      SanitizeIdempotent(s);
    case JArray(items) =>
      var once := SanitizeValue(v).items;
      forall i | 0 <= i < |items| ensures SanitizeValue(once[i]) == once[i] {
        assert once[i] == SanitizeValue(items[i]);
        SanitizeValueIdempotent(items[i]);
      }
      assert SanitizeValue(SanitizeValue(v)).items == once;
    case JObject(entries) =>
      var ws := Writes(entries);
      var pairs := Pairs(ws);
      var own := OwnPairs(ws);
      OwnPairsWritten(ws);
      var out := AssignAll(own);
      AssignAllElements(own);
      AssignAllDistinct(own);
      var again := Writes(out);
      forall i | 0 <= i < |out| ensures again[i].key == out[i].0 && again[i].value == out[i].1 {
        assert out[i] in own;
        assert out[i] in pairs;
        var j :| 0 <= j < |pairs| && pairs[j] == out[i];
        SanitizeIdempotent(entries[j].0);
        assert DeepNoProto(out[i].1);
        SanitizeValueIdempotent(entries[j].1);
      }
      OwnPairsOfOwnKeys(again);
      assert Pairs(again) == out;
      AssignAllOfDistinct(out);
    case _ =>
  }

  // ---------------------------------------------------------------------
  // safeJsonStringify and the preset serializers
  // ---------------------------------------------------------------------

  /** What `JSON.stringify` does with a value: returns its text or throws with a message. */
  datatype Stringified = Serialized(text: Utf16) | StringifyThrew(message: Utf16)

  /** `JsonSerializationOptions`; an absent field takes its default. */
  datatype SerializationOptions = SerializationOptions(
    maxLength: Option<int>,
    pretty: Option<bool>,
    truncationSuffix: Option<Utf16>)

  const DefaultMaxLength: int := 10000
  const TruncationSuffix: Utf16 := Units("... [truncated]")
  const SerializationErrorPrefix: Utf16 := Units("[Serialization Error: ")
  const SerializationErrorClose: Utf16 := Units("]")

  function MaxLengthOf(options: SerializationOptions): int {
    if options.maxLength.Some? then options.maxLength.value else DefaultMaxLength
  }

  function PrettyOf(options: SerializationOptions): bool {
    options.pretty.Some? && options.pretty.value
  }

  function SuffixOf(options: SerializationOptions): Utf16 {
    if options.truncationSuffix.Some? then options.truncationSuffix.value else TruncationSuffix
  }

  /** `s.substring(0, end)`: JavaScript clamps `end` into `0..s.length`. */
  function Substring(s: Utf16, end: int): (r: Utf16)
    ensures |r| == if end < 0 then 0 else if end > |s| then |s| else end
    ensures r <= s
  {
    if end < 0 then [] else if end > |s| then s else s[..end]
  }

  /**
   * `safeJsonStringify(value, options)` with `JSON.stringify` given as
   * `stringify(value, pretty)`. Text that fits is returned as it is; longer
   * text keeps its first `maxLength - suffix length` units (none when the
   * suffix alone is longer than the limit) and ends in the suffix, so it is
   * exactly at the limit whenever the limit can hold the suffix. A failing
   * `JSON.stringify` yields a diagnostic instead of an exception.
   */
  function SafeJsonStringify<T>(stringify: (T, bool) -> Stringified, value: T, options: SerializationOptions): (r: Utf16)
    ensures stringify(value, PrettyOf(options)).Serialized? ==>
              var text := stringify(value, PrettyOf(options)).text;
              && (|text| <= MaxLengthOf(options) ==> r == text)
              && (|text| > MaxLengthOf(options) ==>
                    && |r| == (if MaxLengthOf(options) < |SuffixOf(options)| then |SuffixOf(options)| else MaxLengthOf(options))
                    && r[|r| - |SuffixOf(options)|..] == SuffixOf(options)
                    && r[..|r| - |SuffixOf(options)|] <= text)
    ensures stringify(value, PrettyOf(options)).Serialized? && MaxLengthOf(options) >= |SuffixOf(options)| ==>
              |r| <= MaxLengthOf(options)
    ensures stringify(value, PrettyOf(options)).StringifyThrew? ==>
              r == SerializationErrorPrefix + stringify(value, PrettyOf(options)).message + SerializationErrorClose
  {
    var maxLength := MaxLengthOf(options);
    var suffix := SuffixOf(options);
    match stringify(value, PrettyOf(options))
    case Serialized(text) =>
      if |text| <= maxLength then text
      else
        var head := Substring(text, maxLength - |suffix|);
        assert (head + suffix)[|head|..] == suffix && (head + suffix)[..|head|] == head;
        head + suffix
    case StringifyThrew(message) =>
      SerializationErrorPrefix + message + SerializationErrorClose
  }

  /** `createJsonSerializer(options)`: a serializer with the options fixed. */
  function CreateJsonSerializer<T>(stringify: (T, bool) -> Stringified, options: SerializationOptions): T -> Utf16
  {
    (value: T) => SafeJsonStringify(stringify, value, options)
  }

  /** The preset serializers of `serializers`. */
  datatype SerializerKind = Tracing | ErrorLog | Logging | Response

  function PresetOptions(kind: SerializerKind): (options: SerializationOptions)
    ensures options.truncationSuffix == None
    ensures kind == Tracing ==> MaxLengthOf(options) == 2000 && !PrettyOf(options)
    ensures kind == ErrorLog ==> MaxLengthOf(options) == 5000 && PrettyOf(options)
    ensures kind == Logging ==> MaxLengthOf(options) == 3000 && !PrettyOf(options)
    ensures kind == Response ==> MaxLengthOf(options) == 15000 && !PrettyOf(options)
  {
    match kind
    case Tracing => SerializationOptions(Some(2000), None, None)
    case ErrorLog => SerializationOptions(Some(5000), Some(true), None)
    case Logging => SerializationOptions(Some(3000), None, None)
    case Response => SerializationOptions(Some(15000), None, None)
  }

  function Serializer<T>(stringify: (T, bool) -> Stringified, kind: SerializerKind): T -> Utf16
  {
    CreateJsonSerializer(stringify, PresetOptions(kind))
  }

  /** The response serializer: compact output of at most 15000 code units when serialization succeeds. */
  lemma ResponseSerializerBound<T>(stringify: (T, bool) -> Stringified, value: T)
    requires stringify(value, false).Serialized?
    ensures |Serializer(stringify, Response)(value)| <= 15000
    ensures |stringify(value, false).text| <= 15000 ==>
              Serializer(stringify, Response)(value) == stringify(value, false).text
    ensures |stringify(value, false).text| > 15000 ==>
              |Serializer(stringify, Response)(value)| == 15000
  {
  }
}
