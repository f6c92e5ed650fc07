/** `stable(obj)` of the fingerprint task: a canonical JSON text for a JSON
    value, with object keys in sorted order, so that the ABI hash does not
    depend on the order in which an object's keys were written. */
module Fingerprint {
  import opened Wrappers
  import opened Text
  import opened Numerals

  /** A JSON value as `JSON.parse` produces it; numbers are integers here.
      An object keeps its fields in insertion order. */
  datatype Json =
    | JNull
    | JBool(b: bool)
    | JNumber(n: int)
    | JString(s: string)
    | JArray(items: seq<Json>)
    | JObject(fields: seq<Field>)

  datatype Field = Field(key: string, value: Json)

  // ----- JSON.stringify of a string -----

  /** The escape `JSON.stringify` writes for one character: quote and
      backslash escaped, the five short control escapes, other control
      characters as a lower-case \u00XX escape, everything else as is. */
  function EscapeChar(c: char): (e: string)
    ensures |e| > 0
  {
    if c == '"' then "\\\""
    else if c == '\\' then "\\\\"
    else if c == '\U{0008}' then "\\b"
    else if c == '\t' then "\\t"
    else if c == '\n' then "\\n"
    else if c == '\U{000C}' then "\\f"
    else if c == '\r' then "\\r"
    else if (c as int) < 0x20 then "\\u00" + [DigitChar(c as int / 16), DigitChar(c as int % 16)]
    else [c]
  }

  /** `JSON.stringify`'s escaping of a whole string; a string without quotes,
      backslashes or control characters is written as is. */
  function Escape(s: string): (r: string)
    ensures |s| <= |r|
    ensures (forall i :: 0 <= i < |s| ==> s[i] as int >= 0x20 && s[i] != '"' && s[i] != '\\') ==> r == s
  {
    if s == "" then ""
    else
      assert s == [s[0]] + s[1..];
      EscapeChar(s[0]) + Escape(s[1..])
  }

  /** `JSON.stringify(s)` for a string `s`. */
  function Quote(s: string): (q: string)
    ensures |s| + 2 <= |q| && q[0] == '"' && q[|q| - 1] == '"'
  {
    "\"" + Escape(s) + "\""
  }

  /** The character a one-letter escape stands for. */
  function ShortEscape(c: char): Option<char>
  {
    if c == '"' then Some('"')
    else if c == '\\' then Some('\\')
    else if c == '/' then Some('/')
    else if c == 'b' then Some('\U{0008}')
    else if c == 't' then Some('\t')
    else if c == 'n' then Some('\n')
    else if c == 'f' then Some('\U{000C}')
    else if c == 'r' then Some('\r')
    else None
  }

  function Prepend(c: char, rest: Option<string>): Option<string>
  {
    match rest
    case Some(r) => Some([c] + r)
    case None => None
  }

  /** Decodes the body of a JSON string literal; None when it holds an
      unescaped quote or a malformed escape. */
  function Unescape(t: string): Option<string>
    decreases |t|
  {
    if t == "" then Some("")
    else if t[0] == '"' then None
    else if t[0] != '\\' then Prepend(t[0], Unescape(t[1..]))
    else if |t| >= 2 && ShortEscape(t[1]).Some? then Prepend(ShortEscape(t[1]).value, Unescape(t[2..]))
    else if |t| >= 6 && t[1] == 'u' && AllHex(t[2..6]) && HexValue(t[2..6]) < 0xD800 then
      Prepend(HexValue(t[2..6]) as char, Unescape(t[6..]))
    else None
  }

  /** Decodes a JSON string literal. */
  function Unquote(t: string): Option<string>
  {
    if |t| >= 2 && t[0] == '"' && t[|t| - 1] == '"' then Unescape(t[1..|t| - 1]) else None
  }

  /** The four digits of a \u00XX escape read back as the character's code. */
  lemma ControlDigits(c: char)
    requires (c as int) < 0x20
    ensures var digits := ['0', '0', DigitChar(c as int / 16), DigitChar(c as int % 16)];
      AllHex(digits) && HexValue(digits) == c as int
  {
    var hi, lo := c as int / 16, c as int % 16;
    var digits := ['0', '0', DigitChar(hi), DigitChar(lo)];
    DigitCharValue(hi);
    DigitCharValue(lo);
    assert HexValue(digits[..1]) == 0 by { assert digits[..1][..0] == ""; }
    assert HexValue(digits[..2]) == 0 by { assert digits[..2][..1] == digits[..1]; }
    assert HexValue(digits[..3]) == hi by { assert digits[..3][..2] == digits[..2]; }
    assert HexValue(digits) == hi * 16 + lo by { assert digits[..3] == digits[..|digits| - 1]; }
  }

  /** Decoding one escaped character gives the character back. */
  lemma UnescapeChar(c: char, rest: string)
    ensures Unescape(EscapeChar(c) + rest) == Prepend(c, Unescape(rest))
  {
    var t := EscapeChar(c) + rest;
    if c == '"' || c == '\\' || c == '\U{0008}' || c == '\t' || c == '\n' || c == '\U{000C}' || c == '\r' {
      assert t[2..] == rest;
    } else if (c as int) < 0x20 {
      assert t[2..6] == ['0', '0', DigitChar(c as int / 16), DigitChar(c as int % 16)];
      assert t[6..] == rest;
      ControlDigits(c);
    } else {
      assert t[1..] == rest;
    }
  }

  /** Decoding an escaped string gives the string back. */
  lemma {:induction false} UnescapeEscape(s: string)
    ensures Unescape(Escape(s)) == Some(s)
  {
    if s != "" {
      UnescapeEscape(s[1..]);
      UnescapeChar(s[0], Escape(s[1..]));
      assert [s[0]] + s[1..] == s;
    }
  }

  /** `JSON.stringify` of a string decodes back to the string, so two
      different keys never print alike. */
  lemma UnquoteQuote(s: string)
    ensures Unquote(Quote(s)) == Some(s)
  {
    var t := Quote(s);
    assert t[1..|t| - 1] == Escape(s);
    UnescapeEscape(s);
  }

  lemma QuoteInjective(a: string, b: string)
    requires Quote(a) == Quote(b)
    ensures a == b
  {
    UnquoteQuote(a);
    UnquoteQuote(b);
  }

  // ----- sorting keys -----

  /** The order `Array.prototype.sort` uses by default: lexicographic by character. */
  predicate LexLeq(a: string, b: string)
    decreases |a|
  {
    a == [] || (b != [] && (a[0] < b[0] || (a[0] == b[0] && LexLeq(a[1..], b[1..]))))
  }

  lemma {:induction false} LexLeqReflexive(a: string)
    ensures LexLeq(a, a)
    decreases |a|
  {
    if a != [] {
      LexLeqReflexive(a[1..]);
    }
  }

  lemma {:induction false} LexLeqTotal(a: string, b: string)
    ensures LexLeq(a, b) || LexLeq(b, a)
    decreases |a|
  {
    if a != [] && b != [] && a[0] == b[0] {
      LexLeqTotal(a[1..], b[1..]);
    }
  }

  lemma {:induction false} LexLeqAntisymmetric(a: string, b: string)
    requires LexLeq(a, b) && LexLeq(b, a)
    ensures a == b
    decreases |a|
  {
    if a != [] {
      LexLeqAntisymmetric(a[1..], b[1..]);
      assert a == [a[0]] + a[1..] && b == [b[0]] + b[1..];
    }
  }

  lemma {:induction false} LexLeqTransitive(a: string, b: string, c: string)
    requires LexLeq(a, b) && LexLeq(b, c)
    ensures LexLeq(a, c)
    decreases |a|
  {
    if a != [] && a[0] == b[0] && b[0] == c[0] {
      LexLeqTransitive(a[1..], b[1..], c[1..]);
    }
  }

  predicate Sorted(s: seq<string>)
  {
    forall i, j :: 0 <= i < j < |s| ==> LexLeq(s[i], s[j])
  }

  /** Inserts `k` into a sorted sequence, keeping it sorted. */
  function Insert(k: string, sorted: seq<string>): (r: seq<string>)
    requires Sorted(sorted)
    ensures Sorted(r)
    ensures multiset(r) == multiset(sorted) + multiset{k}
  {
    if sorted == [] then [k]
    else if LexLeq(k, sorted[0]) then
      forall j | 0 <= j < |sorted| ensures LexLeq(k, sorted[j]) {
        if j > 0 { LexLeqTransitive(k, sorted[0], sorted[j]); }
      }
      [k] + sorted
    else
      var rest := Insert(k, sorted[1..]);
      assert sorted == [sorted[0]] + sorted[1..];
      LexLeqTotal(k, sorted[0]);
      forall x | x in multiset(rest) ensures LexLeq(sorted[0], x) {
        if x != k {
          var j :| 1 <= j < |sorted| && sorted[j] == x;
        }
      }
      [sorted[0]] + rest
  }

  /** `keys.sort()`: the keys in ascending order, each as often as given. */
  function SortKeys(keys: seq<string>): (r: seq<string>)
    ensures Sorted(r)
    ensures multiset(r) == multiset(keys)
  {
    if keys == [] then []
    else
      assert keys == [keys[0]] + keys[1..];
      Insert(keys[0], SortKeys(keys[1..]))
  }

  /** Removing equal heads from equal multisets leaves equal multisets. */
  lemma MultisetTails(a: seq<string>, b: seq<string>)
    requires a != [] && b != [] && a[0] == b[0] && multiset(a) == multiset(b)
    ensures multiset(a[1..]) == multiset(b[1..])
  {
    assert a == [a[0]] + a[1..] && b == [b[0]] + b[1..];
    assert multiset(a[1..]) == multiset(a) - multiset{a[0]};
    assert multiset(b[1..]) == multiset(b) - multiset{b[0]};
  }

  /** The head of a sorted sequence is below every element of it. */
  lemma SortedHead(a: seq<string>, x: string)
    requires Sorted(a) && x in a
    ensures LexLeq(a[0], x)
  {
    var i :| 0 <= i < |a| && a[i] == x;
    if i == 0 { LexLeqReflexive(x); }
  }

  /** Sequences with the same multiset have the same members. */
  lemma SameMembers(a: seq<string>, b: seq<string>)
    requires multiset(a) == multiset(b)
    ensures forall k :: k in a <==> k in b
  {
    forall k ensures k in a <==> k in b {
      assert k in a <==> k in multiset(a);
      assert k in b <==> k in multiset(b);
    }
  }

  /** A sorted arrangement of a multiset of keys is unique. */
  lemma {:induction false} SortedUnique(a: seq<string>, b: seq<string>)
    requires Sorted(a) && Sorted(b) && multiset(a) == multiset(b)
    ensures a == b
    decreases |a|
  {
    if a == [] {
      assert |multiset(b)| == 0;
    } else {
      assert a[0] in multiset(b) && b[0] in multiset(a);
      SortedHead(a, b[0]);
      SortedHead(b, a[0]);
      LexLeqAntisymmetric(a[0], b[0]);
      MultisetTails(a, b);
      SortedUnique(a[1..], b[1..]);
      assert a == [a[0]] + a[1..] && b == [b[0]] + b[1..];
    }
  }

  /** Sorting forgets the order the keys were listed in: any arrangement of
      the same keys sorts to the same sequence. */
  lemma SortKeysAnyOrder(a: seq<string>, b: seq<string>)
    requires multiset(a) == multiset(b)
    ensures SortKeys(a) == SortKeys(b)
  {
    SortedUnique(SortKeys(a), SortKeys(b));
  }

  // ----- object fields -----

  /** The keys of an object's fields, in insertion order. JavaScript's
      `Object.keys` lists integer-like keys first, in numeric order; `stable`
      sorts the keys at once, and `SortKeysAnyOrder` shows that the listing
      order cannot reach its output. */
  function Keys(fields: seq<Field>): (ks: seq<string>)
    ensures |ks| == |fields|
    ensures forall i :: 0 <= i < |fields| ==> ks[i] == fields[i].key
  {
    seq(|fields|, i requires 0 <= i < |fields| => fields[i].key)
  }

  /** `obj[k]` for a key of the object: the value of its (first) field with key `k`. */
  function ValueAt(fields: seq<Field>, k: string): (v: Json)
    requires k in Keys(fields)
    ensures exists i :: 0 <= i < |fields| && fields[i] == Field(k, v)
  {
    if fields[0].key == k then fields[0].value
    else
      assert Keys(fields) == [fields[0].key] + Keys(fields[1..]);
      var v := ValueAt(fields[1..], k);
      assert exists i :: 0 <= i < |fields[1..]| && fields[1..][i] == Field(k, v);
      v
  }

  // ----- the serialiser -----

  /** `JSON.stringify` of a null, boolean, number or string. */
  function Leaf(j: Json): (r: string)
    requires !j.JArray? && !j.JObject?
    ensures j.JString? ==> Unquote(r) == Some(j.s)
    ensures j.JNumber? ==> |r| > 0 && (r[0] == '-' <==> j.n < 0)
    ensures j.JNumber? && j.n >= 0 ==> NumberOfString(r) == Num(j.n)
  {
    match j
    case JNull => "null"
    case JBool(b) => if b then "true" else "false"
    case JNumber(n) =>
      assert n >= 0 ==> NumberOfString(IntToString(n)) == Num(n) by {
        if n >= 0 { NumberReadsDecimal(n); }
      }
      IntToString(n)
    case JString(s) =>
      UnquoteQuote(s);
      Quote(s)
  }

  /** `stable(obj)`: arrays element by element in order, objects member by
      member in sorted key order, everything else as `JSON.stringify` prints it. */
  function Stable(j: Json): (r: string)
    ensures j.JArray? ==> 2 <= |r| && r[0] == '[' && r[|r| - 1] == ']'
    ensures j.JObject? ==> 2 <= |r| && r[0] == '{' && r[|r| - 1] == '}'
    decreases j, 1
  {
    match j
    case JArray(items) => "[" + Join(ItemTexts(items, j), ",") + "]"
    case JObject(fields) =>
      SameMembers(SortKeys(Keys(fields)), Keys(fields));
      "{" + Join(MemberTexts(fields, SortKeys(Keys(fields)), j), ",") + "}"
    case _ => Leaf(j)
  }

  /** `obj.map(stable)`. */
  function ItemTexts(items: seq<Json>, ghost parent: Json): (texts: seq<string>)
    requires parent == JArray(items)
    ensures |texts| == |items|
    ensures forall i :: 0 <= i < |items| ==> texts[i] == Stable(items[i])
    decreases parent, 0
  {
    seq(|items|, i requires 0 <= i < |items| => Stable(items[i]))
  }

  /** `keys.map(k => JSON.stringify(k) + ":" + stable(obj[k]))`. */
  function MemberTexts(fields: seq<Field>, keys: seq<string>, ghost parent: Json): (texts: seq<string>)
    requires parent == JObject(fields)
    requires forall k :: k in keys ==> k in Keys(fields)
    ensures |texts| == |keys|
    ensures forall i :: 0 <= i < |keys| ==>
      StartsWith(texts[i], Quote(keys[i]) + ":") && texts[i][|Quote(keys[i])| + 1..] == Stable(ValueAt(fields, keys[i]))
    decreases parent, 0
  {
    seq(|keys|, i requires 0 <= i < |keys| => Quote(keys[i]) + ":" + Stable(ValueAt(fields, keys[i])))
  }

  // ----- properties -----

  /** Two JSON values are the same value when they differ at most in the
      order in which the fields of their objects were inserted. */
  predicate SameValue(a: Json, b: Json)
    decreases a
  {
    match a
    case JArray(xs) =>
      b.JArray? && |xs| == |b.items| &&
      forall i :: 0 <= i < |xs| ==> SameValue(xs[i], b.items[i])
    case JObject(fs) =>
      b.JObject? && multiset(Keys(fs)) == multiset(Keys(b.fields)) &&
      forall k :: k in Keys(fs) && k in Keys(b.fields) ==> SameValue(ValueAt(fs, k), ValueAt(b.fields, k))
    case _ => a == b
  }

  lemma {:induction false} SameValueReflexive(a: Json)
    ensures SameValue(a, a)
    decreases a
  {
    match a
    case JArray(xs) =>
      forall i | 0 <= i < |xs| ensures SameValue(xs[i], xs[i]) {
        SameValueReflexive(xs[i]);
      }
    case JObject(fs) =>
      forall k | k in Keys(fs) ensures SameValue(ValueAt(fs, k), ValueAt(fs, k)) {
        SameValueReflexive(ValueAt(fs, k));
      }
    case _ =>
  }

  /** The output depends only on the value, not on the insertion order of
      object fields: equal values print alike. */
  lemma {:induction false} StableRespectsSameValue(a: Json, b: Json)
    requires SameValue(a, b)
    ensures Stable(a) == Stable(b)
    decreases a, 1
  {
    match a
    case JArray(xs) =>
      ItemTextsRespectSameValue(xs, b.items);
    case JObject(fs) =>
      var gs := b.fields;
      var keys := SortKeys(Keys(fs));
      SortedUnique(keys, SortKeys(Keys(gs)));
      SameMembers(keys, Keys(fs));
      SameMembers(keys, Keys(gs));
      MemberTextsRespectSameValue(fs, gs, keys);
    case _ =>
  }

  lemma {:induction false} ItemTextsRespectSameValue(xs: seq<Json>, ys: seq<Json>)
    requires |xs| == |ys| && forall i :: 0 <= i < |xs| ==> SameValue(xs[i], ys[i])
    ensures ItemTexts(xs, JArray(xs)) == ItemTexts(ys, JArray(ys))
    decreases JArray(xs), 0
  {
    forall i | 0 <= i < |xs| ensures Stable(xs[i]) == Stable(ys[i]) {
      StableRespectsSameValue(xs[i], ys[i]);
    }
  }

  lemma {:induction false} MemberTextsRespectSameValue(fs: seq<Field>, gs: seq<Field>, keys: seq<string>)
    requires forall k :: k in keys ==> k in Keys(fs) && k in Keys(gs)
    requires forall k :: k in Keys(fs) && k in Keys(gs) ==> SameValue(ValueAt(fs, k), ValueAt(gs, k))
    ensures MemberTexts(fs, keys, JObject(fs)) == MemberTexts(gs, keys, JObject(gs))
    decreases JObject(fs), 0
  {
    forall i | 0 <= i < |keys|
      ensures Stable(ValueAt(fs, keys[i])) == Stable(ValueAt(gs, keys[i]))
    {
      StableRespectsSameValue(ValueAt(fs, keys[i]), ValueAt(gs, keys[i]));
    }
  }

  /** Object fields with no repeated key, as every JavaScript object has. */
  predicate DistinctKeys(fields: seq<Field>)
  {
    forall i, j :: 0 <= i < j < |fields| ==> fields[i].key != fields[j].key
  }

  lemma KeysAppend(a: seq<Field>, b: seq<Field>)
    ensures Keys(a + b) == Keys(a) + Keys(b)
  {
  }

  /** Taking out the field at `j` takes out one occurrence of it. */
  lemma RemoveField(gs: seq<Field>, j: nat)
    requires j < |gs|
    ensures multiset(gs[..j] + gs[j + 1..]) == multiset(gs) - multiset{gs[j]}
  {
    assert gs == gs[..j] + [gs[j]] + gs[j + 1..];
  }

  /** Taking out the field at `j` takes out one occurrence of its key. */
  lemma RemoveKey(gs: seq<Field>, j: nat)
    requires j < |gs|
    ensures multiset(Keys(gs)) == multiset(Keys(gs[..j] + gs[j + 1..])) + multiset{gs[j].key}
  {
    var before, after := gs[..j], gs[j + 1..];
    assert gs == before + [gs[j]] + after;
    KeysAppend(before + [gs[j]], after);
    KeysAppend(before, [gs[j]]);
    KeysAppend(before, after);
    assert Keys([gs[j]]) == [gs[j].key];
    calc {
      multiset(Keys(gs));
      multiset(Keys(before) + [gs[j].key] + Keys(after));
      multiset(Keys(before)) + multiset{gs[j].key} + multiset(Keys(after));
      multiset(Keys(before) + Keys(after)) + multiset{gs[j].key};
      multiset(Keys(before + after)) + multiset{gs[j].key};
    }
  }

  /** When `gs` rearranges `fs`, some field of `gs` is the first field of
      `fs`, and without them the rest still rearrange each other. */
  lemma RemoveMatching(fs: seq<Field>, gs: seq<Field>) returns (j: nat)
    requires fs != [] && multiset(fs) == multiset(gs)
    ensures j < |gs| && gs[j] == fs[0]
    ensures multiset(fs[1..]) == multiset(gs[..j] + gs[j + 1..])
  {
    assert fs[0] in gs by {
      assert fs[0] in multiset(gs);
    }
    j :| 0 <= j < |gs| && gs[j] == fs[0];
    calc {
      multiset(fs[1..]);
      { assert fs == [fs[0]] + fs[1..]; }
      multiset(fs) - multiset{fs[0]};
      multiset(gs) - multiset{gs[j]};
      { RemoveField(gs, j); }
      multiset(gs[..j] + gs[j + 1..]);
    }
  }

  /** The keys of `fs` and of `gs` agree once a common first field is set aside. */
  lemma KeysPermutationStep(fs: seq<Field>, gs: seq<Field>, j: nat)
    requires fs != [] && j < |gs| && gs[j] == fs[0]
    requires multiset(Keys(fs[1..])) == multiset(Keys(gs[..j] + gs[j + 1..]))
    ensures multiset(Keys(fs)) == multiset(Keys(gs))
  {
    var k := fs[0].key;
    calc {
      multiset(Keys(fs));
      { assert Keys(fs) == [k] + Keys(fs[1..]); }
      multiset{k} + multiset(Keys(fs[1..]));
      multiset{k} + multiset(Keys(gs[..j] + gs[j + 1..]));
      { RemoveKey(gs, j); }
      multiset(Keys(gs));
    }
  }

  /** Rearranging fields rearranges their keys. */
  lemma {:induction false} KeysPermutation(fs: seq<Field>, gs: seq<Field>)
    requires multiset(fs) == multiset(gs)
    ensures multiset(Keys(fs)) == multiset(Keys(gs))
    decreases |fs|
  {
    if fs == [] {
      assert |multiset(gs)| == 0;
    } else {
      var j := RemoveMatching(fs, gs);
      KeysPermutation(fs[1..], gs[..j] + gs[j + 1..]);
      KeysPermutationStep(fs, gs, j);
    }
  }

  /** With distinct keys, the field holding key `k` is the one `obj[k]` reads. */
  lemma ValueAtUnique(fields: seq<Field>, i: nat)
    requires DistinctKeys(fields) && i < |fields|
    ensures ValueAt(fields, fields[i].key) == fields[i].value
  {
    var v := ValueAt(fields, fields[i].key);
    var j :| 0 <= j < |fields| && fields[j] == Field(fields[i].key, v);
    assert i == j;
  }

  /** Two objects holding the same key/value pairs, inserted in different
      orders, print identically. */
  lemma InsertionOrderIrrelevant(fs: seq<Field>, gs: seq<Field>)
    requires DistinctKeys(fs) && DistinctKeys(gs) && multiset(fs) == multiset(gs)
    ensures Stable(JObject(fs)) == Stable(JObject(gs))
  {
    KeysPermutation(fs, gs);
    forall k | k in Keys(fs) && k in Keys(gs)
      ensures SameValue(ValueAt(fs, k), ValueAt(gs, k))
    {
      var v := ValueAt(gs, k);
      var j :| 0 <= j < |gs| && gs[j] == Field(k, v);
      assert gs[j] in multiset(fs);
      var i :| 0 <= i < |fs| && fs[i] == gs[j];
      ValueAtUnique(fs, i);
      SameValueReflexive(v);
    }
    StableRespectsSameValue(JObject(fs), JObject(gs));
  }

  /** One more element adds its text after the texts of the others. */
  lemma ItemTextsAppend(xs: seq<Json>, x: Json)
    ensures ItemTexts(xs + [x], JArray(xs + [x])) == ItemTexts(xs, JArray(xs)) + [Stable(x)]
  {
    var ys := xs + [x];
    var all := ItemTexts(ys, JArray(ys));
    var texts := ItemTexts(xs, JArray(xs));
    forall i | 0 <= i < |ys|
      ensures all[i] == (texts + [Stable(x)])[i]
    {
      if i < |xs| {
        assert ys[i] == xs[i];
      }
    }
  }

  /** Regrouping a concatenation of five strings. */
  lemma Reassociate(a: string, b: string, c: string, d: string, e: string)
    ensures a + (b + c + d) + e == (a + b) + c + d + e
  {
  }

  /** An array prints its elements in their order: one more element adds a
      comma and its text before the closing bracket. */
  lemma StableArrayAppend(xs: seq<Json>, x: Json)
    ensures Stable(JArray(xs + [x])) ==
      if xs == [] then "[" + Stable(x) + "]"
      else Stable(JArray(xs))[..|Stable(JArray(xs))| - 1] + "," + Stable(x) + "]"
  {
    var texts := ItemTexts(xs, JArray(xs));
    ItemTextsAppend(xs, x);
    JoinAppend(texts, Stable(x), ",");
    if xs == [] {
      assert texts == [];
    } else {
      var whole := Stable(JArray(xs));
      var inner := Join(texts, ",");
      assert whole[..|whole| - 1] == "[" + inner by {
        assert whole == "[" + inner + "]";
      }
      calc {
        Stable(JArray(xs + [x]));
        "[" + Join(texts + [Stable(x)], ",") + "]";
        "[" + (inner + "," + Stable(x)) + "]";
        { Reassociate("[", inner, ",", Stable(x), "]"); }
        ("[" + inner) + "," + Stable(x) + "]";
      }
    }
  }

  /** An object whose keys are distinct and already in `sort()` order prints
      its members in field order: each key quoted, a colon, then the text of
      its value, separated by commas inside braces. */
  lemma StableSortedObject(fields: seq<Field>)
    requires DistinctKeys(fields) && Sorted(Keys(fields))
    ensures Stable(JObject(fields)) ==
      "{" + Join(seq(|fields|, i requires 0 <= i < |fields| => Quote(fields[i].key) + ":" + Stable(fields[i].value)), ",") + "}"
  {
    var keys := Keys(fields);
    SortedUnique(SortKeys(keys), keys);
    var texts := MemberTexts(fields, SortKeys(keys), JObject(fields));
    var members := seq(|fields|, i requires 0 <= i < |fields| => Quote(fields[i].key) + ":" + Stable(fields[i].value));
    forall i | 0 <= i < |fields|
      ensures texts[i] == members[i]
    {
      ValueAtUnique(fields, i);
    }
    assert texts == members;
  }

  /** Null, booleans, numbers and strings print as `JSON.stringify` prints
      them: a string decodes back to itself, a natural number reads back. */
  lemma StableLeaves(s: string, n: nat)
    ensures Stable(JNull) == "null"
    ensures Stable(JBool(true)) == "true" && Stable(JBool(false)) == "false"
    ensures Unquote(Stable(JString(s))) == Some(s)
    ensures NumberOfString(Stable(JNumber(n))) == Num(n)
  {
    UnquoteQuote(s);
    NumberReadsDecimal(n);
  }
}
