/** The hypotheses on the codec can be met: an encoding of documents that no two documents
    share, decoded by choice, round-trips, and a hash can keep all bytes apart. */
module Codecs {
  import opened Domain
  import opened Artifacts

  // ----- the encoding -----

  /** n ones and a zero. */
  ghost function Unary(n: nat): Bytes {
    if n == 0 then [0] else [1] + Unary(n - 1)
  }

  ghost function OfInt(n: int): Bytes {
    if n < 0 then [1] + Unary(-n) else [0] + Unary(n)
  }

  ghost function OfBool(b: bool): Bytes {
    if b then [1] else [0]
  }

  ghost function OfText(text: string): Bytes {
    if text == [] then [0] else [1] + Unary(text[0] as int) + OfText(text[1..])
  }

  /** A tag for the kind of value, then what is in it. */
  ghost function OfValue(v: Value): Bytes
    decreases v, 1, 0
  {
    match v
    case Null => [0]
    case Flag(b) => [1] + OfBool(b)
    case Text(text) => [2] + OfText(text)
    case Number(n) => [3] + OfInt(n)
    case Float(h, e) => [4] + OfInt(h) + OfInt(e)
    case ZeroFloat(b) => [5] + OfBool(b)
    case Infinite(b) => [6] + OfBool(b)
    case NotANumber => [7]
    case Many(items) => [8] + OfItems(v, items)
    case Nested(fields) => [9] + OfFields(v, fields)
  }

  ghost function OfItems(whole: Value, items: seq<Value>): Bytes
    requires forall i :: 0 <= i < |items| ==> items[i] < whole
    decreases whole, 0, |items|
  {
    if items == [] then [0] else [1] + OfValue(items[0]) + OfItems(whole, items[1..])
  }

  ghost function AnyKey(fields: map<string, Value>): string
    requires fields != map[]
    ensures AnyKey(fields) in fields
  {
    assert fields.Keys != {};
    var k :| k in fields; k
  }

  /** The fields in whatever order. */
  ghost function OfFields(whole: Value, fields: map<string, Value>): Bytes
    requires forall k :: k in fields ==> fields[k] < whole
    decreases whole, 0, |fields|
  {
    if fields == map[] then [0]
    else
      var k := AnyKey(fields);
      [1] + OfText(k) + OfValue(fields[k]) + OfFields(whole, fields - {k})
  }

  // ----- no two documents share it -----

  lemma {:induction false} UnaryInjective(m: nat, n: nat, s: Bytes, t: Bytes)
    requires Unary(m) + s == Unary(n) + t
    ensures m == n && s == t
  {
    if m == 0 || n == 0 {
      assert (Unary(m) + s)[0] == Unary(m)[0] && (Unary(n) + t)[0] == Unary(n)[0];
      assert (Unary(m) + s)[1..] == (Unary(n) + t)[1..];
      assert m == 0 == n;
      assert (Unary(m) + s)[1..] == s && (Unary(n) + t)[1..] == t;
    } else {
      Peel(1, Unary(m - 1), s, 1, Unary(n - 1), t);
      UnaryInjective(m - 1, n - 1, s, t);
    }
  }

  /** Equal encodings have equal first bytes and equal rests. */
  lemma Peel(a: Byte, x: Bytes, s: Bytes, b: Byte, y: Bytes, t: Bytes)
    requires ([a] + x) + s == ([b] + y) + t
    ensures a == b && x + s == y + t
  {
    assert ([a] + x) + s == [a] + (x + s) && ([b] + y) + t == [b] + (y + t);
    assert ([a] + (x + s))[0] == a && ([b] + (y + t))[0] == b;
    assert ([a] + (x + s))[1..] == x + s && ([b] + (y + t))[1..] == y + t;
  }

  lemma IntInjective(m: int, n: int, s: Bytes, t: Bytes)
    requires OfInt(m) + s == OfInt(n) + t
    ensures m == n && s == t
  {
    var a, b := if m < 0 then -m else m, if n < 0 then -n else n;
    Peel(OfInt(m)[0], Unary(a), s, OfInt(n)[0], Unary(b), t);
    UnaryInjective(a, b, s, t);
  }

  lemma BoolInjective(a: bool, b: bool, s: Bytes, t: Bytes)
    requires OfBool(a) + s == OfBool(b) + t
    ensures a == b && s == t
  {
    assert OfBool(a) == OfBool(a) + [] && OfBool(b) == OfBool(b) + [];
    Peel(OfBool(a)[0], [], s, OfBool(b)[0], [], t);
    assert [] + s == s && [] + t == t;
  }

  /** What follows the first byte. */
  ghost function AfterTag(b: Bytes): Bytes {
    if b == [] then [] else b[1..]
  }

  /** Encodings that start with a byte of their own: equal ones have equal tags and rests. */
  lemma Tagged(x: Bytes, y: Bytes, s: Bytes, t: Bytes)
    requires x != [] && y != [] && x + s == y + t
    ensures x[0] == y[0] && AfterTag(x) + s == AfterTag(y) + t
  {
    assert x == [x[0]] + x[1..] && y == [y[0]] + y[1..];
    Peel(x[0], x[1..], s, y[0], y[1..], t);
  }

  /** Two parts after a tag, regrouped. */
  lemma Regroup(tag: Byte, x: Bytes, y: Bytes, s: Bytes)
    ensures AfterTag([tag] + x + y) + s == x + (y + s)
    ensures AfterTag([tag] + x) + s == x + s
  {
    assert ([tag] + x + y)[1..] == x + y && ([tag] + x)[1..] == x;
  }

  lemma {:induction false} TextInjective(a: string, b: string, s: Bytes, t: Bytes)
    requires OfText(a) + s == OfText(b) + t
    ensures a == b && s == t
    decreases |a|
  {
    Tagged(OfText(a), OfText(b), s, t);
    if a != [] && b != [] {
      Regroup(1, Unary(a[0] as int), OfText(a[1..]), s);
      Regroup(1, Unary(b[0] as int), OfText(b[1..]), t);
      UnaryInjective(a[0] as int, b[0] as int, OfText(a[1..]) + s, OfText(b[1..]) + t);
      TextInjective(a[1..], b[1..], s, t);
      assert a == [a[0]] + a[1..] && b == [b[0]] + b[1..];
    } else {
      assert [] + s == s && [] + t == t;
    }
  }

  lemma {:induction false} ValueInjective(v: Value, w: Value, s: Bytes, t: Bytes)
    requires OfValue(v) + s == OfValue(w) + t
    ensures v == w && s == t
    decreases v, 1, 0
  {
    Tagged(OfValue(v), OfValue(w), s, t);
    match v {
      case Null => assert [] + s == s && [] + t == t;
      case NotANumber => assert [] + s == s && [] + t == t;
      case Flag(b) => BoolInjective(b, w.flag, s, t);
      case ZeroFloat(b) => BoolInjective(b, w.minus, s, t);
      case Infinite(b) => BoolInjective(b, w.negative, s, t);
      case Text(text) => TextInjective(text, w.text, s, t);
      case Number(n) => IntInjective(n, w.number, s, t);
      case Float(h, e) =>
        Regroup(4, OfInt(h), OfInt(e), s);
        Regroup(4, OfInt(w.half), OfInt(w.exponent), t);
        IntInjective(h, w.half, OfInt(e) + s, OfInt(w.exponent) + t);
        IntInjective(e, w.exponent, s, t);
      case Many(items) => ItemsInjective(v, items, w, w.items, s, t);
      case Nested(fields) => FieldsInjective(v, fields, w, w.fields, s, t);
    }
  }

  lemma {:induction false} ItemsInjective(v: Value, a: seq<Value>, w: Value, b: seq<Value>, s: Bytes, t: Bytes)
    requires forall i :: 0 <= i < |a| ==> a[i] < v
    requires forall i :: 0 <= i < |b| ==> b[i] < w
    requires OfItems(v, a) + s == OfItems(w, b) + t
    ensures a == b && s == t
    decreases v, 0, |a|
  {
    Tagged(OfItems(v, a), OfItems(w, b), s, t);
    if a != [] && b != [] {
      Regroup(1, OfValue(a[0]), OfItems(v, a[1..]), s);
      Regroup(1, OfValue(b[0]), OfItems(w, b[1..]), t);
      ValueInjective(a[0], b[0], OfItems(v, a[1..]) + s, OfItems(w, b[1..]) + t);
      ItemsInjective(v, a[1..], w, b[1..], s, t);
      assert a == [a[0]] + a[1..] && b == [b[0]] + b[1..];
    } else {
      assert [] + s == s && [] + t == t;
    }
  }

  lemma {:induction false} FieldsInjective(v: Value, a: map<string, Value>, w: Value, b: map<string, Value>,
                                           s: Bytes, t: Bytes)
    requires forall k :: k in a ==> a[k] < v
    requires forall k :: k in b ==> b[k] < w
    requires OfFields(v, a) + s == OfFields(w, b) + t
    ensures a == b && s == t
    decreases v, 0, |a|
  {
    if a != map[] && b != map[] {
      Tagged(OfFields(v, a), OfFields(w, b), s, t);
      var k, l := AnyKey(a), AnyKey(b);
      var moreA, moreB := OfFields(v, a - {k}) + s, OfFields(w, b - {l}) + t;
      OneField(v, a, s);
      OneField(w, b, t);
      TextInjective(k, l, OfValue(a[k]) + moreA, OfValue(b[l]) + moreB);
      ValueInjective(a[k], b[l], moreA, moreB);
      FieldsInjective(v, a - {k}, w, b - {l}, s, t);
      SameFields(a, b, k);
    } else {
      NoField(v, a, w, b, s, t);
    }
  }

  lemma SameFields(a: map<string, Value>, b: map<string, Value>, k: string)
    requires k in a && k in b && a[k] == b[k] && a - {k} == b - {k}
    ensures a == b
  {
    assert a == (a - {k})[k := a[k]] && b == (b - {k})[k := b[k]];
  }

  lemma NoField(v: Value, a: map<string, Value>, w: Value, b: map<string, Value>, s: Bytes, t: Bytes)
    requires forall k :: k in a ==> a[k] < v
    requires forall k :: k in b ==> b[k] < w
    requires OfFields(v, a) + s == OfFields(w, b) + t && (a == map[] || b == map[])
    ensures a == b && s == t
  {
    Tagged(OfFields(v, a), OfFields(w, b), s, t);
    assert [] + s == s && [] + t == t;
  }

  lemma OneField(v: Value, a: map<string, Value>, s: Bytes)
    requires a != map[] && forall k :: k in a ==> a[k] < v
    ensures var k := AnyKey(a);
            AfterTag(OfFields(v, a)) + s == OfText(k) + (OfValue(a[k]) + (OfFields(v, a - {k}) + s))
  {
    var k := AnyKey(a);
    RegroupThree(1, OfText(k), OfValue(a[k]), OfFields(v, a - {k}), s);
  }

  lemma RegroupThree(tag: Byte, x: Bytes, y: Bytes, z: Bytes, s: Bytes)
    ensures AfterTag([tag] + x + y + z) + s == x + (y + (z + s))
  {
    assert ([tag] + x + y + z)[1..] == x + y + z;
    assert (x + y + z) + s == x + (y + (z + s));
  }

  // ----- the codec -----

  lemma DocumentInjective(d: Document, e: Document)
    requires OfValue(Nested(d)) == OfValue(Nested(e))
    ensures d == e
  {
    ValueInjective(Nested(d), Nested(e), [], []);
  }

  ghost function Decode(b: Bytes): Option<Document> {
    if exists d: Document :: OfValue(Nested(d)) == b then
      var d: Document :| OfValue(Nested(d)) == b; Some(d)
    else None
  }

  /** Some codec round-trips every document and keeps all bytes apart. */
  lemma SomeCodec() returns (c: Codec)
    ensures RoundTrips(c) && Injective(c)
  {
    c := Codec((d: Document) => OfValue(Nested(d)), (b: Bytes) => Decode(b),
               (b: Bytes) => seq(|b|, i requires 0 <= i < |b| => b[i] as char));
    forall d: Document
      ensures c.decode(c.encode(d)) == Some(d)
    {
      var b := OfValue(Nested(d));
      var e: Document :| OfValue(Nested(e)) == b && Decode(b) == Some(e);
      DocumentInjective(d, e);
    }
    forall a: Bytes, b: Bytes | c.hash(a) == c.hash(b)
      ensures a == b
    {
      SameHashSameBytes(c, a, b);
    }
  }

  lemma SameHashSameBytes(c: Codec, a: Bytes, b: Bytes)
    requires forall x: Bytes :: c.hash(x) == seq(|x|, i requires 0 <= i < |x| => x[i] as char)
    requires c.hash(a) == c.hash(b)
    ensures a == b
  {
    assert |a| == |c.hash(a)| == |b|;
    forall i | 0 <= i < |a|
      ensures a[i] == b[i]
    {
      assert c.hash(a)[i] == a[i] as char && c.hash(b)[i] == b[i] as char;
    }
  }
}
