/** The JSON tree the configuration codec reads and writes, and the few
    operations of the JSON library that the codec relies on: subscripting,
    typed reads that may throw, range-for iteration and push_back.
    Text parsing and printing are not modelled; a document is its tree. */
module JsonTree {

  datatype Option<+T> = None | Some(value: T)

  const TwoTo32: int := 0x1_0000_0000

  /** std::uint32_t */
  type uint32 = x: int | 0 <= x < 0x1_0000_0000

  /** A JSON value. Numbers are the integers the library stores as 64-bit
      signed or unsigned numbers; floating-point numbers are not modelled.
      An object maps each key to one value, as the library's std::map does. */
  datatype Json =
    | Null
    | Bool(b: bool)
    | Num(n: int)
    | Str(s: string)
    | Arr(items: seq<Json>)
    | Obj(fields: map<string, Json>)

  /** The value stored under key k, or null when j is not an object or has no such key. */
  function Field(j: Json, k: string): Json
  {
    if j.Obj? && k in j.fields then j.fields[k] else Null
  }

  /** `j[k]` on a non-const value: null is first turned into an empty object,
      any other non-object throws (None). A missing key reads as null. */
  function Subscript(j: Json, k: string): Option<Json>
  {
    if j.Null? || j.Obj? then Some(Field(j, k)) else None
  }

  /** `j[k]` on a const value (the elements a range-for visits): any
      non-object throws (None). A missing key is undefined behaviour in the
      library; it is modelled as reading null. */
  function ConstSubscript(j: Json, k: string): Option<Json>
  {
    if j.Obj? then Some(Field(j, k)) else None
  }

  /** `get<std::string>()`: only a string converts; anything else throws (None). */
  function GetString(j: Json): Option<string>
  {
    if j.Str? then Some(j.s) else None
  }

  /** `get<bool>()`: only a boolean converts; anything else throws (None). */
  function GetBool(j: Json): Option<bool>
  {
    if j.Bool? then Some(j.b) else None
  }

  /** `get<std::uint32_t>()`: a number is static_cast to 32 bits (reduced
      modulo 2^32), a boolean becomes 0 or 1, anything else throws (None). */
  function GetU32(j: Json): (v: Option<uint32>)
    ensures j.Num? && 0 <= j.n < TwoTo32 ==> v == Some(j.n)
    ensures v.Some? <==> j.Num? || j.Bool?
  {
    match j
    case Num(n) => Some(n % TwoTo32)
    case Bool(b) => Some(if b then 1 else 0)
    case _ => None
  }

  /** std::string's operator<: character by character, a proper prefix first. */
  predicate StrLess(a: string, b: string)
  {
    if a == [] then b != []
    else if b == [] then false
    else if a[0] != b[0] then a[0] < b[0]
    else StrLess(a[1..], b[1..])
  }

  lemma {:induction false} StrLessAsymmetric(a: string, b: string)
    requires StrLess(a, b)
    ensures !StrLess(b, a)
  {
    if a != [] && b != [] && a[0] == b[0] {
      StrLessAsymmetric(a[1..], b[1..]);
    }
  }

  lemma {:induction false} StrLessTransitive(a: string, b: string, c: string)
    requires StrLess(a, b) && StrLess(b, c)
    ensures StrLess(a, c)
  {
    if a != [] && b != [] && c != [] && a[0] == b[0] && b[0] == c[0] {
      StrLessTransitive(a[1..], b[1..], c[1..]);
    }
  }

  lemma {:induction false} StrLessTotal(a: string, b: string)
    requires a != b
    ensures StrLess(a, b) || StrLess(b, a)
  {
    if a != [] && b != [] && a[0] == b[0] {
      assert a == [a[0]] + a[1..] && b == [b[0]] + b[1..];
      StrLessTotal(a[1..], b[1..]);
    }
  }

  /** k is the smallest key of keys. */
  predicate IsLeast(k: string, keys: set<string>)
  {
    k in keys && forall k' :: k' in keys && k' != k ==> StrLess(k, k')
  }

  lemma {:induction false} LeastExists(keys: set<string>)
    requires keys != {}
    ensures exists k :: IsLeast(k, keys)
    decreases |keys|
  {
    var x :| x in keys;
    var rest := keys - {x};
    if rest == {} {
      assert keys == {x};
      assert IsLeast(x, keys);
    } else {
      LeastExists(rest);
      var m :| IsLeast(m, rest);
      if StrLess(x, m) {
        forall k' | k' in keys && k' != x
          ensures StrLess(x, k')
        {
          if k' != m {
            StrLessTransitive(x, m, k');
          }
        }
        assert IsLeast(x, keys);
      } else {
        StrLessTotal(x, m);
        assert IsLeast(m, keys);
      }
    }
  }

  lemma LeastUnique(keys: set<string>)
    ensures forall a, b :: IsLeast(a, keys) && IsLeast(b, keys) ==> a == b
  {
    forall a, b | IsLeast(a, keys) && IsLeast(b, keys)
      ensures a == b
    {
      if a != b {
        StrLessAsymmetric(a, b);
      }
    }
  }

  function LeastKey(keys: set<string>): (k: string)
    requires keys != {}
    ensures IsLeast(k, keys)
  {
    LeastExists(keys);
    LeastUnique(keys);
    var k :| IsLeast(k, keys);
    k
  }

  /** The keys of an object in the order std::map keeps them. */
  function SortedKeys(keys: set<string>): (ks: seq<string>)
    ensures |ks| == |keys|
    ensures forall k :: k in ks <==> k in keys
    ensures forall i, j :: 0 <= i < j < |ks| ==> StrLess(ks[i], ks[j])
    decreases |keys|
  {
    if keys == {} then []
    else
      var k := LeastKey(keys);
      [k] + SortedKeys(keys - {k})
  }

  /** The values of an object in the order of its keys. */
  function ObjectValues(fields: map<string, Json>): (xs: seq<Json>)
    ensures |xs| == |fields|
    ensures forall x :: x in xs <==> x in fields.Values
  {
    var ks := SortedKeys(fields.Keys);
    var xs := seq(|ks|, i requires 0 <= i < |ks| => fields[ks[i]]);
    assert forall x :: x in fields.Values ==> x in xs by {
      forall x | x in fields.Values
        ensures x in xs
      {
        var k :| k in fields && fields[k] == x;
        var i :| 0 <= i < |ks| && ks[i] == k;
        assert xs[i] == x;
      }
    }
    xs
  }

  /** The values a range-for over j visits: nothing for null, the items of an
      array, the values of an object in key order, and any other value itself, once. */
  function Elements(j: Json): (xs: seq<Json>)
    ensures j.Null? ==> xs == []
    ensures j.Arr? ==> xs == j.items
    ensures j.Obj? ==> |xs| == |j.fields| && forall x :: x in xs <==> x in j.fields.Values
    ensures (j.Bool? || j.Num? || j.Str?) ==> xs == [j]
  {
    match j
    case Null => []
    case Arr(items) => items
    case Obj(fields) => ObjectValues(fields)
    case _ => [j]
  }

  /** `push_back` on a value being built: null first becomes an empty array. */
  function PushBack(j: Json, x: Json): (r: Json)
    requires j.Null? || j.Arr?
    ensures r.Arr? && Elements(r) == Elements(j) + [x]
  {
    if j.Null? then Arr([x]) else Arr(j.items + [x])
  }

  /** The value a serializer loop leaves after pushing each of xs in turn onto
      a default-constructed (null) value: still null when xs is empty. */
  function ArrayOf(xs: seq<Json>): (r: Json)
    ensures r.Null? || r.Arr?
    ensures Elements(r) == xs
  {
    if xs == [] then Null else Arr(xs)
  }
}
