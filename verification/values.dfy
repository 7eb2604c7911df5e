/** JavaScript values as the persistence adapter sees them: the JSON shapes a
    document store holds, plus `undefined`, which is what reading a missing
    property yields. Objects are maps from property names to values. */
module Values {

  datatype Option<+T> = None | Some(value: T)

  datatype Value =
    | Undefined
    | Null
    | Bool(b: bool)
    | Num(n: real)
    | Str(s: string)
    | Arr(items: seq<Value>)
    | Obj(fields: map<string, Value>)

  /** A plain JavaScript object: `opts`, a stored record, a query. */
  type Doc = map<string, Value>

  /** JavaScript truthiness (`if (v)`, `a && b`). */
  function Truthy(v: Value): (t: bool)
    ensures Nullish(v) ==> !t
    ensures v.Arr? || v.Obj? ==> t
    ensures v.Str? ==> (t <==> |v.s| > 0)
  {
    match v
    case Undefined => false
    case Null => false
    case Bool(b) => b
    case Num(n) => n != 0.0
    case Str(s) => s != ""
    case Arr(_) => true
    case Obj(_) => true
  }

  /** Values on which a property read throws a TypeError. */
  predicate Nullish(v: Value) {
    v.Undefined? || v.Null?
  }

  /** `d.key` on an object: `undefined` when the property is missing. */
  function Get(d: Doc, key: string): Value {
    if key in d then d[key] else Undefined
  }

  /** `v.key` for a property name that is neither an array index nor
      `length` (the adapter only reads such names: `keypair`,
      `publicKeyPem`). `None` stands for the TypeError thrown on
      `null`/`undefined`. */
  function Member(v: Value, key: string): (r: Option<Value>)
    ensures r.None? <==> Nullish(v)
  {
    match v
    case Undefined => None
    case Null => None
    case Obj(fields) => Some(Get(fields, key))
    case _ => Some(Undefined)
  }

  /** `v[0]`: the first element of an array, the first character of a
      string, property "0" of an object, `undefined` for other primitives;
      `None` stands for the TypeError thrown on `null`/`undefined`. */
  function ElementZero(v: Value): (r: Option<Value>)
    ensures r.None? <==> Nullish(v)
    ensures v.Arr? && |v.items| > 0 ==> r == Some(v.items[0])
    ensures v.Arr? && |v.items| == 0 ==> r == Some(Undefined)
    ensures v.Str? && |v.s| > 0 ==> r == Some(Str([v.s[0]]))
    ensures v.Str? && |v.s| == 0 ==> r == Some(Undefined)
  {
    match v
    case Undefined => None
    case Null => None
    case Arr(items) => Some(if |items| > 0 then items[0] else Undefined)
    case Str(s) => Some(if |s| > 0 then Str([s[0]]) else Undefined)
    case Obj(fields) => Some(Get(fields, "0"))
    case _ => Some(Undefined)
  }

  /** The decimal digit `d` as a character. */
  function Digit(d: nat): (c: char)
    requires d < 10
    ensures c as int == '0' as int + d
  {
    ('0' as int + d) as char
  }

  /** The property name of array index `i`: its decimal numeral. */
  function IndexKey(i: nat): (k: string)
    ensures |k| >= 1
    ensures i >= 10 ==> |k| >= 2
    decreases i
  {
    if i < 10 then [Digit(i)] else IndexKey(i / 10) + [Digit(i % 10)]
  }

  /** Distinct indices have distinct property names. */
  lemma {:induction false} IndexKeyInjective(i: nat, j: nat)
    requires IndexKey(i) == IndexKey(j)
    ensures i == j
    decreases i
  {
    var k := IndexKey(i);
    if i < 10 && j < 10 {
      assert k[0] == Digit(i) && k[0] == Digit(j);
    } else if i >= 10 && j >= 10 {
      assert k[|k| - 1] == Digit(i % 10) && k[|k| - 1] == Digit(j % 10);
      assert k[..|k| - 1] == IndexKey(i / 10) && k[..|k| - 1] == IndexKey(j / 10);
      IndexKeyInjective(i / 10, j / 10);
    } else {
      assert false;
    }
  }

  /** The own enumerable properties of an array-like value: index keys. */
  function Indexed(s: seq<Value>): (d: Doc)
    ensures forall i :: 0 <= i < |s| ==> IndexKey(i) in d && d[IndexKey(i)] == s[i]
    ensures forall k :: k in d ==> exists i :: 0 <= i < |s| && k == IndexKey(i)
  {
    assert forall i, j :: 0 <= i < |s| && 0 <= j < |s| && IndexKey(i) == IndexKey(j) ==> i == j by {
      forall i, j | 0 <= i < |s| && 0 <= j < |s| && IndexKey(i) == IndexKey(j) {
        IndexKeyInjective(i, j);
      }
    }
    map i | 0 <= i < |s| :: IndexKey(i) := s[i]
  }

  /** The characters of a string as one-character strings, the elements a
      string exposes under its index keys. */
  function Chars(s: string): (r: seq<Value>)
    ensures |r| == |s|
    ensures forall i :: 0 <= i < |s| ==> r[i] == Str([s[i]])
  {
    seq(|s|, i requires 0 <= i < |s| => Str([s[i]]))
  }

  /** The properties lodash copies from a source value when assigning it
      into an object (`keysIn`): an object's own fields, the index keys of
      an array or a string, and nothing for any other primitive. */
  function OwnEnumerable(v: Value): (d: Doc)
    ensures v.Obj? ==> d == v.fields
    ensures !v.Obj? && !v.Arr? && !v.Str? ==> d == map[]
  {
    match v
    case Obj(fields) => fields
    case Arr(items) => Indexed(items)
    case Str(s) => Indexed(Chars(s))
    case _ => map[]
  }
}
