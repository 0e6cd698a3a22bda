/** The JavaScript values the route handlers read from requests and from the store,
    and the few language operations they apply to them: truthiness (`!x`, `x || d`),
    property reads (`x?.k`), object spread (`{...x}`), property assignment, and the
    string conversion a template literal performs (`${x}`). */
module JsValues {
  import opened Wrappers

  /** A JSON value. Objects keep their properties in insertion order, as JavaScript
      objects do, so that `Object.keys(o)` and spreading can be modelled. */
  datatype Json =
    | JNull
    | JBool(b: bool)
    | JNum(n: int)
    | JStr(s: string)
    | JArr(items: seq<Json>)
    | JObj(members: seq<(string, Json)>)

  type Members = seq<(string, Json)>

  /** JavaScript's ToBoolean: `null`, `false`, `0` and `""` are falsy, everything
      else (every array and object included) is truthy. */
  predicate Truthy(v: Json) {
    match v
    case JNull => false
    case JBool(b) => b
    case JNum(n) => n != 0
    case JStr(s) => s != ""
    case _ => true
  }

  /** Truthiness of a value that may be `undefined` (None). */
  predicate TruthyOpt(v: Option<Json>) {
    v.Some? && Truthy(v.value)
  }

  /** `a || b` where `a` may be `undefined`. */
  function Or(a: Option<Json>, b: Json): (r: Json)
    ensures TruthyOpt(a) ==> r == a.value
    ensures !TruthyOpt(a) ==> r == b
  {
    if TruthyOpt(a) then a.value else b
  }

  /** True iff some property of `ms` is named `k`. */
  predicate HasKey(ms: Members, k: string) {
    exists i :: 0 <= i < |ms| && ms[i].0 == k
  }

  /** The value of property `k` of an object with properties `ms` (the first binding wins). */
  function Lookup(ms: Members, k: string): (r: Option<Json>)
    ensures r.Some? <==> HasKey(ms, k)
    ensures r.Some? ==> exists i :: 0 <= i < |ms| && ms[i] == (k, r.value)
  {
    if ms == [] then None
    else if ms[0].0 == k then Some(ms[0].1)
    else
      var r := Lookup(ms[1..], k);
      assert forall i :: 0 < i < |ms| ==> ms[i] == ms[1..][i - 1];
      assert HasKey(ms, k) ==> HasKey(ms[1..], k) by {
        if HasKey(ms, k) {
          var i :| 0 <= i < |ms| && ms[i].0 == k;
          assert ms[1..][i - 1].0 == k;
        }
      }
      r
  }

  /** The binding at `i` is the one a lookup finds when no earlier binding has its name. */
  lemma {:induction false} LookupAt(ms: Members, i: nat)
    requires i < |ms|
    requires forall j :: 0 <= j < i ==> ms[j].0 != ms[i].0
    ensures Lookup(ms, ms[i].0) == Some(ms[i].1)
  {
    if i > 0 {
      assert ms[1..][i - 1] == ms[i];
      LookupAt(ms[1..], i - 1);
    }
  }

  /** A lookup in an object whose first property is `k`: that property, or the rest. */
  lemma LookupCons(k: string, v: Json, rest: Members, q: string)
    ensures Lookup([(k, v)] + rest, q) == if k == q then Some(v) else Lookup(rest, q)
  {
    var ms := [(k, v)] + rest;
    assert ms[0] == (k, v);
    assert ms[1..] == rest;
  }

  /** A lookup in `front + back` finds the binding of `front` when there is one, and
      otherwise passes on to `back`. */
  lemma {:induction false} LookupConcat(front: Members, back: Members, q: string)
    ensures Lookup(front + back, q) == if HasKey(front, q) then Lookup(front, q) else Lookup(back, q)
  {
    if front == [] {
      assert front + back == back;
    } else {
      assert (front + back)[0] == front[0];
      assert (front + back)[1..] == front[1..] + back;
      LookupConcat(front[1..], back, q);
      assert HasKey(front, q) == (front[0].0 == q || HasKey(front[1..], q)) by {
        if HasKey(front, q) && front[0].0 != q {
          var i :| 0 <= i < |front| && front[i].0 == q;
          assert front[1..][i - 1].0 == q;
        }
        if HasKey(front[1..], q) {
          var i :| 0 <= i < |front[1..]| && front[1..][i].0 == q;
          assert front[i + 1].0 == q;
        }
      }
    }
  }

  /** A binding of `back` that is the first of its name there, in an object whose
      `front` does not have that name, is the one a lookup in `front + back` finds. */
  lemma LookupAfter(front: Members, back: Members, i: nat)
    requires i < |back| && !HasKey(front, back[i].0)
    requires forall j :: 0 <= j < i ==> back[j].0 != back[i].0
    ensures Lookup(front + back, back[i].0) == Some(back[i].1)
  {
    LookupConcat(front, back, back[i].0);
    LookupAt(back, i);
  }

  /** `x?.k`: the named (non-index, non-`length`) property `k` of `x`. Only objects have
      such properties; `undefined`, `null` and every primitive give `undefined`. */
  function Prop(x: Option<Json>, k: string): (r: Option<Json>)
    ensures r.Some? ==> x.Some? && x.value.JObj?
    ensures x.Some? && x.value.JObj? ==> r == Lookup(x.value.members, k)
  {
    if x.Some? && x.value.JObj? then Lookup(x.value.members, k) else None
  }

  /** `o[k] = v` on an object with properties `ms`: an existing property keeps its
      place and takes the new value, a new property is appended. */
  function Assign(ms: Members, k: string, v: Json): (r: Members)
    ensures Lookup(r, k) == Some(v)
    ensures forall k' :: k' != k ==> Lookup(r, k') == Lookup(ms, k')
  {
    if ms == [] then [(k, v)]
    else if ms[0].0 == k then [(k, v)] + ms[1..]
    else
      var r := [ms[0]] + Assign(ms[1..], k, v);
      assert r[1..] == Assign(ms[1..], k, v);
      r
  }

  /** Assigning to an existing property keeps the object's size; a new one adds one. */
  lemma {:induction false} AssignSize(ms: Members, k: string, v: Json)
    ensures |Assign(ms, k, v)| == if HasKey(ms, k) then |ms| else |ms| + 1
  {
    if ms != [] && ms[0].0 != k {
      AssignSize(ms[1..], k, v);
      assert HasKey(ms, k) == HasKey(ms[1..], k) by {
        if HasKey(ms, k) {
          var i :| 0 <= i < |ms| && ms[i].0 == k;
          assert ms[1..][i - 1].0 == k;
        }
        if HasKey(ms[1..], k) {
          var i :| 0 <= i < |ms[1..]| && ms[1..][i].0 == k;
          assert ms[i + 1].0 == k;
        }
      }
    }
    if ms != [] && ms[0].0 == k {
      assert HasKey(ms, k) by { assert ms[0].0 == k; }
    }
  }

  /** Removes every binding of `k`. */
  function Remove(ms: Members, k: string): (r: Members)
    ensures Lookup(r, k) == None
    ensures forall k' :: k' != k ==> Lookup(r, k') == Lookup(ms, k')
  {
    if ms == [] then []
    else if ms[0].0 == k then Remove(ms[1..], k)
    else
      var r := [ms[0]] + Remove(ms[1..], k);
      assert r[1..] == Remove(ms[1..], k);
      r
  }

  /** `{..., k: x}` in an object literal that is sent as a JSON body: a defined value
      is assigned; `undefined` overrides an earlier `k` and is dropped when the body
      is serialised, so `k` ends up absent. */
  function Override(ms: Members, k: string, x: Option<Json>): (r: Members)
    ensures Lookup(r, k) == x
    ensures forall k' :: k' != k ==> Lookup(r, k') == Lookup(ms, k')
  {
    if x.Some? then Assign(ms, k, x.value) else Remove(ms, k)
  }

  /** The decimal digits of `n`, as `String(n)` writes them. */
  function NatToString(n: nat): (r: string)
    ensures |r| >= 1
    ensures forall i :: 0 <= i < |r| ==> '0' <= r[i] <= '9'
  {
    if n < 10 then ["0123456789"[n]]
    else NatToString(n / 10) + ["0123456789"[n % 10]]
  }

  function IntToString(n: int): string {
    if n < 0 then "-" + NatToString(-n) else NatToString(n)
  }

  /** The own enumerable properties of a value, in order: what `Object.keys` lists and
      what `{...x}` copies. Arrays and strings contribute their indices; `null` and the
      other primitives contribute nothing. */
  function OwnEntries(x: Option<Json>): (r: Members)
    ensures x.Some? && x.value.JObj? ==> r == x.value.members
    ensures x.None? || x.value.JNull? || x.value.JBool? || x.value.JNum? ==> r == []
  {
    match x
    case None => []
    case Some(v) =>
      match v
      case JObj(ms) => ms
      case JArr(items) => seq(|items|, i requires 0 <= i < |items| => (NatToString(i), items[i]))
      case JStr(s) => seq(|s|, i requires 0 <= i < |s| => (NatToString(i), JStr([s[i]])))
      case _ => []
  }

  /** `String(x)`, the conversion a template literal `${x}` applies. */
  function ToText(x: Option<Json>): (r: string)
    ensures x.Some? && x.value.JStr? ==> r == x.value.s
    ensures x.None? ==> r == "undefined"
  {
    match x
    case None => "undefined"
    case Some(v) => Text(v)
  }

  function Text(v: Json): string
    decreases v, 1
  {
    match v
    case JNull => "null"
    case JBool(b) => if b then "true" else "false"
    case JNum(n) => IntToString(n)
    case JStr(s) => s
    case JArr(items) => JoinItems(v, items)
    case JObj(_) => "[object Object]"
  }

  /** `Array.prototype.join(",")` over the elements, `null` elements giving "". */
  function JoinItems(ghost parent: Json, items: seq<Json>): string
    requires forall i :: 0 <= i < |items| ==> items[i] < parent
    decreases parent, 0, |items|
  {
    if items == [] then ""
    else
      var first := if items[0].JNull? then "" else Text(items[0]);
      if |items| == 1 then first else first + "," + JoinItems(parent, items[1..])
  }

  /** `x < bound` for a number `bound`, with the coercion of `x` to a number: `null`
      is 0, booleans are 0 or 1, and `undefined` and objects give NaN, for which every
      comparison is false. Strings and arrays are compared as NaN as well. */
  predicate Below(x: Option<Json>, bound: int) {
    match x
    case Some(JNum(n)) => n < bound
    case Some(JNull) => 0 < bound
    case Some(JBool(b)) => (if b then 1 else 0) < bound
    case _ => false
  }

  /** `x.length`: the length of a string or an array, an object's own `length`
      member, and `undefined` for the other primitives. */
  function LengthOf(x: Json): (r: Option<Json>)
    ensures x.JStr? ==> r == Some(JNum(|x.s|))
    ensures x.JArr? ==> r == Some(JNum(|x.items|))
    ensures x.JNull? || x.JBool? || x.JNum? ==> r.None?
  {
    match x
    case JStr(s) => Some(JNum(|s|))
    case JArr(items) => Some(JNum(|items|))
    case JObj(_) => Prop(Some(x), "length")
    case _ => None
  }

  /** The characters `\s` matches in a JavaScript regular expression. */
  predicate IsWhitespace(c: char) {
    var n := c as int;
    (9 <= n <= 13) || n == 32 || n == 0xA0 || n == 0x1680 || (0x2000 <= n <= 0x200A)
    || n == 0x2028 || n == 0x2029 || n == 0x202F || n == 0x205F || n == 0x3000 || n == 0xFEFF
  }
}
