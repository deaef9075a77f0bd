/** The JavaScript values that JSON.parse produces, and the few JavaScript
    operations the scan controller applies to them: truthiness, optional
    property access, Object.entries and template-literal interpolation. */
module Json {
  import opened Wrappers

  /** A parsed JSON value. A number is kept as the text JavaScript's ToString
      gives it (so 1.50 is "1.5" and -0 is "0"); objects keep their own
      properties, with distinct keys, in JavaScript's enumeration order. */
  datatype Json =
    | JNull
    | JBool(b: bool)
    | JNum(text: string)
    | JStr(s: string)
    | JArr(items: seq<Json>)
    | JObj(fields: seq<(string, Json)>)

  /** JavaScript truthiness: null, false, 0 and "" are falsy. */
  predicate Truthy(v: Json) {
    match v
    case JNull => false
    case JBool(b) => b
    case JNum(t) => t != "0"
    case JStr(s) => s != ""
    case JArr(_) => true
    case JObj(_) => true
  }

  /** `x || d` on a value that may be undefined (None). */
  function Or(x: Option<Json>, d: Json): (r: Json)
    ensures x.Some? && Truthy(x.value) ==> r == x.value
    ensures !(x.Some? && Truthy(x.value)) ==> r == d
  {
    if x.Some? && Truthy(x.value) then x.value else d
  }

  /** Own property lookup in a list of fields; the last binding wins. */
  function Lookup(fields: seq<(string, Json)>, key: string): (r: Option<Json>)
    ensures r.Some? <==> exists i :: 0 <= i < |fields| && fields[i].0 == key
    ensures r.Some? ==> exists i :: 0 <= i < |fields| && fields[i] == (key, r.value)
  {
    if fields == [] then None
    else if fields[|fields| - 1].0 == key then Some(fields[|fields| - 1].1)
    else Lookup(fields[..|fields| - 1], key)
  }

  /** The objects JSON.parse builds bind each key once. */
  predicate DistinctKeys(fields: seq<(string, Json)>) {
    forall i, j :: 0 <= i < j < |fields| ==> fields[i].0 != fields[j].0
  }

  /** With distinct keys a lookup finds exactly the value bound to the key,
      wherever the binding sits. */
  lemma {:induction false} LookupDistinct(fields: seq<(string, Json)>, i: nat)
    requires DistinctKeys(fields)
    requires i < |fields|
    ensures Lookup(fields, fields[i].0) == Some(fields[i].1)
    decreases |fields|
  {
    if i < |fields| - 1 {
      var init := fields[..|fields| - 1];
      assert init[i] == fields[i];
      LookupDistinct(init, i);
    }
  }

  /** `v?.key` where `v` is a value or undefined: only objects have the
      properties read here, every other value (null included) gives undefined. */
  function Prop(v: Option<Json>, key: string): (r: Option<Json>)
    ensures r.Some? ==> v.Some? && v.value.JObj?
  {
    if v.Some? && v.value.JObj? then Lookup(v.value.fields, key) else None
  }

  /** `v?.[0]`: an array's first element, an object's own property "0", a
      string's first character; undefined for anything else. */
  function First(v: Option<Json>): (r: Option<Json>)
    ensures v.Some? && v.value.JArr? ==>
      (r.Some? <==> |v.value.items| > 0) && (r.Some? ==> r.value == v.value.items[0])
    ensures v.Some? && v.value.JObj? ==> r == Lookup(v.value.fields, "0")
    ensures v.Some? && v.value.JStr? ==>
      (r.Some? <==> |v.value.s| > 0) && (r.Some? ==> r.value == JStr([v.value.s[0]]))
    ensures v.None? || !(v.value.JArr? || v.value.JObj? || v.value.JStr?) ==> r.None?
  {
    match v
    case Some(JArr(xs)) => if |xs| > 0 then Some(xs[0]) else None
    case Some(JObj(fs)) => Lookup(fs, "0")
    case Some(JStr(t)) => if |t| > 0 then Some(JStr([t[0]])) else None
    case _ => None
  }

  /** Decimal text of a natural number, as JavaScript prints an integer. */
  function NatToString(n: nat): (r: string)
    ensures |r| > 0
    ensures forall i :: 0 <= i < |r| ==> '0' <= r[i] <= '9'
    ensures r[0] == '0' ==> n == 0
    decreases n
  {
    if n < 10 then [Digit(n)] else NatToString(n / 10) + [Digit(n % 10)]
  }

  function Digit(d: nat): (c: char)
    requires d < 10
    ensures '0' <= c <= '9'
    ensures c as int - '0' as int == d
  {
    ['0', '1', '2', '3', '4', '5', '6', '7', '8', '9'][d]
  }

  /** The number a string of decimal digits spells, most significant first. */
  function DigitsValue(s: string): int
  {
    if s == [] then 0 else DigitsValue(s[..|s| - 1]) * 10 + (s[|s| - 1] as int - '0' as int)
  }

  /** NatToString spells its argument: reading the digits back gives n. */
  lemma {:induction false} NatToStringValue(n: nat)
    ensures DigitsValue(NatToString(n)) == n
    decreases n
  {
    var r := NatToString(n);
    if n >= 10 {
      NatToStringValue(n / 10);
      assert r[..|r| - 1] == NatToString(n / 10);
    }
  }

  /** Object.entries(v) for a truthy value: an object's own properties, an
      array's or a string's indexed elements, nothing for a number or true. */
  function Entries(v: Json): (r: seq<(string, Json)>)
    ensures v.JObj? ==> r == v.fields
    ensures v.JArr? ==> |r| == |v.items| && forall i :: 0 <= i < |r| ==> r[i] == (NatToString(i), v.items[i])
    ensures v.JStr? ==> |r| == |v.s| && forall i :: 0 <= i < |r| ==> r[i] == (NatToString(i), JStr([v.s[i]]))
    ensures !(v.JObj? || v.JArr? || v.JStr?) ==> r == []
  {
    match v
    case JObj(fs) => fs
    case JArr(xs) => seq(|xs|, i requires 0 <= i < |xs| => (NatToString(i), xs[i]))
    case JStr(s) => seq(|s|, i requires 0 <= i < |s| => (NatToString(i), JStr([s[i]])))
    case _ => []
  }

  /** The text a template literal `${v}` inserts for a JSON value
      (Array.prototype.join writes null elements as ""). */
  function Interpolate(v: Json): (r: string)
    ensures v.JStr? ==> r == v.s
    ensures v.JNum? ==> r == v.text
    ensures v.JArr? ==> r == Join(v.items)
  {
    match v
    case JNull => "null"
    case JBool(b) => if b then "true" else "false"
    case JNum(t) => t
    case JStr(s) => s
    case JArr(xs) => Join(xs)
    case JObj(_) => "[object Object]"
  }

  function Join(xs: seq<Json>): string
    decreases xs, 0
  {
    if xs == [] then ""
    else
      var last := xs[|xs| - 1];
      var part := if last.JNull? then "" else Interpolate(last);
      if |xs| == 1 then part else Join(xs[..|xs| - 1]) + "," + part
  }

  /** Array.prototype.join with ",": one more element adds a comma and its
      text, a null element adding no text. */
  lemma JoinSnoc(xs: seq<Json>, x: Json)
    requires xs != []
    ensures Join(xs + [x]) == Join(xs) + "," + (if x.JNull? then "" else Interpolate(x))
  {
    assert (xs + [x])[..|xs + [x]| - 1] == xs;
  }

  /** An array of n nulls interpolates as n - 1 commas. */
  lemma {:induction false} JoinNulls(xs: seq<Json>)
    requires xs != []
    requires forall i :: 0 <= i < |xs| ==> xs[i].JNull?
    ensures |Join(xs)| == |xs| - 1
    ensures forall k :: 0 <= k < |Join(xs)| ==> Join(xs)[k] == ','
  {
    if |xs| > 1 {
      JoinNulls(xs[..|xs| - 1]);
    }
  }
}
