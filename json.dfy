/**
 * JSON values as the server handles them, with the JavaScript operations its handlers
 * apply to them: truthiness, strict equality, property reads, object spread and the
 * text a value becomes inside a template literal.
 */
module Json {
  import opened Wrappers
  import opened Text

  /** A parsed JSON value (numbers are integers in this model). */
  datatype Value =
    | Null
    | Bool(b: bool)
    | Num(n: int)
    | Str(s: string)
    | Arr(items: seq<Value>)
    | Obj(fields: map<string, Value>)

  /**
   * JavaScript truthiness of a property read; `None` is `undefined`.
   * `null`, `false`, `0` and `""` are falsy; arrays and objects, even empty, are truthy.
   */
  predicate Truthy(v: Option<Value>)
  {
    match v
    case None => false
    case Some(Null) => false
    case Some(Bool(b)) => b
    case Some(Num(n)) => n != 0
    case Some(Str(s)) => s != ""
    case Some(Arr(_)) => true
    case Some(Obj(_)) => true
  }

  /**
   * `a === b` for values that come from separately parsed JSON documents (a request body
   * and a stored record): primitives compare by value, while two arrays or objects are
   * never the same reference.
   */
  predicate StrictEq(a: Option<Value>, b: Option<Value>)
  {
    match (a, b)
    case (None, None) => true
    case (Some(Null), Some(Null)) => true
    case (Some(Bool(x)), Some(Bool(y))) => x == y
    case (Some(Num(x)), Some(Num(y))) => x == y
    case (Some(Str(x)), Some(Str(y))) => x == y
    case _ => false
  }

  lemma StrictEqIsEquality(a: Option<Value>, b: Option<Value>)
    ensures StrictEq(a, b) ==> a == b
    ensures StrictEq(a, b) == StrictEq(b, a)
  {
  }

  /**
   * Reading property `k` of `v` (reading a property of `null` throws instead; callers
   * check for that first): an object's own field, and `undefined` for everything else.
   */
  function Prop(v: Value, k: string): (r: Option<Value>)
    ensures r.Some? ==> v.Obj? && k in v.fields && r.value == v.fields[k]
    ensures v.Obj? && k in v.fields ==> r.Some?
  {
    if v.Obj? && k in v.fields then Some(v.fields[k]) else None
  }

  /** The text a value takes in a template literal (`${v}`), used to build store keys. */
  function TemplateText(v: Option<Value>): string
  {
    match v
    case None => "undefined"
    case Some(x) => ValueText(x)
  }

  /** `String(v)`: arrays join their elements' texts with `,`, and `null` elements give "". */
  function ValueText(v: Value): string
    decreases v
  {
    match v
    case Null => "null"
    case Bool(b) => if b then "true" else "false"
    case Num(n) => IntToDecimal(n)
    case Str(s) => s
    case Arr(items) =>
      Join(seq(|items|, i requires 0 <= i < |items| => if items[i].Null? then "" else ValueText(items[i])), ",")
    case Obj(_) => "[object Object]"
  }

  /** A string's template text is the string itself. */
  lemma TemplateTextOfString(s: string)
    ensures TemplateText(Some(Str(s))) == s
  {
  }

  /** The fields `{ ...v }` contributes: indices for arrays and strings, nothing for other primitives. */
  function Spread(v: Value): map<string, Value>
  {
    match v
    case Obj(m) => m
    case Arr(items) => IndexMap(items)
    case Str(s) => IndexMap(seq(|s|, i requires 0 <= i < |s| => Str([s[i]])))
    case _ => map[]
  }

  /** The index-keyed fields of an array: `"0"`, `"1"`, ... */
  function IndexMap(items: seq<Value>): map<string, Value>
  {
    if |items| == 0 then map[]
    else IndexMap(items[..|items| - 1])[NatToDecimal(|items| - 1) := items[|items| - 1]]
  }

  /**
   * `{ ...existing, ...updates, id }`: a shallow merge in which `updates` overrides
   * `existing` field by field and the `id` field is forced back to the path id.
   */
  function Merge(existing: Value, updates: Value, id: string): (r: map<string, Value>)
    ensures "id" in r && r["id"] == Str(id)
    ensures forall k :: k in r <==> k == "id" || k in Spread(existing) || k in Spread(updates)
    ensures forall k :: k != "id" && k in Spread(updates) ==> r[k] == Spread(updates)[k]
    ensures forall k :: k != "id" && k !in Spread(updates) && k in Spread(existing) ==>
                        r[k] == Spread(existing)[k]
  {
    Spread(existing) + Spread(updates) + map["id" := Str(id)]
  }

  /** On records, fields the update does not mention keep their stored values. */
  lemma MergeKeepsUnmentionedFields(existing: map<string, Value>, updates: map<string, Value>, id: string, k: string)
    requires k != "id" && k !in updates
    ensures k in Merge(Obj(existing), Obj(updates), id) <==> k in existing
    ensures k in existing ==> Merge(Obj(existing), Obj(updates), id)[k] == existing[k]
  {
  }

  /** `v.length` for a string, an array, or an object with a `length` field; otherwise undefined. */
  function LengthProp(v: Value): Option<Value>
  {
    match v
    case Str(s) => Some(Num(|s|))
    case Arr(items) => Some(Num(|items|))
    case Obj(_) => Prop(v, "length")
    case _ => None
  }

  /**
   * `v > 0` in JavaScript, which first converts `v` to a number: `undefined` and objects
   * become NaN, `null` becomes 0, a boolean 0 or 1, and an array the text of its elements
   * joined by `,`, read like any other string.
   */
  predicate GreaterThanZero(v: Option<Value>)
  {
    match v
    case None => false
    case Some(Null) => false
    case Some(Bool(b)) => b
    case Some(Num(n)) => n > 0
    case Some(Str(s)) => NumeralPositive(s)
    case Some(Arr(_)) => NumeralPositive(ValueText(v.value))
    case Some(Obj(_)) => false
  }

  /**
   * A text that, with surrounding whitespace removed, is a run of decimal digits with an
   * optional leading `+` and some digit other than `0`: such a text converts to a positive
   * number. An empty text converts to 0 and a signed `-` numeral to a non-positive one.
   */
  predicate NumeralPositive(s: string)
  {
    DigitRunPositive(Unsigned(Trim(s)))
  }

  /** The text after a leading `+`, if there is one. */
  function Unsigned(t: string): string
  {
    if |t| > 0 && t[0] == '+' then t[1..] else t
  }

  /** Only decimal digits, at least one of them not `0`. */
  predicate DigitRunPositive(d: string)
  {
    |d| > 0 && (forall i :: 0 <= i < |d| ==> IsDigit(d[i])) && exists i :: 0 <= i < |d| && d[i] != '0'
  }

  /** The decimal text of a count compares with 0 as the count does. */
  lemma DecimalTextPositive(n: nat)
    ensures NumeralPositive(NatToDecimal(n)) <==> n > 0
  {
    var r := NatToDecimal(n);
    DigitsPositive(r);
    if n == 0 {
      assert r == "0";
    } else if n < 10 {
      assert r == [Digit(n)];
      assert r[0] != '0';
    } else {
      assert |r| > 1 && r[0] != '0';
    }
  }

  /** The text "2" and `true` compare above 0; the text " 0" and the text "-2" do not. */
  lemma GreaterThanZeroCoerces()
    ensures GreaterThanZero(Some(Str("2"))) && GreaterThanZero(Some(Bool(true)))
    ensures !GreaterThanZero(Some(Str(" 0"))) && !GreaterThanZero(Some(Str("-2")))
  {
    DigitsPositive("2");
    assert "2"[0] != '0';
    TrimLeadingSpaces(" ", "0");
    DigitsPositive("0");
    TrimTrimmed("-2");
    assert "-2"[0] == '-' && !IsDigit('-');
  }

  /** A run of digits is positive exactly when some digit is not `0`. */
  lemma DigitsPositive(s: string)
    requires |s| > 0 && forall i :: 0 <= i < |s| ==> IsDigit(s[i])
    ensures NumeralPositive(s) <==> exists i :: 0 <= i < |s| && s[i] != '0'
  {
    assert IsDigit(s[0]) && IsDigit(s[|s| - 1]);
    TrimTrimmed(s);
  }

  /** The keys an array or string spreads into are numerals, so a named field never comes from one. */
  lemma {:induction false} IndexMapHasNoNamedField(items: seq<Value>, k: string)
    requires |k| > 0 && !IsDigit(k[0])
    ensures k !in IndexMap(items)
    decreases |items|
  {
    if |items| > 0 {
      IndexMapHasNoNamedField(items[..|items| - 1], k);
      assert IsDigit(NatToDecimal(|items| - 1)[0]);
    }
  }

  /** A named field (one that does not start with a digit) of a spread is the property read. */
  lemma SpreadNamedField(v: Value, k: string)
    requires |k| > 0 && !IsDigit(k[0])
    ensures k in Spread(v) <==> Prop(v, k).Some?
    ensures k in Spread(v) ==> Spread(v)[k] == Prop(v, k).value
  {
    match v
    case Arr(items) => IndexMapHasNoNamedField(items, k);
    case Str(s) => IndexMapHasNoNamedField(seq(|s|, i requires 0 <= i < |s| => Str([s[i]])), k);
    case _ =>
  }

  /** Reading a named field other than `id` from a merge: the update's value if it has one, else the old one. */
  lemma MergedField(existing: Value, updates: Value, id: string, k: string)
    requires |k| > 0 && !IsDigit(k[0]) && k != "id"
    ensures Prop(Obj(Merge(existing, updates, id)), k) ==
            if Prop(updates, k).Some? then Prop(updates, k) else Prop(existing, k)
  {
    SpreadNamedField(existing, k);
    SpreadNamedField(updates, k);
  }
}
