/** JavaScript values as the loader observes them: the payload of an input
    item, the parsed metadata option, a model's reply. Numbers are integers
    here; truthiness, string conversion and object spread follow the
    language's rules for the values that remain. */
module Js {

  datatype Option<+T> = None | Some(value: T)

  datatype Result<+T, +E> = Ok(value: T) | Err(error: E)

  /** `o ?? d`: the value when present, the default when absent. */
  function Coalesce<T>(o: Option<T>, d: T): T
  {
    match o
    case Some(v) => v
    case None => d
  }

  datatype Json =
    | Undefined
    | Null
    | Bool(b: bool)
    | Num(n: int)
    | Str(s: string)
    | Arr(elements: seq<Json>)
    | Obj(fields: map<string, Json>)

  /** A plain object: an item's `json` payload or a metadata record. */
  type Record = map<string, Json>

  /** Property read `r.key`; a missing key reads as `undefined`. */
  function Get(r: Record, key: string): Json
  {
    if key in r then r[key] else Undefined
  }

  /** The value test of `if (v)`. */
  predicate Truthy(v: Json)
  {
    match v
    case Undefined => false
    case Null => false
    case Bool(b) => b
    case Num(n) => n != 0
    case Str(s) => s != ""
    case Arr(_) => true
    case Obj(_) => true
  }

  // ---------------------------------------------------------------------
  // Decimal rendering of numbers

  function DigitChar(d: nat): char
    requires d < 10
  {
    ('0' as int + d) as char
  }

  /** The decimal digits of `n`, most significant first, without leading zeros. */
  function Digits(n: nat): (s: string)
    ensures |s| >= 1
  {
    if n < 10 then [DigitChar(n)] else Digits(n / 10) + [DigitChar(n % 10)]
  }

  /** Reads a string of decimal digits back as a number. */
  function DigitsValue(s: string): nat
  {
    if s == [] then 0
    else
      var c := s[|s| - 1];
      var d := if '0' <= c <= '9' then c as int - '0' as int else 0;
      DigitsValue(s[..|s| - 1]) * 10 + d
  }

  lemma {:induction false} DigitsRoundTrip(n: nat)
    ensures DigitsValue(Digits(n)) == n
  {
    if n >= 10 {
      var s := Digits(n);
      assert s[..|s| - 1] == Digits(n / 10);
      DigitsRoundTrip(n / 10);
    }
  }

  lemma DigitsInjective(i: nat, j: nat)
    requires Digits(i) == Digits(j)
    ensures i == j
  {
    DigitsRoundTrip(i);
    DigitsRoundTrip(j);
  }

  /** `String(n)` for an integer of magnitude below 10^21, which JavaScript
      writes in plain decimal. */
  function NumToString(n: int): string
  {
    if n < 0 then "-" + Digits(-n) else Digits(n)
  }

  // ---------------------------------------------------------------------
  // String conversion and spread

  /** `String(v)`, which is what a template literal `${v}` and `v.toString()`
      produce. */
  function JsString(v: Json): string
    decreases v, 1
  {
    match v
    case Undefined => "undefined"
    case Null => "null"
    case Bool(b) => if b then "true" else "false"
    case Num(n) => NumToString(n)
    case Str(s) => s
    case Arr(_) => JoinFrom(v, 0)
    case Obj(_) => "[object Object]"
  }

  /** The elements of the array `arr` from index `i` on, as `join(",")`
      renders them: `null` and `undefined` become "". */
  function JoinFrom(arr: Json, i: nat): string
    requires arr.Arr? && i <= |arr.elements|
    decreases arr, 0, |arr.elements| - i
  {
    if i == |arr.elements| then ""
    else
      var x := arr.elements[i];
      (if i == 0 then "" else ",")
      + (if x.Undefined? || x.Null? then "" else JsString(x))
      + JoinFrom(arr, i + 1)
  }

  /** The record `{...xs}` for an array or string: its elements under the keys "0", "1", .... */
  function IndexRecord(xs: seq<Json>): (r: Record)
    ensures forall i :: 0 <= i < |xs| ==> Digits(i) in r && r[Digits(i)] == xs[i]
    ensures forall key :: key in r ==> exists i :: 0 <= i < |xs| && key == Digits(i)
  {
    assert forall i: nat, j: nat :: Digits(i) == Digits(j) ==> i == j by {
      forall i: nat, j: nat | Digits(i) == Digits(j) ensures i == j {
        DigitsInjective(i, j);
      }
    }
    map i | 0 <= i < |xs| :: Digits(i) := xs[i]
  }

  /** `{...v}`: a fresh record holding the own enumerable properties of `v`. */
  function Spread(v: Json): (r: Record)
    ensures v.Obj? ==> r == v.fields
    ensures v.Undefined? || v.Null? || v.Bool? || v.Num? ==> r == map[]
    ensures v.Str? ==> forall i :: 0 <= i < |v.s| ==> Digits(i) in r && r[Digits(i)] == Str([v.s[i]])
    ensures v.Arr? ==> forall i :: 0 <= i < |v.elements| ==> Digits(i) in r && r[Digits(i)] == v.elements[i]
    ensures v.Str? ==> forall key :: key in r ==> exists i :: 0 <= i < |v.s| && key == Digits(i)
    ensures v.Arr? ==> forall key :: key in r ==> exists i :: 0 <= i < |v.elements| && key == Digits(i)
  {
    match v
    case Obj(m) => m
    case Arr(xs) => IndexRecord(xs)
    case Str(s) => IndexRecord(seq(|s|, i requires 0 <= i < |s| => Str([s[i]])))
    case _ => map[]
  }
}
