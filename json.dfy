/**
 * The values an event handler sees once `json.loads` has decoded a payload:
 * Python's dict, list, str, int, bool and None, together with the few pieces
 * of Python behaviour the handler relies on (truthiness, `dict.get`, `len`,
 * `str()` inside an f-string, `str.upper()`).
 */
module Json {

  datatype Option<+T> = None | Some(value: T)

  /** A decoded JSON value. Objects keep their keys in insertion order, as a Python dict does. */
  datatype Json =
    | JNull
    | JBool(b: bool)
    | JInt(i: int)
    | JStr(s: string)
    | JArr(items: seq<Json>)
    | JObj(fields: seq<(string, Json)>)

  type Fields = seq<(string, Json)>

  /**
   * The serialisation functions the handler calls and this model does not
   * re-implement: `json.dumps` with its default ASCII escaping,
   * `json.dumps(..., ensure_ascii=False)`, which writes non-ASCII characters
   * as they are, `json.loads` (None when it raises JSONDecodeError) and
   * Python's `repr` of a list or a dict, which is what an f-string prints for
   * a nested value.
   */
  datatype Codec = Codec(dumps: Json -> string, dumpsUnicode: Json -> string,
                         loads: string -> Option<Json>, repr: Json -> string)

  /** Python truthiness: None, False, 0 and empty strings, lists and dicts are falsy. */
  predicate Truthy(v: Json) {
    match v
    case JNull => false
    case JBool(b) => b
    case JInt(i) => i != 0
    case JStr(s) => s != ""
    case JArr(items) => items != []
    case JObj(fields) => fields != []
  }

  /** True of the values `len()` accepts; on the others it raises TypeError. */
  predicate Sized(v: Json) {
    v.JStr? || v.JArr? || v.JObj?
  }

  /** `key in d` and `d[key]`: the binding of `key`, looked up from the front. */
  function Lookup(fields: Fields, key: string): (r: Option<Json>)
    ensures r.None? <==> forall i :: 0 <= i < |fields| ==> fields[i].0 != key
  {
    if fields == [] then None
    else if fields[0].0 == key then Some(fields[0].1)
    else Lookup(fields[1..], key)
  }

  /** A found value is the one bound at the key's first occurrence. */
  lemma {:induction false} LookupFirst(fields: Fields, key: string)
    requires Lookup(fields, key).Some?
    ensures exists i ::
      (0 <= i < |fields| && fields[i] == (key, Lookup(fields, key).value) &&
       forall j :: 0 <= j < i ==> fields[j].0 != key)
  {
    if fields[0].0 == key {
      assert fields[0] == (key, Lookup(fields, key).value);
    } else {
      var rest := fields[1..];
      LookupFirst(rest, key);
      var i :| 0 <= i < |rest| && rest[i] == (key, Lookup(rest, key).value) &&
        forall j :: 0 <= j < i ==> rest[j].0 != key;
      assert fields[i + 1] == rest[i];
      assert forall j :: 0 <= j < i + 1 ==> fields[j].0 != key by {
        forall j | 0 <= j < i + 1 ensures fields[j].0 != key {
          if j > 0 { assert fields[j] == rest[j - 1]; }
        }
      }
    }
  }

  /** The binding at the key's first occurrence is the one found. */
  lemma {:induction false} LookupAt(fields: Fields, key: string, i: nat)
    requires i < |fields| && fields[i].0 == key
    requires forall j :: 0 <= j < i ==> fields[j].0 != key
    ensures Lookup(fields, key) == Some(fields[i].1)
  {
    if i > 0 {
      LookupAt(fields[1..], key, i - 1);
    }
  }

  /** `d.get(key, default)`. */
  function Get(fields: Fields, key: string, default: Json): Json {
    match Lookup(fields, key)
    case Some(v) => v
    case None => default
  }

  /** The text of a digit 0..9. */
  function DigitChar(d: nat): (c: char)
    requires d < 10
    ensures '0' <= c <= '9' && c as int - '0' as int == d
  {
    (d + '0' as int) as char
  }

  /** Python's `str(n)` for a natural number: decimal digits, most significant first. */
  function NatToDecimal(n: nat): (r: string)
    ensures |r| > 0
    ensures forall k :: 0 <= k < |r| ==> '0' <= r[k] <= '9'
  {
    if n < 10 then [DigitChar(n)] else NatToDecimal(n / 10) + [DigitChar(n % 10)]
  }

  /** The number a string of decimal digits denotes. */
  function DecimalValue(s: string): nat
    requires forall k :: 0 <= k < |s| ==> '0' <= s[k] <= '9'
  {
    if s == [] then 0 else DecimalValue(s[..|s| - 1]) * 10 + (s[|s| - 1] as int - '0' as int)
  }

  /** Reading the digits back gives the number that was printed. */
  lemma {:induction false} DecimalRoundTrip(n: nat)
    ensures DecimalValue(NatToDecimal(n)) == n
  {
    if n >= 10 {
      var s := NatToDecimal(n);
      assert s[..|s| - 1] == NatToDecimal(n / 10);
      DecimalRoundTrip(n / 10);
    }
  }

  /** Python's `str(i)` for an integer. */
  function IntToDecimal(i: int): string {
    if i < 0 then "-" + NatToDecimal(-i) else NatToDecimal(i)
  }

  /** Different natural numbers print differently. */
  lemma NatToDecimalInjective(a: nat, b: nat)
    ensures NatToDecimal(a) == NatToDecimal(b) ==> a == b
  {
    DecimalRoundTrip(a);
    DecimalRoundTrip(b);
  }

  /** Different integers print differently. */
  lemma IntToDecimalInjective(a: int, b: int)
    ensures IntToDecimal(a) == IntToDecimal(b) ==> a == b
  {
    var sa, sb := IntToDecimal(a), IntToDecimal(b);
    if a != b {
      if a < 0 && b < 0 {
        NatToDecimalInjective(-a, -b);
        assert sa[1..] == NatToDecimal(-a) && sb[1..] == NatToDecimal(-b);
      } else if a >= 0 && b >= 0 {
        NatToDecimalInjective(a, b);
      } else {
        assert sa[0] != sb[0];
      }
    }
  }

  /** What `f"{v}"` prints for a value: a string as it is, other scalars as Python spells them. */
  function Str(v: Json, codec: Codec): string {
    match v
    case JNull => "None"
    case JBool(b) => if b then "True" else "False"
    case JInt(i) => IntToDecimal(i)
    case JStr(s) => s
    case _ => codec.repr(v)
  }

  /** `str.upper()` on one character, for the ASCII letters. */
  function UpperChar(c: char): char {
    if 'a' <= c <= 'z' then (c as int - 32) as char else c
  }

  /** `str.upper()`, for the ASCII letters. */
  function Upper(s: string): (r: string)
    ensures |r| == |s|
    ensures forall k :: 0 <= k < |s| ==> r[k] == UpperChar(s[k])
  {
    if s == [] then [] else [UpperChar(s[0])] + Upper(s[1..])
  }

  /** `s` spells the upper-case word `w` with each letter in either case. */
  predicate MatchesIgnoringCase(s: string, w: string) {
    |s| == |w| && forall k :: 0 <= k < |s| ==> s[k] == w[k] || s[k] as int == w[k] as int + 32
  }

  /** Comparing `s.upper()` with an upper-case word is comparing `s` with it ignoring case. */
  lemma UpperMatches(s: string, w: string)
    requires forall k :: 0 <= k < |w| ==> 'A' <= w[k] <= 'Z'
    ensures Upper(s) == w <==> MatchesIgnoringCase(s, w)
  {
    if Upper(s) == w {
      forall k | 0 <= k < |s| ensures s[k] == w[k] || s[k] as int == w[k] as int + 32 {
        assert Upper(s)[k] == UpperChar(s[k]);
      }
    }
    if MatchesIgnoringCase(s, w) {
      forall k | 0 <= k < |s| ensures Upper(s)[k] == w[k] {
        assert Upper(s)[k] == UpperChar(s[k]);
      }
    }
  }
}
