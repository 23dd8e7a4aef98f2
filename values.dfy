/**
 * JavaScript values as the form library sees them: submitted field values,
 * attribute values and configuration entries, together with the two
 * conversions the library relies on, `String(v)` (used by template literals
 * such as `${value}`) and `Array.prototype.join`.
 */
module Values {

  datatype Option<+T> = None | Some(value: T) {
    /** The value when present, `default` otherwise. */
    function GetOr(default: T): T {
      match this
      case Some(v) => v
      case None => default
    }
  }

  /** A JavaScript value. Numbers are restricted to integers. */
  datatype Value =
    | Undef
    | Null
    | Bool(b: bool)
    | Num(n: int)
    | Str(s: string)
    | List(items: seq<Value>)

  /** Submitted or stored form data: a plain object from field name to value. */
  type Data = map<string, Value>

  /** `data[key]`: a missing key reads as `undefined`. */
  function DataGet(data: Data, key: string): (v: Value)
    ensures key !in data ==> v == Undef
    ensures key in data ==> v == data[key]
  {
    if key in data then data[key] else Undef
  }

  function DigitChar(d: nat): (c: char)
    requires d < 10
    ensures '0' <= c <= '9'
  {
    ('0' as int + d) as char
  }

  /** Decimal notation of a natural number, most significant digit first. */
  function NatToString(n: nat): (r: string)
    ensures |r| >= 1
    ensures forall i :: 0 <= i < |r| ==> '0' <= r[i] <= '9'
    decreases n
  {
    if n < 10 then [DigitChar(n)] else NatToString(n / 10) + [DigitChar(n % 10)]
  }

  /** `String(n)` for an integer: a minus sign before the digits of a negative number. */
  function IntToString(n: int): (r: string)
    ensures |r| >= 1
    ensures n < 0 <==> r[0] == '-'
  {
    if n < 0 then "-" + NatToString(-n) else NatToString(n)
  }

  /** The number a string of decimal digits denotes, read left to right. */
  function DecimalValue(s: string): nat
    requires forall i :: 0 <= i < |s| ==> '0' <= s[i] <= '9'
  {
    if |s| == 0 then 0
    else DecimalValue(s[..|s| - 1]) * 10 + (s[|s| - 1] as int - '0' as int)
  }

  /** Decimal digits, optionally preceded by one minus sign. */
  predicate SignedDigits(s: string) {
    && |s| >= 1
    && (s[0] == '-' ==> forall i :: 1 <= i < |s| ==> '0' <= s[i] <= '9')
    && (s[0] != '-' ==> forall i :: 0 <= i < |s| ==> '0' <= s[i] <= '9')
  }

  /** The number a string with an optional leading minus sign denotes. */
  function SignedValue(s: string): int
    requires SignedDigits(s)
  {
    if s[0] == '-' then -(DecimalValue(s[1..]) as int) else DecimalValue(s)
  }

  /** The digits of a natural number read back as that number, with no leading zero except for 0 itself. */
  lemma {:induction false} NatToStringSpec(n: nat)
    ensures DecimalValue(NatToString(n)) == n
    ensures NatToString(n)[0] == '0' <==> n == 0
    ensures n == 0 ==> NatToString(n) == "0"
    decreases n
  {
    if n >= 10 {
      NatToStringSpec(n / 10);
      var p := NatToString(n / 10);
      assert (p + [DigitChar(n % 10)])[..|p|] == p;
    }
  }

  /**
   * `String(n)` reads back as `n` for every integer, and only `0` begins with
   * the digit 0; a negative number has a non-zero digit right after its sign.
   */
  lemma {:induction false} IntToStringSpec(n: int)
    ensures SignedDigits(IntToString(n))
    ensures SignedValue(IntToString(n)) == n
    ensures IntToString(n)[0] == '0' <==> n == 0
    ensures n < 0 ==> |IntToString(n)| >= 2 && IntToString(n)[1] != '0'
    ensures n == 0 ==> IntToString(n) == "0"
  {
    var r := IntToString(n);
    if n < 0 {
      NatToStringSpec(-n);
      assert r == "-" + NatToString(-n);
      assert r[1..] == NatToString(-n);
      assert r[1] == NatToString(-n)[0];
    } else {
      NatToStringSpec(n);
    }
  }

  /** `Array.prototype.join`: the parts separated by `sep`; no parts give "". */
  function Join(parts: seq<string>, sep: string): (r: string)
    ensures |parts| == 0 ==> r == ""
    ensures |parts| == 1 ==> r == parts[0]
  {
    if |parts| == 0 then ""
    else if |parts| == 1 then parts[0]
    else Join(parts[..|parts| - 1], sep) + sep + parts[|parts| - 1]
  }

  /** Joining two non-empty lists puts exactly one separator between them. */
  lemma {:induction false} JoinAppend(a: seq<string>, b: seq<string>, sep: string)
    requires |a| > 0 && |b| > 0
    ensures Join(a + b, sep) == Join(a, sep) + sep + Join(b, sep)
    decreases |b|
  {
    if |b| == 1 {
      assert (a + b)[..|a + b| - 1] == a;
    } else {
      var b' := b[..|b| - 1];
      assert (a + b)[..|a + b| - 1] == a + b';
      JoinAppend(a, b', sep);
      assert b[..|b| - 1] == b';
    }
  }

  /** `String(v)` as a template literal produces it. */
  function JsString(v: Value): (r: string)
    decreases v
  {
    match v
    case Undef => "undefined"
    case Null => "null"
    case Bool(b) => if b then "true" else "false"
    case Num(n) => IntToString(n)
    case Str(s) => s
    case List(items) =>
      // Array.prototype.toString: elements joined by ",", with null and
      // undefined elements written as the empty string
      Join(seq(|items|, i requires 0 <= i < |items| =>
                 if items[i].Undef? || items[i].Null? then "" else JsString(items[i])), ",")
  }

  /** A number attribute value is written as its decimal digits: `String(1)` is `1`, `String(-40)` is `-40`. */
  lemma {:induction false} JsStringExamples()
    ensures JsString(Num(1)) == "1"
    ensures JsString(Num(-40)) == "-40"
  {
    assert NatToString(40) == "40";
  }

  // ---------------------------------------------------------------------
  // Ordered string-keyed entries: a JavaScript object or Map, as the list
  // of its entries in iteration order.
  // ---------------------------------------------------------------------

  function Keys<T>(entries: seq<(string, T)>): (r: seq<string>)
    ensures |r| == |entries|
    ensures forall i :: 0 <= i < |r| ==> r[i] == entries[i].0
  {
    seq(|entries|, i requires 0 <= i < |entries| => entries[i].0)
  }

  ghost predicate DistinctKeys<T>(entries: seq<(string, T)>) {
    forall i, j :: 0 <= i < j < |entries| ==> entries[i].0 != entries[j].0
  }

  /** The position of `key`, if present. */
  function IndexOfKey<T>(entries: seq<(string, T)>, key: string): (r: Option<nat>)
    ensures r.Some? ==> r.value < |entries| && entries[r.value].0 == key
    ensures r.Some? ==> forall j :: 0 <= j < r.value ==> entries[j].0 != key
    ensures r.None? ==> forall j :: 0 <= j < |entries| ==> entries[j].0 != key
  {
    if |entries| == 0 then None
    else if entries[0].0 == key then Some(0)
    else match IndexOfKey(entries[1..], key)
      case None => None
      case Some(k) => Some(k + 1)
  }

  /** `obj[key]` / `map.get(key)`. */
  function Get<T>(entries: seq<(string, T)>, key: string): (r: Option<T>)
    ensures r.None? <==> forall j :: 0 <= j < |entries| ==> entries[j].0 != key
  {
    match IndexOfKey(entries, key)
    case None => None
    case Some(i) => Some(entries[i].1)
  }

  /** `obj[key] = value` / `map.set(key, value)`: an existing key keeps its position, a new one goes last. */
  function Put<T>(entries: seq<(string, T)>, key: string, value: T): (r: seq<(string, T)>)
  {
    match IndexOfKey(entries, key)
    case None => entries + [(key, value)]
    case Some(i) => entries[i := (key, value)]
  }

  /** The first entry with `key` is the one `IndexOfKey` finds. */
  lemma IndexOfKeyAt<T>(entries: seq<(string, T)>, key: string, i: nat)
    requires i < |entries| && entries[i].0 == key
    requires forall j :: 0 <= j < i ==> entries[j].0 != key
    ensures IndexOfKey(entries, key) == Some(i)
    ensures Get(entries, key) == Some(entries[i].1)
  {
  }

  lemma {:induction false} PutSpec<T>(entries: seq<(string, T)>, key: string, value: T)
    requires DistinctKeys(entries)
    ensures DistinctKeys(Put(entries, key, value))
    ensures Get(Put(entries, key, value), key) == Some(value)
    ensures forall k :: k != key ==> Get(Put(entries, key, value), k) == Get(entries, k)
    ensures Get(entries, key).Some? ==> Keys(Put(entries, key, value)) == Keys(entries)
    ensures Get(entries, key).None? ==> Keys(Put(entries, key, value)) == Keys(entries) + [key]
  {
    var r := Put(entries, key, value);
    match IndexOfKey(entries, key) {
      case None => IndexOfKeyAt(r, key, |entries|);
      case Some(i) => IndexOfKeyAt(r, key, i);
    }
    forall k | k != key
      ensures Get(r, k) == Get(entries, k)
    {
      match IndexOfKey(entries, k)
      case None =>
      case Some(j) =>
        IndexOfKeyAt(r, k, j);
    }
  }

  /** `Object.assign(base, over)`: each entry of `over`, in order, is put into `base`. */
  function Assign<T>(base: seq<(string, T)>, over: seq<(string, T)>): seq<(string, T)>
    decreases |over|
  {
    if |over| == 0 then base else Assign(Put(base, over[0].0, over[0].1), over[1..])
  }

  /** After `Object.assign`, a key of `over` has its value there; any other key keeps its value from `base`. */
  lemma {:induction false} AssignSpec<T>(base: seq<(string, T)>, over: seq<(string, T)>)
    requires DistinctKeys(base) && DistinctKeys(over)
    ensures DistinctKeys(Assign(base, over))
    ensures forall k :: Get(Assign(base, over), k) == if Get(over, k).Some? then Get(over, k) else Get(base, k)
    decreases |over|
  {
    if |over| > 0 {
      var (k0, v0) := over[0];
      var base' := Put(base, k0, v0);
      PutSpec(base, k0, v0);
      AssignSpec(base', over[1..]);
      forall k
        ensures Get(Assign(base, over), k) == if Get(over, k).Some? then Get(over, k) else Get(base, k)
      {
        if k == k0 {
          IndexOfKeyAt(over, k, 0);
        } else {
          match IndexOfKey(over[1..], k)
          case None =>
          case Some(j) => IndexOfKeyAt(over, k, j + 1);
        }
      }
    }
  }

  /** `Object.assign` keeps the keys of `base` first, in their order. */
  lemma {:induction false} AssignKeepsBaseOrder<T>(base: seq<(string, T)>, over: seq<(string, T)>)
    ensures |base| <= |Assign(base, over)|
    ensures Keys(Assign(base, over))[..|base|] == Keys(base)
    decreases |over|
  {
    if |over| > 0 {
      var base' := Put(base, over[0].0, over[0].1);
      AssignKeepsBaseOrder(base', over[1..]);
      assert Keys(base')[..|base|] == Keys(base);
    }
  }

  /** The keys `Object.assign` adds follow those of `base`, in the order of `over`. */
  lemma {:induction false} AssignAppendsNewKeys<T>(base: seq<(string, T)>, over: seq<(string, T)>)
    requires DistinctKeys(over)
    requires forall i :: 0 <= i < |over| ==> Get(base, over[i].0).None?
    ensures Keys(Assign(base, over)) == Keys(base) + Keys(over)
    decreases |over|
  {
    if |over| == 0 {
      assert Keys(base) + Keys(over) == Keys(base);
    } else {
      var (k0, v0) := over[0];
      assert Get(base, k0).None?;
      var base' := base + [(k0, v0)];
      assert Put(base, k0, v0) == base';
      forall i | 0 <= i < |over[1..]|
        ensures Get(base', over[1..][i].0).None?
      {
        var k := over[i + 1].0;
        assert k != k0;
        assert Get(base, k).None?;
      }
      AssignAppendsNewKeys(base', over[1..]);
      assert Keys(base') == Keys(base) + [k0];
      assert Keys(over) == [k0] + Keys(over[1..]);
    }
  }
}
