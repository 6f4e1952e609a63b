/**
 * The bencoded value tree of libtorrent (torrent::Object): none, a 64-bit
 * integer, a byte string, a list or a string-keyed map, together with the
 * map edits the download factory applies to it and a decimal/string codec.
 */
module Bencode {

  import opened Wrappers

  type int64 = x: int | -0x8000_0000_0000_0000 <= x < 0x8000_0000_0000_0000

  datatype Value =
    | Nil
    | Int(i: int64)
    | Str(s: string)
    | List(items: seq<Value>)
    | Dict(entries: map<string, Value>)

  /** A bencoded map, such as the "rtorrent" bookkeeping section. */
  type Section = map<string, Value>

  /** `has_key_value`: the key is present and holds an integer. */
  predicate HasKeyValue(m: Section, k: string) {
    k in m && m[k].Int?
  }

  /** `has_key_string`: the key is present and holds a string. */
  predicate HasKeyString(m: Section, k: string) {
    k in m && m[k].Str?
  }

  predicate SameType(a: Value, b: Value) {
    (a.Nil? && b.Nil?) || (a.Int? && b.Int?) || (a.Str? && b.Str?) ||
    (a.List? && b.List?) || (a.Dict? && b.Dict?)
  }

  /** `insert_preserve_copy`: insert only when the key is absent. */
  function InsertPreserveCopy(m: Section, k: string, v: Value): Section {
    m[k := if k in m then m[k] else v]
  }

  /** `insert_preserve_type`: insert when the key is absent or holds a value of another type. */
  function InsertPreserveType(m: Section, k: string, v: Value): Section {
    m[k := if k in m && SameType(m[k], v) then m[k] else v]
  }

  /** The `m_variables[k]` read of a std::map of values: a missing key reads as none. */
  function VarOf(vars: map<string, Value>, k: string): Value {
    if k in vars then vars[k] else Nil
  }

  /** The list of string values holding `ss` in order. */
  function StrList(ss: seq<string>): (r: seq<Value>)
    ensures |r| == |ss|
    ensures forall i :: 0 <= i < |ss| ==> r[i] == Str(ss[i])
  {
    if ss == [] then [] else [Str(ss[0])] + StrList(ss[1..])
  }

  // ---------------------------------------------------------------------
  // Decimal numerals and bencoded strings ("<length>:<bytes>").

  predicate IsDigit(c: char) {
    '0' <= c <= '9'
  }

  function DigitChar(d: nat): (c: char)
    requires d < 10
    ensures IsDigit(c) && c as int - '0' as int == d
  {
    ('0' as int + d) as char
  }

  /** The decimal numeral of `n`, as `operator<<` writes a size_t. */
  function Decimal(n: nat): (r: string)
    ensures |r| > 0
    ensures forall i :: 0 <= i < |r| ==> IsDigit(r[i])
    decreases n
  {
    if n < 10 then [DigitChar(n)] else Decimal(n / 10) + [DigitChar(n % 10)]
  }

  /** The number a string of digits denotes. */
  function DigitsValue(d: string): nat
    requires forall i :: 0 <= i < |d| ==> IsDigit(d[i])
  {
    if d == [] then 0
    else
      assert IsDigit(d[|d| - 1]);
      DigitsValue(d[..|d| - 1]) * 10 + (d[|d| - 1] as int - '0' as int)
  }

  /** The length of the longest prefix of `s` made of digits. */
  function LeadingDigits(s: string): (k: nat)
    ensures k <= |s|
    ensures forall i :: 0 <= i < k ==> IsDigit(s[i])
    ensures k < |s| ==> !IsDigit(s[k])
  {
    if s != [] && IsDigit(s[0]) then 1 + LeadingDigits(s[1..]) else 0
  }

  lemma {:induction false} DecimalValue(n: nat)
    ensures DigitsValue(Decimal(n)) == n
    decreases n
  {
    if n >= 10 {
      var d := Decimal(n);
      assert d[..|d| - 1] == Decimal(n / 10);
      DecimalValue(n / 10);
    }
  }

  lemma {:induction false} LeadingDigitsOf(d: string, rest: string)
    requires forall i :: 0 <= i < |d| ==> IsDigit(d[i])
    requires rest == [] || !IsDigit(rest[0])
    ensures LeadingDigits(d + rest) == |d|
  {
    if d != [] {
      assert (d + rest)[1..] == d[1..] + rest;
      LeadingDigitsOf(d[1..], rest);
    } else {
      assert d + rest == rest;
    }
  }

  /** The bencoding of a byte string. */
  function EncodeString(s: string): string {
    Decimal(|s|) + ":" + s
  }

  /** Reads one bencoded string off the front of `s`; returns it and what follows. */
  function DecodeString(s: string): Option<(string, string)> {
    var k := LeadingDigits(s);
    if k == 0 || k == |s| || s[k] != ':' then None
    else
      var n := DigitsValue(s[..k]);
      if k + 1 + n > |s| then None
      else Some((s[k + 1..k + 1 + n], s[k + 1 + n..]))
  }

  /** Reads a bencoded map holding exactly one string key bound to a string. */
  function DecodeSingleEntry(s: string): Option<(string, string)> {
    if s == [] || s[0] != 'd' then None
    else match DecodeString(s[1..])
      case None => None
      case Some((key, rest)) =>
        match DecodeString(rest)
        case None => None
        case Some((val, tail)) => if tail == "e" then Some((key, val)) else None
  }

  lemma {:induction false} DecodeEncodeString(x: string, rest: string)
    ensures DecodeString(EncodeString(x) + rest) == Some((x, rest))
  {
    var d := Decimal(|x|);
    var s := EncodeString(x) + rest;
    assert s == d + (":" + x + rest);
    LeadingDigitsOf(d, ":" + x + rest);
    assert s[..|d|] == d;
    DecimalValue(|x|);
    assert s[|d| + 1..|d| + 1 + |x|] == x;
    assert s[|d| + 1 + |x|..] == rest;
  }

}
