/**
 * JSON values and a text codec standing in for `JSON.stringify` and
 * `JSON.parse`. The encoding is not JSON syntax: it is a prefix-tagged text
 * whose only purpose is to be non-empty, injective and exactly inverted by
 * `Decode`, which is all the code of this model relies on.
 *
 *   null      "n"             true / false  "t" / "f"
 *   number n  "i" sign |n|    string s      "s" |s| s
 *   array     "a" count items object        "o" count (|key| key value)*
 *
 * where every natural number is written as its decimal digits, least
 * significant first, followed by ';'.
 */
module JsonCodec {
  import opened Wrappers

  datatype Json =
    | JNull
    | JBool(b: bool)
    | JNum(n: int)
    | JStr(s: string)
    | JArr(items: seq<Json>)
    | JObj(members: seq<Member>)

  /** One `key: value` pair of a JSON object, in the order written. */
  datatype Member = Member(key: string, value: Json)

  // ---------------------------------------------------------------- numbers

  function DigitChar(d: nat): (c: char)
    requires d < 10
    ensures '0' <= c <= '9' && (c as int) - ('0' as int) == d
  {
    (('0' as int) + d) as char
  }

  /** The digits of `n`, least significant first. */
  function NatDigits(n: nat): (r: string)
    ensures |r| > 0
    ensures forall i :: 0 <= i < |r| ==> '0' <= r[i] <= '9'
  {
    if n < 10 then [DigitChar(n)] else [DigitChar(n % 10)] + NatDigits(n / 10)
  }

  /** `n` as written in the encoding: its digits and a terminating ';'. */
  function EncodeNat(n: nat): (r: string)
    ensures |r| >= 2 && r[|r| - 1] == ';'
  {
    NatDigits(n) + [';']
  }

  /** Reads a run of digits up to and including ';'; returns the number and what follows. */
  function ParseNat(s: string): (r: Option<(nat, string)>)
    ensures r.Some? ==> |r.value.1| < |s|
  {
    if |s| == 0 then None
    else if s[0] == ';' then Some((0, s[1..]))
    else if '0' <= s[0] <= '9' then
      match ParseNat(s[1..])
      case None => None
      case Some((m, rest)) => Some(((s[0] as int) - ('0' as int) + 10 * m, rest))
    else None
  }

  lemma {:induction false} ParseEncodedNat(n: nat, rest: string)
    ensures ParseNat(EncodeNat(n) + rest) == Some((n, rest))
    decreases n
  {
    var s := EncodeNat(n) + rest;
    if n < 10 {
      assert s == [DigitChar(n)] + ([';'] + rest);
      assert s[1..] == [';'] + rest;
      assert ParseNat(s[1..]) == Some((0, rest));
    } else {
      assert s == [DigitChar(n % 10)] + (EncodeNat(n / 10) + rest);
      assert s[1..] == EncodeNat(n / 10) + rest;
      ParseEncodedNat(n / 10, rest);
    }
  }

  // ---------------------------------------------------------------- encoder

  /** The text `JSON.stringify` produces for `v`. */
  function Encode(v: Json): (r: string)
    ensures |r| > 0
  {
    match v
    case JNull => "n"
    case JBool(b) => if b then "t" else "f"
    case JNum(n) => "i" + (if n < 0 then "-" else "+") + EncodeNat(if n < 0 then -n else n)
    case JStr(s) => "s" + EncodeNat(|s|) + s
    case JArr(items) => "a" + EncodeNat(|items|) + EncodeItems(items)
    case JObj(members) => "o" + EncodeNat(|members|) + EncodeMembers(members)
  }

  function EncodeItems(items: seq<Json>): string
  {
    if items == [] then "" else Encode(items[0]) + EncodeItems(items[1..])
  }

  function EncodeMembers(members: seq<Member>): string
  {
    if members == [] then ""
    else
      EncodeNat(|members[0].key|) + members[0].key + Encode(members[0].value)
      + EncodeMembers(members[1..])
  }

  // ----------------------------------------------------------------- parser

  /** Reads one value from the front of `s`; returns it and what follows. */
  function ParseValue(s: string): (r: Option<(Json, string)>)
    ensures r.Some? ==> |r.value.1| < |s|
    decreases |s|, 0
  {
    if |s| == 0 then None
    else
      var tag, body := s[0], s[1..];
      if tag == 'n' then Some((JNull, body))
      else if tag == 't' then Some((JBool(true), body))
      else if tag == 'f' then Some((JBool(false), body))
      else if tag == 'i' then ParseNum(body)
      else if tag == 's' then ParseStr(body)
      else if tag == 'a' then ParseArr(body)
      else if tag == 'o' then ParseObj(body)
      else None
  }

  /** A number after its tag: a sign, then its magnitude. */
  function ParseNum(s: string): (r: Option<(Json, string)>)
    ensures r.Some? ==> |r.value.1| < |s|
  {
    if |s| == 0 || (s[0] != '-' && s[0] != '+') then None
    else
      match ParseNat(s[1..])
      case None => None
      case Some((m, rest)) => Some((JNum(if s[0] == '-' then -(m as int) else m), rest))
  }

  /** A string after its tag: its length, then its characters. */
  function ParseStr(s: string): (r: Option<(Json, string)>)
    ensures r.Some? ==> |r.value.1| < |s|
  {
    match ParseNat(s)
    case None => None
    case Some((len, rest)) =>
      if |rest| < len then None else Some((JStr(rest[..len]), rest[len..]))
  }

  /** An array after its tag: its length, then its items. */
  function ParseArr(s: string): (r: Option<(Json, string)>)
    ensures r.Some? ==> |r.value.1| < |s|
    decreases |s|, 2
  {
    match ParseNat(s)
    case None => None
    case Some((count, rest)) =>
      match ParseItems(count, rest)
      case None => None
      case Some((items, rest')) => Some((JArr(items), rest'))
  }

  /** An object after its tag: its number of members, then the members. */
  function ParseObj(s: string): (r: Option<(Json, string)>)
    ensures r.Some? ==> |r.value.1| < |s|
    decreases |s|, 2
  {
    match ParseNat(s)
    case None => None
    case Some((count, rest)) =>
      match ParseMembers(count, rest)
      case None => None
      case Some((members, rest')) => Some((JObj(members), rest'))
  }

  /** Reads `count` values in a row. */
  function ParseItems(count: nat, s: string): (r: Option<(seq<Json>, string)>)
    ensures r.Some? ==> |r.value.1| <= |s| && |r.value.0| == count
    decreases |s|, 1, count
  {
    if count == 0 then Some(([], s))
    else
      match ParseValue(s)
      case None => None
      case Some((v, rest)) =>
        match ParseItems(count - 1, rest)
        case None => None
        case Some((vs, rest')) => Some(([v] + vs, rest'))
  }

  /** Reads `count` members in a row. */
  function ParseMembers(count: nat, s: string): (r: Option<(seq<Member>, string)>)
    ensures r.Some? ==> |r.value.1| <= |s| && |r.value.0| == count
    decreases |s|, 1, count
  {
    if count == 0 then Some(([], s))
    else
      match ParseNat(s)
      case None => None
      case Some((len, rest)) =>
        if |rest| < len then None
        else
          match ParseValue(rest[len..])
          case None => None
          case Some((v, rest')) =>
            match ParseMembers(count - 1, rest')
            case None => None
            case Some((ms, rest'')) => Some(([Member(rest[..len], v)] + ms, rest''))
  }

  /** `JSON.parse`: the value `s` encodes, or `None` where parsing would throw. */
  function Decode(s: string): (r: Option<Json>)
    ensures s == "" ==> r.None?
    ensures r.Some? <==> ParseValue(s).Some? && ParseValue(s).value.1 == ""
    ensures r.Some? ==> r.value == ParseValue(s).value.0
  {
    match ParseValue(s)
    case Some((v, rest)) => if rest == "" then Some(v) else None
    case None => None
  }

  // ------------------------------------------------------------- round trip

  lemma {:induction false} ParseEncoded(v: Json, rest: string)
    ensures ParseValue(Encode(v) + rest) == Some((v, rest))
    decreases v, 2
  {
    match v
    case JNull =>
    case JBool(b) =>
    case JNum(n) => ParseEncodedNum(n, rest);
    case JStr(str) => ParseEncodedStr(str, rest);
    case JArr(items) => ParseEncodedArr(items, rest);
    case JObj(members) => ParseEncodedObj(members, rest);
  }

  lemma ParseEncodedNum(n: int, rest: string)
    ensures ParseValue(Encode(JNum(n)) + rest) == Some((JNum(n), rest))
  {
    var m: nat := if n < 0 then -n else n;
    var sign := if n < 0 then "-" else "+";
    var body := sign + (EncodeNat(m) + rest);
    assert Encode(JNum(n)) + rest == "i" + body;
    assert body[1..] == EncodeNat(m) + rest;
    ParseEncodedNat(m, rest);
    assert ParseNum(body) == Some((JNum(n), rest));
  }

  lemma ParseEncodedStr(str: string, rest: string)
    ensures ParseValue(Encode(JStr(str)) + rest) == Some((JStr(str), rest))
  {
    var body := EncodeNat(|str|) + (str + rest);
    assert Encode(JStr(str)) + rest == "s" + body;
    ParseEncodedNat(|str|, str + rest);
    assert (str + rest)[..|str|] == str;
    assert (str + rest)[|str|..] == rest;
    assert ParseStr(body) == Some((JStr(str), rest));
  }

  lemma {:induction false} ParseEncodedArr(items: seq<Json>, rest: string)
    ensures ParseValue(Encode(JArr(items)) + rest) == Some((JArr(items), rest))
    decreases items, 1
  {
    var body := EncodeNat(|items|) + (EncodeItems(items) + rest);
    assert Encode(JArr(items)) + rest == "a" + body;
    ParseEncodedNat(|items|, EncodeItems(items) + rest);
    ParseEncodedItems(items, rest);
    assert ParseArr(body) == Some((JArr(items), rest));
  }

  lemma {:induction false} ParseEncodedObj(members: seq<Member>, rest: string)
    ensures ParseValue(Encode(JObj(members)) + rest) == Some((JObj(members), rest))
    decreases members, 1
  {
    var body := EncodeNat(|members|) + (EncodeMembers(members) + rest);
    assert Encode(JObj(members)) + rest == "o" + body;
    ParseEncodedNat(|members|, EncodeMembers(members) + rest);
    ParseEncodedMembers(members, rest);
    assert ParseObj(body) == Some((JObj(members), rest));
  }

  lemma {:induction false} ParseEncodedItems(items: seq<Json>, rest: string)
    ensures ParseItems(|items|, EncodeItems(items) + rest) == Some((items, rest))
    decreases items, 0
  {
    if items != [] {
      var tail := EncodeItems(items[1..]) + rest;
      var s := Encode(items[0]) + tail;
      assert EncodeItems(items) + rest == s;
      ParseEncoded(items[0], tail);
      assert ParseValue(s) == Some((items[0], tail));
      ParseEncodedItems(items[1..], rest);
      assert ParseItems(|items| - 1, tail) == Some((items[1..], rest));
      assert [items[0]] + items[1..] == items;
      assert ParseItems(|items|, s) == Some(([items[0]] + items[1..], rest));
    } else {
      assert EncodeItems(items) + rest == rest;
    }
  }

  lemma {:induction false} ParseEncodedMembers(members: seq<Member>, rest: string)
    ensures ParseMembers(|members|, EncodeMembers(members) + rest) == Some((members, rest))
    decreases members, 0
  {
    if members != [] {
      var m := members[0];
      var tail := EncodeMembers(members[1..]) + rest;
      var afterLen := m.key + (Encode(m.value) + tail);
      var s := EncodeNat(|m.key|) + afterLen;
      assert EncodeMembers(members) + rest == s;
      ParseEncodedNat(|m.key|, afterLen);
      assert afterLen[..|m.key|] == m.key;
      assert afterLen[|m.key|..] == Encode(m.value) + tail;
      ParseEncoded(m.value, tail);
      ParseEncodedMembers(members[1..], rest);
      assert ParseMembers(|members| - 1, tail) == Some((members[1..], rest));
      assert [Member(m.key, m.value)] + members[1..] == members;
      assert ParseMembers(|members|, s) == Some(([Member(m.key, m.value)] + members[1..], rest));
    } else {
      assert EncodeMembers(members) + rest == rest;
    }
  }

  /** `JSON.parse(JSON.stringify(v))` gives back `v`, and the text is never empty. */
  lemma RoundTrip(v: Json)
    ensures Decode(Encode(v)) == Some(v)
    ensures Encode(v) != ""
  {
    ParseEncoded(v, "");
    assert Encode(v) + "" == Encode(v);
  }

  /** Distinct values are written as distinct texts. */
  lemma EncodeInjective(v: Json, w: Json)
    requires Encode(v) == Encode(w)
    ensures v == w
  {
    RoundTrip(v);
    RoundTrip(w);
  }
}
