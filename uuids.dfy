/**
 * The 128-bit identifier of an environment, as the `uuid` crate presents it:
 * `to_string` gives the lower-case hyphenated form, and `parse_str` accepts the
 * simple (32 hex digits), hyphenated (8-4-4-4-12), braced (`{...}`) and URN
 * (`urn:uuid:...`) forms, with hex digits in either case.
 */
module Uuids {
  import opened Wrappers

  /** One hex digit's worth of the identifier. */
  newtype Nibble = x: int | 0 <= x < 16

  /** An identifier is 32 nibbles, most significant first. */
  type Uuid = s: seq<Nibble> | |s| == 32 witness seq(32, _ => 0 as Nibble)

  const HexDigits: string := "0123456789abcdef"

  /** The lower-case digit for a nibble. */
  function HexChar(n: Nibble): char
  {
    HexDigits[n]
  }

  /** The value of a hex digit in either case, or None for any other character. */
  function HexValue(c: char): (r: Option<Nibble>)
  {
    if '0' <= c <= '9' then Some((c - '0') as Nibble)
    else if 'a' <= c <= 'f' then Some((c - 'a' + 10 as char) as Nibble)
    else if 'A' <= c <= 'F' then Some((c - 'A' + 10 as char) as Nibble)
    else None
  }

  lemma HexValueOfHexChar(n: Nibble)
    ensures HexValue(HexChar(n)) == Some(n)
  {
  }

  /** The digits of a run of nibbles. */
  function Hex(ns: seq<Nibble>): (s: string)
    ensures |s| == |ns|
  {
    seq(|ns|, i requires 0 <= i < |ns| => HexChar(ns[i]))
  }

  /** The nibbles that a run of hex digits spells, or None if some character is not a hex digit. */
  function ParseHex(s: string): (r: Option<seq<Nibble>>)
    ensures r.Some? ==> |r.value| == |s|
  {
    if s == [] then Some([])
    else match HexValue(s[0])
      case None => None
      case Some(n) =>
        match ParseHex(s[1..])
        case None => None
        case Some(t) => Some([n] + t)
  }

  lemma {:induction false} ParseHexOfHex(ns: seq<Nibble>)
    ensures ParseHex(Hex(ns)) == Some(ns)
  {
    if ns != [] {
      var s := Hex(ns);
      assert s[1..] == Hex(ns[1..]);
      HexValueOfHexChar(ns[0]);
      ParseHexOfHex(ns[1..]);
      assert [ns[0]] + ns[1..] == ns;
    }
  }

  /** The positions of the four hyphens in the hyphenated form. */
  predicate IsHyphenPosition(i: int)
  {
    i == 8 || i == 13 || i == 18 || i == 23
  }

  /** The nibble shown at position `i` of the hyphenated form: `i` less the hyphens before it. */
  function NibbleIndex(i: int): int
  {
    if i < 8 then i else if i < 13 then i - 1 else if i < 18 then i - 2 else if i < 23 then i - 3 else i - 4
  }

  /** `Uuid::to_string`: the lower-case hyphenated form, groups of 8, 4, 4, 4 and 12 digits. */
  function ToString(u: Uuid): (s: string)
    ensures |s| == 36
    ensures s[8] == '-' && s[13] == '-' && s[18] == '-' && s[23] == '-'
  {
    seq(36, i requires 0 <= i < 36 => if IsHyphenPosition(i) then '-' else HexChar(u[NibbleIndex(i)]))
  }

  /** The hyphenated form: hyphens at positions 8, 13, 18 and 23 and hex digits everywhere else. */
  function ParseHyphenated(s: string): (r: Option<Uuid>)
    requires |s| == 36
  {
    if s[8] == '-' && s[13] == '-' && s[18] == '-' && s[23] == '-' then
      match ParseHex(s[0..8] + s[9..13] + s[14..18] + s[19..23] + s[24..36])
      case None => None
      case Some(ns) => Some(ns)
    else None
  }

  /** `Uuid::parse_str`, which dispatches on the length of its input. */
  function Parse(s: string): (r: Option<Uuid>)
    ensures r.Some? ==> |s| == 32 || |s| == 36 || |s| == 38 || |s| == 45
  {
    if |s| == 32 then
      match ParseHex(s)
      case None => None
      case Some(ns) => Some(ns)
    else if |s| == 36 then ParseHyphenated(s)
    else if |s| == 38 && s[0] == '{' && s[37] == '}' then ParseHyphenated(s[1..37])
    else if |s| == 45 && s[..9] == "urn:uuid:" then ParseHyphenated(s[9..])
    else None
  }

  /** The canonical text of an identifier parses back to that identifier. */
  lemma ParseToString(u: Uuid)
    ensures Parse(ToString(u)) == Some(u)
  {
    var s := ToString(u);
    var digits := s[0..8] + s[9..13] + s[14..18] + s[19..23] + s[24..36];
    assert |digits| == 32;
    forall k | 0 <= k < 32
      ensures digits[k] == HexChar(u[k])
    {
      if k < 8 { assert digits[k] == s[k]; }
      else if k < 12 { assert digits[k] == s[k + 1]; }
      else if k < 16 { assert digits[k] == s[k + 2]; }
      else if k < 20 { assert digits[k] == s[k + 3]; }
      else { assert digits[k] == s[k + 4]; }
    }
    assert digits == Hex(u);
    ParseHexOfHex(u);
  }

  /** Distinct identifiers have distinct texts, so comparing texts compares identifiers. */
  lemma ToStringInjective(u: Uuid, v: Uuid)
    ensures ToString(u) == ToString(v) ==> u == v
  {
    ParseToString(u);
    ParseToString(v);
  }
}
