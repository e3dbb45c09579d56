/**
 * MongoDB object identifiers as the driver parses them from text.
 *
 * An ObjectID is twelve bytes, written as 24 hexadecimal digits; the driver's
 * parser accepts upper- and lower-case digits alike. The model keys records by
 * the lower-case spelling, which is in one-to-one correspondence with the bytes,
 * so two spellings that differ only in case denote the same record.
 */
module ObjectId {
  import opened Wrappers

  /** The canonical (lower-case hex) spelling of an object identifier. */
  type ObjectID = string

  predicate IsHexDigit(c: char)
  {
    '0' <= c <= '9' || 'a' <= c <= 'f' || 'A' <= c <= 'F'
  }

  predicate IsLowerHexDigit(c: char)
  {
    '0' <= c <= '9' || 'a' <= c <= 'f'
  }

  /** A string the driver accepts as an ObjectID: exactly 24 hex digits. */
  predicate IsObjectIDHex(s: string)
  {
    |s| == 24 && forall i :: 0 <= i < |s| ==> IsHexDigit(s[i])
  }

  function LowerHexDigit(c: char): (d: char)
    requires IsHexDigit(c)
    ensures IsLowerHexDigit(d)
    ensures IsLowerHexDigit(c) ==> d == c
  {
    if 'A' <= c <= 'F' then (c as int - 'A' as int + 'a' as int) as char else c
  }

  /** The identifier a string denotes, or None when the driver rejects it. */
  function ObjectIDFromHex(s: string): (r: Option<ObjectID>)
    ensures r.Some? <==> IsObjectIDHex(s)
    ensures r.Some? ==> |r.value| == 24 && forall i :: 0 <= i < 24 ==> IsLowerHexDigit(r.value[i])
    ensures r.Some? ==> forall i :: 0 <= i < 24 ==> r.value[i] == LowerHexDigit(s[i])
  {
    if IsObjectIDHex(s) then Some(seq(|s|, i requires 0 <= i < |s| => LowerHexDigit(s[i])))
    else None
  }

  /** Parsing a canonical spelling gives it back: the key is a fixed point of parsing. */
  lemma CanonicalIsFixedPoint(s: string)
    requires IsObjectIDHex(s)
    ensures ObjectIDFromHex(ObjectIDFromHex(s).value) == ObjectIDFromHex(s)
  {
    CanonicalIsItsOwnId(ObjectIDFromHex(s).value);
  }

  /** Two spellings whose digits agree up to case denote the same identifier. */
  lemma SpellingsUpToCaseAgree(s: string, t: string)
    requires IsObjectIDHex(s) && IsObjectIDHex(t)
    requires forall i :: 0 <= i < 24 ==> LowerHexDigit(s[i]) == LowerHexDigit(t[i])
    ensures ObjectIDFromHex(s) == ObjectIDFromHex(t)
  {
    assert ObjectIDFromHex(s).value == ObjectIDFromHex(t).value;
  }

  /** A string of 24 lower-case hex digits is the identifier it spells. */
  lemma CanonicalIsItsOwnId(s: string)
    requires |s| == 24 && forall i :: 0 <= i < 24 ==> IsLowerHexDigit(s[i])
    ensures ObjectIDFromHex(s) == Some(s)
  {
    assert ObjectIDFromHex(s).value == s;
  }
}
