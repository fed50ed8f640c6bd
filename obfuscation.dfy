/** `Email::obfuscate`: three encodings that hide an address from harvesters while
    a reader (or a browser) still sees it. PHP strings are byte strings, so the
    address is a sequence of characters below 256, one per byte. */
module Obfuscation {
  import opened Wrappers

  type Byte = c: char | c as int < 256

  /** The opening and closing markup of the `direction` encoding. */
  const DirectionOpen := "<span class=\"codedirection\">"
  const DirectionClose := "</span>"

  // ----- 'direction': reversal, undone by the browser's right-to-left rendering

  /** `strrev`: the bytes of `s` in reverse order. */
  function Reverse<T>(s: seq<T>): (r: seq<T>)
    ensures |r| == |s|
    ensures forall i :: 0 <= i < |s| ==> r[i] == s[|s| - 1 - i]
  {
    if s == [] then [] else Reverse(s[1..]) + [s[0]]
  }

  lemma ReverseReverse<T>(s: seq<T>)
    ensures Reverse(Reverse(s)) == s
  {
  }

  /** The `direction` encoding: the reversed address inside a span that the
      `codedirection` style renders right to left. Reading the span's text back to
      front gives the address again. */
  function Direction(email: seq<Byte>): (r: string)
    ensures |r| == |DirectionOpen| + |email| + |DirectionClose|
    ensures r[..|DirectionOpen|] == DirectionOpen
    ensures r[|DirectionOpen| + |email|..] == DirectionClose
    ensures Reverse(r[|DirectionOpen|..|DirectionOpen| + |email|]) == email
  {
    var r := DirectionOpen + Reverse(email) + DirectionClose;
    assert r[|DirectionOpen|..|DirectionOpen| + |email|] == Reverse(email);
    ReverseReverse(email);
    r
  }

  // ----- 'visible': spelled-out punctuation

  /** The characters that the `visible` encoding spells out. */
  predicate IsMarker(c: char) {
    c == '@' || c == '.' || c == '-'
  }

  /** `strtr` with the table '@' => " [at] ", '.' => " [dot] ", '-' => " [dash] ",
      applied to one byte: every key is a single byte, so the substitution is
      per byte and a replacement is never scanned again. */
  function VisibleByte(c: Byte): string {
    if c == '@' then " [at] "
    else if c == '.' then " [dot] "
    else if c == '-' then " [dash] "
    else [c]
  }

  /** The `visible` encoding. '@' is spelled " [at] ", '.' " [dot] " and '-'
      " [dash] "; no '@', '.' or '-' survives it, and an address without any of
      them comes back unchanged. */
  function Visible(email: seq<Byte>): (r: string)
    ensures forall i :: 0 <= i < |r| ==> !IsMarker(r[i])
    ensures (forall i :: 0 <= i < |email| ==> !IsMarker(email[i])) ==> r == email
    ensures email == ['@'] ==> r == " [at] "
    ensures email == ['.'] ==> r == " [dot] "
    ensures email == ['-'] ==> r == " [dash] "
  {
    if email == [] then ""
    else
      var rest := Visible(email[1..]);
      assert forall i :: 1 <= i < |email| ==> email[1..][i - 1] == email[i];
      VisibleByte(email[0]) + rest
  }

  /** The substitution works byte by byte: encoding a concatenation encodes its
      parts independently. */
  lemma {:induction false} VisibleConcat(a: seq<Byte>, b: seq<Byte>)
    ensures Visible(a + b) == Visible(a) + Visible(b)
  {
    if a == [] {
      assert a + b == b;
    } else {
      assert (a + b)[1..] == a[1..] + b;
      VisibleConcat(a[1..], b);
    }
  }

  /** Each marker inside an address is replaced in place by its spelled-out form,
      and the text on either side is encoded independently. */
  lemma {:induction false} VisibleSpellsOut(a: seq<Byte>, b: seq<Byte>)
    ensures Visible(a + ['@'] + b) == Visible(a) + " [at] " + Visible(b)
    ensures Visible(a + ['.'] + b) == Visible(a) + " [dot] " + Visible(b)
    ensures Visible(a + ['-'] + b) == Visible(a) + " [dash] " + Visible(b)
  {
    VisibleConcat(a, ['@']);
    VisibleConcat(a + ['@'], b);
    VisibleConcat(a, ['.']);
    VisibleConcat(a + ['.'], b);
    VisibleConcat(a, ['-']);
    VisibleConcat(a + ['-'], b);
  }

  // ----- 'hex': one HTML character reference per byte

  /** The lower-case hexadecimal digit `bin2hex` writes for `n`. */
  function HexDigit(n: nat): (c: char)
    requires n < 16
  {
    if n < 10 then ('0' as int + n) as char else ('a' as int + n - 10) as char
  }

  /** The digit value of a lower-case hexadecimal digit, the inverse of `HexDigit`. */
  function DigitValue(c: char): (r: Option<nat>)
    ensures r.Some? ==> r.value < 16 && HexDigit(r.value) == c
  {
    if '0' <= c <= '9' then Some(c as int - '0' as int)
    else if 'a' <= c <= 'f' then Some(c as int - 'a' as int + 10)
    else None
  }

  lemma DigitValueOfHexDigit(n: nat)
    requires n < 16
    ensures DigitValue(HexDigit(n)) == Some(n)
  {
  }

  /** `'&#x' . bin2hex($b) . ';'`: six characters per byte, `&#x`, the byte's high
      and low lower-case hexadecimal digits, and `;`. */
  function Entity(b: Byte): (r: string)
    ensures |r| == 6
    ensures r[..3] == "&#x" && r[5] == ';'
    ensures DigitValue(r[3]) == Some(b as int / 16) && DigitValue(r[4]) == Some(b as int % 16)
  {
    DigitValueOfHexDigit(b as int / 16);
    DigitValueOfHexDigit(b as int % 16);
    "&#x" + [HexDigit(b as int / 16), HexDigit(b as int % 16)] + ";"
  }

  /** The `hex` encoding: the entities of the bytes, in order. */
  function HexEncoding(email: seq<Byte>): (r: string)
    ensures |r| == 6 * |email|
  {
    if email == [] then "" else Entity(email[0]) + HexEncoding(email[1..])
  }

  /** Byte `i` of the address becomes characters `6 * i` to `6 * i + 5` of the
      encoding: `&#x`, its two hexadecimal digits and `;`. */
  lemma {:induction false} HexEncodingAt(email: seq<Byte>, i: nat)
    requires i < |email|
    ensures HexEncoding(email)[6 * i..6 * i + 6] == Entity(email[i])
  {
    var s := HexEncoding(email);
    assert s == Entity(email[0]) + HexEncoding(email[1..]);
    if i > 0 {
      HexEncodingAt(email[1..], i - 1);
      assert s[6 * i..6 * i + 6] == HexEncoding(email[1..])[6 * (i - 1)..6 * (i - 1) + 6];
    }
  }

  /** Reads a `hex` encoding back: a run of `&#xHH;` references with lower-case
      digits, or None for anything else. */
  function HexDecoding(s: string): (r: Option<seq<Byte>>)
    decreases |s|
  {
    if s == [] then Some([])
    else if |s| < 6 || s[..3] != "&#x" || s[5] != ';' then None
    else
      match (DigitValue(s[3]), DigitValue(s[4]), HexDecoding(s[6..]))
      case (Some(hi), Some(lo), Some(rest)) => Some([(hi * 16 + lo) as char] + rest)
      case _ => None
  }

  /** Appending a byte appends its entity: the step of the encoding loop. */
  lemma {:induction false} HexEncodingAppend(email: seq<Byte>, b: Byte)
    ensures HexEncoding(email + [b]) == HexEncoding(email) + Entity(b)
  {
    if email == [] {
      assert email + [b] == [b];
    } else {
      assert (email + [b])[1..] == email[1..] + [b];
      HexEncodingAppend(email[1..], b);
    }
  }

  /** The `hex` encoding loses nothing: decoding it gives the address back. */
  lemma {:induction false} HexRoundTrip(email: seq<Byte>)
    ensures HexDecoding(HexEncoding(email)) == Some(email)
  {
    if email != [] {
      var b := email[0];
      var s := HexEncoding(email);
      var e := Entity(b);
      assert s == e + HexEncoding(email[1..]);
      assert s[..3] == "&#x" && s[5] == ';';
      assert s[3] == HexDigit(b as int / 16) && s[4] == HexDigit(b as int % 16);
      DigitValueOfHexDigit(b as int / 16);
      DigitValueOfHexDigit(b as int % 16);
      assert s[6..] == HexEncoding(email[1..]);
      HexRoundTrip(email[1..]);
      assert DigitValue(s[3]) == Some(b as int / 16) && DigitValue(s[4]) == Some(b as int % 16);
      assert ((b as int / 16) * 16 + b as int % 16) as char == b;
      assert HexDecoding(s) == Some([b] + email[1..]);
      assert [b] + email[1..] == email;
    }
  }

  /** The `hex` branch: a loop that appends one entity per byte. */
  method Hex(email: seq<Byte>) returns (encoded: string)
    ensures encoded == HexEncoding(email)
  {
    encoded := "";
    for x := 0 to |email|
      invariant encoded == HexEncoding(email[..x])
    {
      assert email[..x + 1] == email[..x] + [email[x]];
      HexEncodingAppend(email[..x], email[x]);
      encoded := encoded + Entity(email[x]);
    }
    assert email[..|email|] == email;
  }

  /** `Email::obfuscate($email, $method)`, with 'visible' as the default method.
      An unknown method raises a notice (not modelled) and returns the address
      unchanged. */
  method Obfuscate(email: seq<Byte>, encoding: string := "visible") returns (r: string)
    ensures encoding == "direction" ==> r == Direction(email)
    ensures encoding == "visible" ==> r == Visible(email)
    ensures encoding == "hex" ==> r == HexEncoding(email) && HexDecoding(r) == Some(email)
    ensures encoding != "direction" && encoding != "visible" && encoding != "hex" ==> r == email
  {
    if encoding == "direction" {
      r := Direction(email);
    } else if encoding == "visible" {
      r := Visible(email);
    } else if encoding == "hex" {
      r := Hex(email);
      HexRoundTrip(email);
    } else {
      r := email;
    }
  }
}
