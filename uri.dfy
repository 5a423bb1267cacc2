/** `encodeURIComponent` and the reading of query parameters out of a URL,
    enough to follow a value placed in an authorization URL to the party
    that reads it back. */
module Uri {
  import opened Text

  /** The characters `encodeURIComponent` leaves as they are. */
  predicate IsUnreserved(c: char)
  {
    ('A' <= c <= 'Z') || ('a' <= c <= 'z') || ('0' <= c <= '9') ||
    c == '-' || c == '_' || c == '.' || c == '!' || c == '~' || c == '*' ||
    c == '\'' || c == '(' || c == ')'
  }

  function HexDigit(n: nat): (c: char)
    requires n < 16
    ensures IsUnreserved(c)
  {
    "0123456789ABCDEF"[n]
  }

  /** `%XX` with upper-case hex digits. */
  function PercentByte(b: nat): (r: string)
    requires b < 256
    ensures |r| == 3 && r[0] == '%' && IsUnreserved(r[1]) && IsUnreserved(r[2])
  {
    ['%', HexDigit(b / 16), HexDigit(b % 16)]
  }

  /** The UTF-8 bytes of a Unicode scalar value. */
  function Utf8(n: nat): (bytes: seq<nat>)
    requires n < 0x11_0000
    ensures 1 <= |bytes| <= 4
    ensures forall k :: 0 <= k < |bytes| ==> bytes[k] < 256
  {
    if n < 0x80 then [n]
    else if n < 0x800 then [0xC0 + n / 0x40, 0x80 + n % 0x40]
    else if n < 0x1_0000 then [0xE0 + n / 0x1000, 0x80 + (n / 0x40) % 0x40, 0x80 + n % 0x40]
    else [0xF0 + n / 0x4_0000, 0x80 + (n / 0x1000) % 0x40, 0x80 + (n / 0x40) % 0x40, 0x80 + n % 0x40]
  }

  function PercentBytes(bytes: seq<nat>): (r: string)
    requires forall k :: 0 <= k < |bytes| ==> bytes[k] < 256
    ensures |r| == 3 * |bytes|
    ensures forall k :: 0 <= k < |r| ==> IsUnreserved(r[k]) || r[k] == '%'
  {
    if bytes == [] then ""
    else
      var rest := PercentBytes(bytes[1..]);
      var r := PercentByte(bytes[0]) + rest;
      assert forall k :: 3 <= k < |r| ==> r[k] == rest[k - 3];
      r
  }

  function EncodeChar(c: char): (r: string)
    ensures 1 <= |r|
    ensures forall k :: 0 <= k < |r| ==> IsUnreserved(r[k]) || r[k] == '%'
    ensures IsUnreserved(c) ==> r == [c]
  {
    if IsUnreserved(c) then [c] else PercentBytes(Utf8(c as int))
  }

  /** The concatenation of `parts`, in order. */
  function Flatten(parts: seq<string>): string
  {
    if parts == [] then "" else parts[0] + Flatten(parts[1..])
  }

  /** A flattening holds only characters that some part holds. */
  lemma {:induction false} FlattenKeeps(parts: seq<string>)
    requires forall i, k :: 0 <= i < |parts| && 0 <= k < |parts[i]| ==> IsUnreserved(parts[i][k]) || parts[i][k] == '%'
    ensures forall k :: 0 <= k < |Flatten(parts)| ==> IsUnreserved(Flatten(parts)[k]) || Flatten(parts)[k] == '%'
  {
    if parts != [] {
      FlattenKeeps(parts[1..]);
      var r := Flatten(parts);
      assert forall k :: |parts[0]| <= k < |r| ==> r[k] == Flatten(parts[1..])[k - |parts[0]|];
      assert forall k :: 0 <= k < |parts[0]| ==> r[k] == parts[0][k];
    }
  }

  /** Flattening one-character parts gives back the characters. */
  lemma {:induction false} FlattenSingletons(parts: seq<string>, s: string)
    requires |parts| == |s| && forall i :: 0 <= i < |s| ==> parts[i] == [s[i]]
    ensures Flatten(parts) == s
  {
    if parts != [] {
      FlattenSingletons(parts[1..], s[1..]);
      assert [s[0]] + s[1..] == s;
    }
  }

  /** `encodeURIComponent(s)`: unreserved characters as they are, every other
      character as the percent-escapes of its UTF-8 bytes. The result holds
      no character other than unreserved ones and `%`, so in particular no
      `&`, `=`, `#` or `?`. */
  function EncodeUriComponent(s: string): (r: string)
    ensures forall k :: 0 <= k < |r| ==> IsUnreserved(r[k]) || r[k] == '%'
    ensures (forall k :: 0 <= k < |s| ==> IsUnreserved(s[k])) ==> r == s
  {
    var parts := seq(|s|, i requires 0 <= i < |s| => EncodeChar(s[i]));
    FlattenKeeps(parts);
    if forall k :: 0 <= k < |s| ==> IsUnreserved(s[k]) then
      FlattenSingletons(parts, s);
      Flatten(parts)
    else
      Flatten(parts)
  }

  /** The part of `s` before the first `c` (all of `s` when there is none). */
  function Before(s: string, c: char): (r: string)
    ensures |r| <= |s| && r == s[..|r|] && c !in r
    ensures |r| < |s| ==> s[|r|] == c
  {
    if s == [] || s[0] == c then "" else [s[0]] + Before(s[1..], c)
  }

  /** The part of `s` after the first `c` (empty when there is none). */
  function After(s: string, c: char): string
  {
    var b := Before(s, c);
    if |b| < |s| then s[|b| + 1..] else ""
  }

  lemma {:induction false} BeforeSplit(p: string, c: char, t: string)
    requires c !in p
    ensures Before(p + [c] + t, c) == p
    ensures After(p + [c] + t, c) == t
  {
    if p == [] {
      assert p + [c] + t == [c] + t;
    } else {
      assert (p + [c] + t)[1..] == p[1..] + [c] + t;
      BeforeSplit(p[1..], c, t);
      assert [p[0]] + p[1..] == p;
    }
  }

  lemma {:induction false} BeforeAbsent(s: string, c: char)
    requires c !in s
    ensures Before(s, c) == s
  {
    if s != [] {
      BeforeAbsent(s[1..], c);
      assert [s[0]] + s[1..] == s;
    }
  }

  /** The query of a URL: after the first `?` of the part before the fragment. */
  function QueryOf(url: string): string
  {
    After(Before(url, '#'), '?')
  }

  /** The values, undecoded and in order, of the `&`-separated pieces of
      `pieces` named `key` (a piece's name is what precedes its first `=`). */
  function ValuesNamed(pieces: seq<string>, key: string): seq<string>
  {
    if pieces == [] then []
    else (if Before(pieces[0], '=') == key then [After(pieces[0], '=')] else [])
         + ValuesNamed(pieces[1..], key)
  }

  /** All raw values the query of `url` gives to parameter `key`. For values
      holding neither `%` nor `+`, percent-decoding leaves them unchanged. */
  function QueryValues(url: string, key: string): seq<string>
  {
    ValuesNamed(Split(QueryOf(url), '&'), key)
  }
}
