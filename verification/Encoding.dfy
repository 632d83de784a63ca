/**
 The texts and byte strings that other modules treat as terms: base64 keys, `dh:n` names of skipped
 keys, `user:device` names of outbound sessions, and the concatenated input of X3DH.
 */
module Encoding {
  import opened Wrappers
  import opened Storage

  // ---------------------------------------------------------------- base64, section 4 of RFC 4648

  type Sextet = x: int | 0 <= x < 64

  function Digit(d: Sextet): char {
    if d < 26 then ('A' as int + d) as char
    else if d < 52 then ('a' as int + d - 26) as char
    else if d < 62 then ('0' as int + d - 52) as char
    else if d == 62 then '+' else '/'
  }

  function DigitValue(c: char): Option<Sextet> {
    if 'A' <= c <= 'Z' then Some(c as int - 'A' as int)
    else if 'a' <= c <= 'z' then Some(c as int - 'a' as int + 26)
    else if '0' <= c <= '9' then Some(c as int - '0' as int + 52)
    else if c == '+' then Some(62) else if c == '/' then Some(63) else None
  }

  function ToBase64(bytes: seq<Byte>): string {
    if bytes == [] then ""
    else if |bytes| == 1 then
      [Digit(bytes[0] / 4), Digit(bytes[0] % 4 * 16), '=', '=']
    else if |bytes| == 2 then
      [Digit(bytes[0] / 4), Digit(bytes[0] % 4 * 16 + bytes[1] / 16), Digit(bytes[1] % 16 * 4), '=']
    else
      [Digit(bytes[0] / 4), Digit(bytes[0] % 4 * 16 + bytes[1] / 16), Digit(bytes[1] % 16 * 4 + bytes[2] / 64),
       Digit(bytes[2] % 64)]
      + ToBase64(bytes[3..])
  }

  /** Texts whose length is no multiple of four or that hold other characters do not decode. */
  function FromBase64(text: string): Option<seq<Byte>> {
    if text == "" then Some([])
    else if |text| < 4 then None
    else
      var a, b, c, d := DigitValue(text[0]), DigitValue(text[1]), DigitValue(text[2]), DigitValue(text[3]);
      if a.None? || b.None? then None
      else
        var first := (a.value * 4 + b.value / 16) % 256;
        if text[2..] == "==" then Some([first])
        else if c.None? then None
        else
          var second := (b.value % 16 * 16 + c.value / 4) % 256;
          if text[3..] == "=" then Some([first, second])
          else if d.None? then None
          else
            var rest := FromBase64(text[4..]);
            if rest.None? then None else Some([first, second, (c.value % 4 * 64 + d.value) % 256] + rest.value)
  }

  lemma DigitRoundTrip(d: Sextet)
    ensures DigitValue(Digit(d)) == Some(d) && Digit(d) != ':' && Digit(d) != '='
  {
  }

  /** Three bytes are recovered from their four sextets. */
  lemma SextetsPack(x: Byte, y: Byte, z: Byte)
    ensures (x / 4 * 4 + (x % 4 * 16 + y / 16) / 16) % 256 == x
    ensures ((x % 4 * 16 + y / 16) % 16 * 16 + (y % 16 * 4 + z / 64) / 4) % 256 == y
    ensures ((y % 16 * 4 + z / 64) % 4 * 64 + z % 64) % 256 == z
  {
  }

  lemma OneByteRoundTrip(x: Byte)
    ensures FromBase64(ToBase64([x])) == Some([x])
  {
    hide Digit, DigitValue;
    DigitRoundTrip(x / 4);
    DigitRoundTrip(x % 4 * 16);
    SextetsPack(x, 0, 0);
    assert ToBase64([x])[2..] == "==";
  }

  lemma TwoBytesRoundTrip(x: Byte, y: Byte)
    ensures FromBase64(ToBase64([x, y])) == Some([x, y])
  {
    hide Digit, DigitValue;
    DigitRoundTrip(x / 4);
    DigitRoundTrip(x % 4 * 16 + y / 16);
    DigitRoundTrip(y % 16 * 4);
    SextetsPack(x, y, 0);
    var text := ToBase64([x, y]);
    assert text[3..] == "=";
    assert text[2..][0] != '=';
  }

  lemma DecodeGroup(text: string, rest: seq<Byte>)
    requires |text| >= 4 && text[2] != '=' && text[3] != '='
    requires forall i :: 0 <= i < 4 ==> DigitValue(text[i]).Some?
    requires FromBase64(text[4..]) == Some(rest)
    ensures var a, b, c, d := DigitValue(text[0]).value, DigitValue(text[1]).value, DigitValue(text[2]).value,
                              DigitValue(text[3]).value;
            FromBase64(text)
              == Some([(a * 4 + b / 16) % 256, (b % 16 * 16 + c / 4) % 256, (c % 4 * 64 + d) % 256] + rest)
  {
    hide DigitValue;
    assert text[2..][0] != '=' && text[3..][0] != '=';
  }

  lemma GroupRoundTrip(x: Byte, y: Byte, z: Byte, rest: seq<Byte>)
    requires FromBase64(ToBase64(rest)) == Some(rest)
    ensures FromBase64(ToBase64([x, y, z] + rest)) == Some([x, y, z] + rest)
  {
    hide Digit, DigitValue;
    DigitRoundTrip(x / 4);
    DigitRoundTrip(x % 4 * 16 + y / 16);
    DigitRoundTrip(y % 16 * 4 + z / 64);
    DigitRoundTrip(z % 64);
    SextetsPack(x, y, z);
    assert ([x, y, z] + rest)[3..] == rest;
    var text := ToBase64([x, y, z] + rest);
    assert text[4..] == ToBase64(rest);
    assert text == [Digit(x / 4), Digit(x % 4 * 16 + y / 16), Digit(y % 16 * 4 + z / 64), Digit(z % 64)]
      + ToBase64(rest);
    hide ToBase64, FromBase64;
    DecodeGroup(text, rest);
  }

  lemma {:induction false} Base64RoundTrip(bytes: seq<Byte>)
    ensures FromBase64(ToBase64(bytes)) == Some(bytes)
  {
    if |bytes| > 2 {
      Base64RoundTrip(bytes[3..]);
      GroupRoundTrip(bytes[0], bytes[1], bytes[2], bytes[3..]);
    }
    if |bytes| == 2 {
      TwoBytesRoundTrip(bytes[0], bytes[1]);
    }
    if |bytes| == 1 {
      OneByteRoundTrip(bytes[0]);
    }
    EmptyRoundTrip();
    hide FromBase64, ToBase64;
    assert |bytes| == 1 ==> bytes == [bytes[0]];
    assert |bytes| == 2 ==> bytes == [bytes[0], bytes[1]];
    assert |bytes| > 2 ==> bytes == [bytes[0], bytes[1], bytes[2]] + bytes[3..];
  }

  lemma EmptyRoundTrip()
    ensures FromBase64(ToBase64([])) == Some([])
  {
  }

  /** Examples of section 10 of RFC 4648: one, two and three bytes, and two groups. */
  lemma Base64Examples()
    ensures ToBase64([102]) == "Zg==" && ToBase64([102, 111]) == "Zm8="
    ensures ToBase64([102, 111, 111]) == "Zm9v" && ToBase64([102, 111, 111, 98, 97, 114]) == "Zm9vYmFy"
  {
    assert ToBase64([98, 97, 114]) == "YmFy" by {
      assert [98 as Byte, 97, 114][3..] == [];
    }
    assert [102 as Byte, 111, 111][3..] == [];
    assert [102 as Byte, 111, 111, 98, 97, 114][3..] == [98, 97, 114];
  }

  predicate NoColon(text: string) {
    ':' !in text
  }

  lemma {:induction false} Base64HasNoColon(bytes: seq<Byte>)
    ensures NoColon(ToBase64(bytes))
  {
    if |bytes| > 2 {
      Base64HasNoColon(bytes[3..]);
    }
  }

  // ---------------------------------------------------------------- names

  function Decimal(n: nat): string {
    (if n < 10 then [] else Decimal(n / 10)) + [('0' as int + n % 10) as char]
  }

  lemma {:induction false} DecimalInjective(m: nat, n: nat)
    requires Decimal(m) == Decimal(n)
    ensures m == n
  {
    var s, t := Decimal(m), Decimal(n);
    assert s[|s| - 1] == t[|t| - 1];
    assert m % 10 == n % 10;
    assert s[..|s| - 1] == t[..|t| - 1];
    DecimalNonEmpty(m / 10);
    DecimalNonEmpty(n / 10);
    if m >= 10 && n >= 10 {
      DecimalInjective(m / 10, n / 10);
    }
  }

  /** The number that a text of decimal digits stands for. */
  function DecimalValue(text: string): int {
    if text == [] then 0
    else DecimalValue(text[..|text| - 1]) * 10 + (text[|text| - 1] as int - '0' as int)
  }

  /** The text is the decimal numeral of the number, without leading zeros. */
  lemma {:induction false} DecimalReadsBack(n: nat)
    ensures DecimalValue(Decimal(n)) == n && forall c :: c in Decimal(n) ==> '0' <= c <= '9'
    ensures Decimal(n) != [] && (Decimal(n)[0] == '0' ==> n == 0)
  {
    var text := Decimal(n);
    assert text[|text| - 1] as int == '0' as int + n % 10;
    if n >= 10 {
      DecimalReadsBack(n / 10);
      assert text[..|text| - 1] == Decimal(n / 10);
    } else {
      assert text[..|text| - 1] == [];
    }
  }

  lemma DecimalNonEmpty(n: nat)
    ensures |Decimal(n)| > 0
  {
  }

  /** The part before the first colon, and so the rest, is determined by the text. */
  lemma SplitAtColon(a: string, b: string, c: string, d: string)
    requires NoColon(a) && NoColon(c) && a + ":" + b == c + ":" + d
    ensures a == c && b == d
  {
    var text := a + ":" + b;
    assert text == c + ":" + d;
    assert text[|a|] == ':' && text[|c|] == ':';
    assert forall i :: 0 <= i < |a| ==> text[i] == a[i];
    assert forall i :: 0 <= i < |c| ==> text[i] == c[i];
    assert text[..|a|] == a && text[..|c|] == c;
    assert text[|a| + 1..] == b && text[|c| + 1..] == d;
  }

  function SkippedNameText(dh: seq<Byte>, n: nat): string {
    ToBase64(dh) + ":" + Decimal(n)
  }

  /** Equal texts `dh:n` mean equal ratchet keys and equal numbers. */
  lemma SkippedNamesDistinct(dh1: seq<Byte>, n1: nat, dh2: seq<Byte>, n2: nat)
    requires SkippedNameText(dh1, n1) == SkippedNameText(dh2, n2)
    ensures dh1 == dh2 && n1 == n2
  {
    Base64HasNoColon(dh1);
    Base64HasNoColon(dh2);
    SplitAtColon(ToBase64(dh1), Decimal(n1), ToBase64(dh2), Decimal(n2));
    DecimalInjective(n1, n2);
    Base64RoundTrip(dh1);
    Base64RoundTrip(dh2);
  }

  /** The keys of the sessions map: `user:device` for sending, the base64 identity key for receiving. */
  datatype SessionName = Outbound(user: string, device: nat) | Inbound(ik: seq<Byte>)

  /** User ids are UUID texts, which hold no colon. */
  predicate WellNamed(k: SessionName) {
    k.Outbound? ==> NoColon(k.user)
  }

  function SessionText(k: SessionName): string {
    match k
    case Outbound(user, device) => user + ":" + Decimal(device)
    case Inbound(ik) => ToBase64(ik)
  }

  lemma SessionNamesDistinct(k1: SessionName, k2: SessionName)
    requires WellNamed(k1) && WellNamed(k2) && SessionText(k1) == SessionText(k2)
    ensures k1 == k2
  {
    if k1.Outbound? && k2.Outbound? {
      SplitAtColon(k1.user, Decimal(k1.device), k2.user, Decimal(k2.device));
      DecimalInjective(k1.device, k2.device);
    } else if k1.Inbound? && k2.Inbound? {
      Base64RoundTrip(k1.ik);
      Base64RoundTrip(k2.ik);
    }
    OutboundHasColon(k1);
    OutboundHasColon(k2);
  }

  lemma OutboundHasColon(k: SessionName)
    ensures NoColon(SessionText(k)) <==> k.Inbound?
  {
    if k.Inbound? {
      Base64HasNoColon(k.ik);
    } else {
      assert SessionText(k)[|k.user|] == ':';
    }
  }

  /** `startsWith` */
  predicate StartsWith(text: string, prefix: string) {
    |prefix| <= |text| && text[..|prefix|] == prefix
  }

  /** The prefix `user:` picks exactly that user's outbound sessions. */
  lemma PrefixPicksOneUser(k: SessionName, user: string)
    requires WellNamed(k) && NoColon(user)
    ensures StartsWith(SessionText(k), user + ":") <==> k.Outbound? && k.user == user
  {
    var text, prefix := SessionText(k), user + ":";
    if StartsWith(text, prefix) {
      assert text == user + ":" + text[|prefix|..];
      assert text[|user|] == ':';
      OutboundHasColon(k);
      if k.Outbound? {
        SplitAtColon(k.user, Decimal(k.device), user, text[|prefix|..]);
      }
    }
    if k.Outbound? && k.user == user {
      assert text[..|prefix|] == prefix;
    }
  }

  // ---------------------------------------------------------------- byte strings

  /** arraysEqual */
  method ArraysEqual(a: array<Byte>, b: array<Byte>) returns (r: bool)
    ensures r <==> a[..] == b[..]
  {
    if a.Length != b.Length {
      assert |a[..]| != |b[..]|;
      return false;
    }
    for i := 0 to a.Length
      invariant a[..i] == b[..i]
    {
      if a[i] != b[i] {
        assert a[..][i] != b[..][i];
        return false;
      }
    }
    assert a[..] == a[..a.Length] && b[..] == b[..b.Length];
    return true;
  }

  function Flatten(arrays: seq<seq<Byte>>): seq<Byte> {
    if arrays == [] then [] else Flatten(arrays[..|arrays| - 1]) + arrays[|arrays| - 1]
  }

  function TotalLength(arrays: seq<seq<Byte>>): (n: nat)
    ensures n == |Flatten(arrays)|
  {
    if arrays == [] then 0 else TotalLength(arrays[..|arrays| - 1]) + |arrays[|arrays| - 1]|
  }

  lemma {:induction false} PrefixIsShorter(arrays: seq<seq<Byte>>, k: nat)
    requires k <= |arrays|
    ensures |Flatten(arrays[..k])| <= |Flatten(arrays)|
  {
    if k < |arrays| {
      PrefixIsShorter(arrays[..|arrays| - 1], k);
      assert arrays[..|arrays| - 1][..k] == arrays[..k];
    } else {
      assert arrays[..k] == arrays;
    }
  }

  /** concatBytes: one buffer of the total length, filled block by block. */
  method ConcatBytes(arrays: seq<seq<Byte>>) returns (out: array<Byte>)
    ensures fresh(out) && out[..] == Flatten(arrays)
  {
    out := new Byte[TotalLength(arrays)];
    var offset := 0;
    for k := 0 to |arrays|
      invariant offset == |Flatten(arrays[..k])| <= out.Length
      invariant out[..offset] == Flatten(arrays[..k])
    {
      assert arrays[..k + 1][..k] == arrays[..k];
      PrefixIsShorter(arrays, k + 1);
      forall i | 0 <= i < |arrays[k]| {
        out[offset + i] := arrays[k][i];
      }
      assert out[..offset + |arrays[k]|] == Flatten(arrays[..k]) + arrays[k];
      offset := offset + |arrays[k]|;
    }
    assert arrays[..|arrays|] == arrays;
    assert out[..] == out[..offset];
  }

  /** Lists of blocks of one positive length are determined by their concatenation, their number included. */
  lemma {:induction false} FlattenInjective(a: seq<seq<Byte>>, b: seq<seq<Byte>>, size: nat)
    requires size > 0 && (forall x :: x in a || x in b ==> |x| == size)
    requires Flatten(a) == Flatten(b)
    ensures a == b
  {
    if a != [] && b != [] {
      var x, y := a[|a| - 1], b[|b| - 1];
      var front := |Flatten(a)| - size;
      assert Flatten(a)[front..] == x && Flatten(b)[front..] == y;
      assert Flatten(a)[..front] == Flatten(a[..|a| - 1]);
      assert Flatten(b)[..front] == Flatten(b[..|b| - 1]);
      FlattenInjective(a[..|a| - 1], b[..|b| - 1], size);
      assert a == a[..|a| - 1] + [x] && b == b[..|b| - 1] + [y];
    }
  }

  // ---------------------------------------------------------------- safety numbers

  /** The order of `sort` on strings. */
  predicate AtMost(a: string, b: string) {
    a == [] || (b != [] && (a[0] < b[0] || (a[0] == b[0] && AtMost(a[1..], b[1..]))))
  }

  /** What computeFingerprint hashes: the two base64 keys in sorted order. */
  function FingerprintInput(mine: seq<Byte>, theirs: string): string {
    var my := ToBase64(mine);
    if AtMost(my, theirs) then my + theirs else theirs + my
  }

  lemma {:induction false} AtMostOrders(a: string, b: string)
    ensures AtMost(a, b) || AtMost(b, a)
    ensures AtMost(a, b) && AtMost(b, a) ==> a == b
  {
    if a != [] && b != [] && a[0] == b[0] {
      AtMostOrders(a[1..], b[1..]);
      assert a == [a[0]] + a[1..] && b == [b[0]] + b[1..];
    }
  }

  /** The hashed text is the two keys, the one that sorts first in front. */
  lemma FingerprintIsSorted(mine: seq<Byte>, theirs: string)
    ensures var my := ToBase64(mine);
            || (FingerprintInput(mine, theirs) == my + theirs && AtMost(my, theirs))
            || (FingerprintInput(mine, theirs) == theirs + my && AtMost(theirs, my))
  {
    AtMostOrders(ToBase64(mine), theirs);
  }

  lemma {:induction false} Base64Length(bytes: seq<Byte>)
    ensures |ToBase64(bytes)| == (|bytes| + 2) / 3 * 4
  {
    if |bytes| > 2 {
      Base64Length(bytes[3..]);
    }
  }

  /** For keys of one length, two pairs hash the same text exactly when they are the same pair. */
  lemma FingerprintAgreement(a: seq<Byte>, b: seq<Byte>, c: seq<Byte>, d: seq<Byte>)
    requires |a| == |b| == |c| == |d|
    ensures FingerprintInput(a, ToBase64(b)) == FingerprintInput(c, ToBase64(d))
       <==> (a == c && b == d) || (a == d && b == c)
  {
    var p, q, r, s := ToBase64(a), ToBase64(b), ToBase64(c), ToBase64(d);
    AtMostOrders(p, q);
    AtMostOrders(r, s);
    Base64Length(a);
    Base64Length(b);
    Base64Length(c);
    Base64Length(d);
    Base64RoundTrip(a);
    Base64RoundTrip(b);
    Base64RoundTrip(c);
    Base64RoundTrip(d);
    var x, y := FingerprintInput(a, q), FingerprintInput(c, s);
    hide ToBase64, FromBase64, AtMost;
    var n := |p|;
    assert {x[..n], x[n..]} == {p, q} && {y[..n], y[n..]} == {r, s};
    assert x[..n] + x[n..] == x && y[..n] + y[n..] == y;
  }
}
