/** The fixed-width fields of internal/acme/jws.go: a P-256 key's coordinates (section
    6.2.1 of RFC 7518) and the two halves of an ES256 signature (section 3.4), and
    what the JWK thumbprint is taken of (section 3 of RFC 7638). */
module Jws {
  import opened Base64Url
  import opened CanonicalJson
  import opened Strings

  const SIZE: nat := 32

  /** The number that big-endian bytes stand for. */
  function Number(b: seq<byte>): nat {
    if b == [] then 0 else Number(b[..|b| - 1]) * 256 + b[|b| - 1]
  }

  /** big.Int.Bytes: big-endian, no leading zero, nothing for zero. */
  function Bytes(n: nat): seq<byte> {
    if n == 0 then [] else Bytes(n / 256) + [n % 256]
  }

  function Power(k: nat): (p: nat)
    ensures p > 0
  {
    if k == 0 then 1 else 256 * Power(k - 1)
  }

  lemma {:induction false} NumberOfBytes(n: nat)
    ensures Number(Bytes(n)) == n
  {
    if n > 0 {
      NumberOfBytes(n / 256);
    }
  }

  /** A number fits in k bytes exactly when it is below 256 to the k. */
  lemma {:induction false} BytesFit(n: nat, k: nat)
    ensures |Bytes(n)| <= k <==> n < Power(k)
  {
    if n > 0 && k > 0 {
      BytesFit(n / 256, k - 1);
    }
  }

  function Zeros(k: nat): seq<byte> {
    seq(k, _ => 0)
  }

  /** Left padding. */
  function Padded(x: seq<byte>): seq<byte>
    requires |x| <= SIZE
  {
    Zeros(SIZE - |x|) + x
  }

  lemma {:induction false} PaddedNumber(k: nat, x: seq<byte>)
    ensures Number(Zeros(k) + x) == Number(x)
  {
    var b := Zeros(k) + x;
    if x != [] {
      PaddedNumber(k, x[..|x| - 1]);
      assert b[..|b| - 1] == Zeros(k) + x[..|x| - 1];
    } else if k > 0 {
      PaddedNumber(k - 1, []);
      assert b[..|b| - 1] == Zeros(k - 1) + [];
    }
  }

  /** copy(dst[at:end], src), for a source that fits. */
  method Copy(dst: array<byte>, at: nat, src: seq<byte>)
    requires at + |src| <= dst.Length
    modifies dst
    ensures dst[..] == old(dst[..at]) + src + old(dst[at + |src|..])
  {
    for i := 0 to |src|
      invariant dst[..] == old(dst[..at]) + src[..i] + old(dst[at + i..])
    {
      dst[at + i] := src[i];
    }
  }

  /** One coordinate or signature half as the program pads it. */
  method Pad(x: nat) returns (out: array<byte>)
    requires x < Power(SIZE)
    ensures fresh(out) && out.Length == SIZE
    ensures |Bytes(x)| <= SIZE && out[..] == Padded(Bytes(x)) && Number(out[..]) == x
  {
    hide Power, Number;
    BytesFit(x, SIZE);
    var b := Bytes(x);
    out := new byte[SIZE](_ => 0);
    assert out[..SIZE - |b|] == Zeros(SIZE - |b|);
    Copy(out, SIZE - |b|, b);
    PaddedNumber(SIZE - |b|, b);
    NumberOfBytes(x);
  }

  lemma FirstHalf(b: seq<byte>, out: seq<byte>)
    requires |b| <= SIZE && out == Zeros(2 * SIZE)[..SIZE - |b|] + b + Zeros(2 * SIZE)[SIZE..]
    ensures out == Padded(b) + Zeros(SIZE)
  {
  }

  lemma SecondHalf(a: seq<byte>, b: seq<byte>, half: seq<byte>, out: seq<byte>)
    requires |a| == SIZE && |b| <= SIZE && half == a + Zeros(SIZE)
    requires out == half[..2 * SIZE - |b|] + b + half[2 * SIZE..]
    ensures out[..SIZE] == a && out[SIZE..] == Padded(b)
  {
  }

  /** R||S: each half is 32 bytes wide and stands for its number, so a signature is
      split in one way only. */
  method JoinSignature(r: nat, s: nat) returns (out: array<byte>)
    requires r < Power(SIZE) && s < Power(SIZE)
    ensures fresh(out) && out.Length == 2 * SIZE
    ensures Number(out[..SIZE]) == r && Number(out[SIZE..]) == s
  {
    hide Power, Number;
    BytesFit(r, SIZE);
    BytesFit(s, SIZE);
    var rb, sb := Bytes(r), Bytes(s);
    out := new byte[2 * SIZE](_ => 0);
    assert out[..] == Zeros(2 * SIZE);
    Copy(out, SIZE - |rb|, rb);
    FirstHalf(rb, out[..]);
    ghost var half := out[..];
    Copy(out, 2 * SIZE - |sb|, sb);
    SecondHalf(Padded(rb), sb, half, out[..]);
    PaddedNumber(SIZE - |rb|, rb);
    PaddedNumber(SIZE - |sb|, sb);
    NumberOfBytes(r);
    NumberOfBytes(s);
  }

  /** ecdsaSigner.jwk. */
  function Jwk(x: nat, y: nat): map<string, string>
    requires x < Power(SIZE) && y < Power(SIZE)
  {
    BytesFit(x, SIZE);
    BytesFit(y, SIZE);
    map["crv" := "P-256", "kty" := "EC", "x" := Encoded(Padded(Bytes(x))), "y" := Encoded(Padded(Bytes(y)))]
  }

  // -- The text that is hashed ----------------------------------------------

  lemma LettersPlain(b: seq<byte>)
    ensures forall i :: 0 <= i < |Encoded(b)| ==> Plain(Encoded(b)[i])
  {
    forall k: sextet ensures Plain(ALPHABET[k]) {
      LetterPlain(k);
    }
  }

  lemma LetterPlain(k: sextet)
    ensures Plain(ALPHABET[k])
  {
    assert ALPHABET[k] in ALPHABET;
  }

  function Pair(k: string, v: string): string {
    "\"" + k + "\":\"" + v + "\""
  }

  lemma MemberText(k: string, v: string)
    requires (forall i :: 0 <= i < |k| ==> Plain(k[i])) && (forall i :: 0 <= i < |v| ==> Plain(v[i]))
    ensures Member(k, v) == Pair(k, v)
  {
    PlainQuoted(k);
    PlainQuoted(v);
  }

  lemma KeysInOrder()
    ensures Increasing(["crv", "kty", "x", "y"])
  {
    assert Le("crv", "kty") && Le("crv", "x") && Le("crv", "y") && Le("kty", "x") && Le("kty", "y") && Le("x", "y");
  }

  /** The key as section 3.2 of RFC 7638 writes it. */
  function KeyText(x: string, y: string): string {
    "{\"crv\":\"P-256\",\"kty\":\"EC\"," + ("\"x\":\"" + x + "\",\"y\":\"" + y + "\"}")
  }

  lemma FixedPairs()
    ensures Pair("crv", "P-256") == "\"crv\":\"P-256\"" && Pair("kty", "EC") == "\"kty\":\"EC\""
  {
  }

  lemma LastPairs(x: string, y: string)
    ensures Pair("x", x) + "," + Pair("y", y) + "}" == "\"x\":\"" + x + "\",\"y\":\"" + y + "\"}"
  {
  }

  lemma FirstPairs(a: string, b: string, c: string)
    requires a == "\"crv\":\"P-256\"" && b == "\"kty\":\"EC\""
    ensures "{" + (a + "," + (b + "," + c)) == "{\"crv\":\"P-256\",\"kty\":\"EC\"," + c
  {
  }

  lemma FourPairs(a: string, b: string, x: string, y: string)
    requires a == "\"crv\":\"P-256\"" && b == "\"kty\":\"EC\""
    ensures "{" + (a + "," + (b + "," + (Pair("x", x) + "," + Pair("y", y)))) + "}" == KeyText(x, y)
  {
    hide Pair;
    var c := Pair("x", x) + "," + Pair("y", y);
    LastPairs(x, y);
    FirstPairs(a, b, c);
    Joined("{\"crv\":\"P-256\",\"kty\":\"EC\",", c, "\"x\":\"" + x + "\",\"y\":\"" + y + "\"}");
  }

  lemma Joined(a: string, b: string, c: string)
    requires b + "}" == c
    ensures a + b + "}" == a + c
  {
  }

  lemma FixedMembers()
    ensures Member("crv", "P-256") == Pair("crv", "P-256") && Member("kty", "EC") == Pair("kty", "EC")
  {
    hide Member, Pair;
    assert forall i :: 0 <= i < 5 ==> Plain("P-256"[i]);
    MemberText("crv", "P-256");
    MemberText("kty", "EC");
  }

  lemma KeyMembers(x: string, y: string)
    requires (forall i :: 0 <= i < |x| ==> Plain(x[i])) && (forall i :: 0 <= i < |y| ==> Plain(y[i]))
    ensures Member("x", x) == Pair("x", x) && Member("y", y) == Pair("y", y)
  {
    MemberText("x", x);
    MemberText("y", y);
  }

  lemma RendersKey(m: map<string, string>, x: string, y: string)
    requires m == map["crv" := "P-256", "kty" := "EC", "x" := x, "y" := y]
    requires (forall i :: 0 <= i < |x| ==> Plain(x[i])) && (forall i :: 0 <= i < |y| ==> Plain(y[i]))
    ensures Render(["crv", "kty", "x", "y"], m) == KeyText(x, y)
  {
    hide Quote, KeyText, Members, Member, Pair, Plain;
    FourMembers("crv", "kty", "x", "y", m);
    FixedMembers();
    KeyMembers(x, y);
    FixedPairs();
    FourPairs(Pair("crv", "P-256"), Pair("kty", "EC"), x, y);
  }

  lemma KeyCanonical(m: map<string, string>, x: string, y: string)
    requires m == map["crv" := "P-256", "kty" := "EC", "x" := x, "y" := y]
    requires (forall i :: 0 <= i < |x| ==> Plain(x[i])) && (forall i :: 0 <= i < |y| ==> Plain(y[i]))
    ensures IsCanonical(m, KeyText(x, y))
  {
    hide Render, KeyText, Increasing;
    RendersKey(m, x, y);
    KeysInOrder();
    assert Enumerates(["crv", "kty", "x", "y"], m.Keys) by {
      KeysAre(m);
    }
  }

  lemma KeysAre(m: map<string, string>)
    requires m.Keys == {"crv", "kty", "x", "y"}
    ensures Enumerates(["crv", "kty", "x", "y"], m.Keys)
  {
    assert |"crv"| == 3 && |"x"| == 1;
  }

  /** The canonical text of a public key is this one and no other: its members in this
      order, and between the last quotes the 32 big-endian bytes of each coordinate. */
  lemma CanonicalKey(x: nat, y: nat, xs: seq<byte>, ys: seq<byte>, text: string)
    requires x < Power(SIZE) && y < Power(SIZE)
    requires |xs| == 32 && Number(xs) == x && |ys| == 32 && Number(ys) == y
    ensures IsCanonical(Jwk(x, y), text) <==> text == KeyText(Encoded(xs), Encoded(ys))
  {
    hide Power;
    PaddedIs(x, xs);
    PaddedIs(y, ys);
    hide IsCanonical, Encoded, Padded, KeyText, Number, Bytes;
    LettersPlain(xs);
    LettersPlain(ys);
    KeyCanonical(Jwk(x, y), Encoded(xs), Encoded(ys));
    if IsCanonical(Jwk(x, y), text) {
      CanonicalUnique(Jwk(x, y), Jwk(x, y), text, KeyText(Encoded(xs), Encoded(ys)));
    }
  }

  /** Bytes of one length that stand for the same number are the same. */
  lemma {:induction false} NumberInjective(a: seq<byte>, b: seq<byte>)
    requires |a| == |b| && Number(a) == Number(b)
    ensures a == b
  {
    if a != [] {
      var n := |a| - 1;
      NumberInjective(a[..n], b[..n]);
      assert a == a[..n] + [a[n]] && b == b[..n] + [b[n]];
    }
  }

  lemma PaddedIs(x: nat, b: seq<byte>)
    requires x < Power(SIZE) && |b| == SIZE && Number(b) == x
    ensures |Bytes(x)| <= SIZE && Padded(Bytes(x)) == b
  {
    BytesFit(x, SIZE);
    PaddedNumber(SIZE - |Bytes(x)|, Bytes(x));
    NumberOfBytes(x);
    NumberInjective(Padded(Bytes(x)), b);
  }

  /** Big-endian: the first byte of two weighs 256. */
  lemma NumberOfTwo(a: byte, b: byte)
    ensures Number([a, b]) == a * 256 + b
  {
    assert [a][..0] == [];
    assert Number([a]) == a;
    assert [a, b][..1] == [a];
  }

  lemma FieldInjective(x: nat, x': nat)
    requires |Bytes(x)| <= SIZE && |Bytes(x')| <= SIZE
    requires Encoded(Padded(Bytes(x))) == Encoded(Padded(Bytes(x')))
    ensures x == x'
  {
    hide Encoded;
    Injective(Padded(Bytes(x)), Padded(Bytes(x')));
    PaddedNumber(SIZE - |Bytes(x)|, Bytes(x));
    PaddedNumber(SIZE - |Bytes(x')|, Bytes(x'));
    NumberOfBytes(x);
    NumberOfBytes(x');
  }

  /** What is hashed into a thumbprint determines the public key. */
  lemma ThumbprintInput(x: nat, y: nat, x': nat, y': nat, text: string)
    requires x < Power(SIZE) && y < Power(SIZE) && x' < Power(SIZE) && y' < Power(SIZE)
    requires IsCanonical(Jwk(x, y), text) && IsCanonical(Jwk(x', y'), text)
    ensures x == x' && y == y'
  {
    hide IsCanonical, Encoded, Padded;
    var m, m' := Jwk(x, y), Jwk(x', y');
    CanonicalUnique(m, m', text, text);
    assert m["x"] == m'["x"] && m["y"] == m'["y"];
    BytesFit(x, SIZE);
    BytesFit(y, SIZE);
    BytesFit(x', SIZE);
    BytesFit(y', SIZE);
    FieldInjective(x, x');
    FieldInjective(y, y');
  }
}
