/** rawURLEncodeBytes of internal/acme/order.go: base64url without padding
    (section 5 of RFC 4648), computed with a 32-bit shift register. */
module Base64Url {

  type byte = x: int | 0 <= x < 0x100
  type uint32 = x: int | 0 <= x < 0x1_0000_0000
  type sextet = x: int | 0 <= x < 64

  const ALPHABET: string :=
    "ABCDEFGHIJKLM" + "NOPQRSTUVWXYZ" + "abcdefghijklm" + "nopqrstuvwxyz" + "0123456789-_"

  // -- The reference encoding: 24-bit groups, the last one cut short --------

  function Sextets(b: seq<byte>): seq<sextet> {
    if |b| == 0 then []
    else if |b| == 1 then [b[0] / 4, b[0] % 4 * 16]
    else if |b| == 2 then [b[0] / 4, b[0] % 4 * 16 + b[1] / 16, b[1] % 16 * 4]
    else Group(b[0], b[1], b[2]) + Sextets(b[3..])
  }

  function Group(x: byte, y: byte, z: byte): seq<sextet> {
    [x / 4, x % 4 * 16 + y / 16, y % 16 * 4 + z / 64, z % 64]
  }

  function Letters(s: seq<sextet>): (r: string)
    ensures |r| == |s|
  {
    seq(|s|, i requires 0 <= i < |s| => ALPHABET[s[i]])
  }

  function Encoded(b: seq<byte>): string {
    Letters(Sextets(b))
  }

  /** The alphabet of section 5 of RFC 4648. */
  lemma AlphabetIs(k: sextet)
    ensures k < 26 ==> ALPHABET[k] as int == 'A' as int + k
    ensures 26 <= k < 52 ==> ALPHABET[k] as int == 'a' as int + (k - 26)
    ensures 52 <= k < 62 ==> ALPHABET[k] as int == '0' as int + (k - 52)
    ensures k == 62 ==> ALPHABET[k] == '-'
    ensures k == 63 ==> ALPHABET[k] == '_'
  {
    if k < 26 {
      CapitalIs(k);
    } else if k < 52 {
      SmallIs(k);
    } else {
      assert ALPHABET[k] == "0123456789-_"[k - 52];
    }
  }

  lemma CapitalIs(k: sextet)
    requires k < 26
    ensures ALPHABET[k] as int == 'A' as int + k
  {
    assert ALPHABET[k] == if k < 13 then "ABCDEFGHIJKLM"[k] else "NOPQRSTUVWXYZ"[k - 13];
  }

  lemma SmallIs(k: sextet)
    requires 26 <= k < 52
    ensures ALPHABET[k] as int == 'a' as int + (k - 26)
  {
    assert ALPHABET[k] == if k < 39 then "abcdefghijklm"[k - 26] else "nopqrstuvwxyz"[k - 39];
  }

  /** The first byte's high bits come first: three bytes make the four base-64 digits of the
      number they stand for. */
  lemma GroupIs(x: byte, y: byte, z: byte)
    ensures var g := Group(x, y, z); |g| == 4 && InBase(64, [g[0], g[1], g[2], g[3]]) == InBase(256, [x, y, z])
  {
    var g := Group(x, y, z);
    FourDigits(64, g[0], g[1], g[2], g[3]);
    assert [x, y, z][..2] == [x, y] && [x, y][..1] == [x] && [x][..0] == [];
    assert InBase(256, [x]) == x && InBase(256, [x, y]) == x * 256 + y;
  }

  function InBase(base: int, digits: seq<int>): int {
    if digits == [] then 0 else InBase(base, digits[..|digits| - 1]) * base + digits[|digits| - 1]
  }

  lemma FourDigits(base: int, a: int, b: int, c: int, d: int)
    ensures InBase(base, [a, b, c, d]) == ((a * base + b) * base + c) * base + d
  {
    assert [a, b, c, d][..3] == [a, b, c] && [a, b, c][..2] == [a, b] && [a, b][..1] == [a] && [a][..0] == [];
    assert InBase(base, [a]) == a;
    assert InBase(base, [a, b]) == a * base + b;
  }

  // -- The decoder ----------------------------------------------------------

  function Value(c: char): (v: sextet) {
    if 'A' <= c <= 'Z' then c as int - 'A' as int
    else if 'a' <= c <= 'z' then c as int - 'a' as int + 26
    else if '0' <= c <= '9' then c as int - '0' as int + 52
    else if c == '-' then 62
    else 63
  }

  function Octets(s: seq<sextet>): seq<byte> {
    if |s| < 2 then []
    else if |s| == 2 then [First(s[0], s[1])]
    else if |s| == 3 then [First(s[0], s[1]), Second(s[1], s[2])]
    else [First(s[0], s[1]), Second(s[1], s[2]), Third(s[2], s[3])] + Octets(s[4..])
  }

  function First(s: int, t: int): byte
    requires 0 <= s < 64 && 0 <= t < 64
  {
    s * 4 + t / 16
  }

  function Second(s: int, t: int): byte
    requires 0 <= s < 64 && 0 <= t < 64
  {
    s % 16 * 16 + t / 4
  }

  function Third(s: int, t: int): byte
    requires 0 <= s < 64 && 0 <= t < 64
  {
    s % 4 * 64 + t
  }

  function Decoded(s: string): seq<byte> {
    Octets(seq(|s|, i requires 0 <= i < |s| => Value(s[i])))
  }

  // -- The encoder as the source runs it ------------------------------------

  function Pow2(n: nat): (p: nat)
    ensures p > 0
  {
    if n == 0 then 1 else 2 * Pow2(n - 1)
  }

  /** Shifting the register left by 8 may push old bits out of its 32; the 24
      lowest always stay. */
  lemma ShiftWraps(bits: uint32)
    ensures bits * 256 % 0x1_0000_0000 == bits % 0x100_0000 * 256
  {
    assert bits * 256 == bits / 0x100_0000 * 0x1_0000_0000 + bits % 0x100_0000 * 256;
  }

  /** So the bits still pending (0, 2 or 4 of them) survive and come out first. */
  lemma ShiftIn(bits: uint32, c: byte, w: int)
    requires w == bits * 256 % 0x1_0000_0000 + c
    ensures w / 4 % 64 == c / 4 && w % 4 == c % 4
    ensures w / 16 % 64 == bits % 4 * 16 + c / 16 && w % 16 == c % 16
    ensures w / 64 % 64 == bits % 16 * 4 + c / 64 && w % 64 == c % 64
  {
    ShiftWraps(bits);
    ShiftLow(bits % 0x100_0000, c);
    LowBits(bits);
  }

  lemma LowBits(bits: uint32)
    ensures bits % 0x100_0000 % 4 == bits % 4
    ensures bits % 0x100_0000 % 16 == bits % 16
  {
  }

  lemma ShiftLow(low: nat, c: byte)
    ensures var w := low * 256 + c;
            && w / 4 % 64 == c / 4 && w % 4 == c % 4
            && w / 16 % 64 == low % 4 * 16 + c / 16 && w % 16 == c % 16
            && w / 64 % 64 == low % 16 * 4 + c / 64 && w % 64 == c % 64
  {
    var w := low * 256 + c;
    Quotient(w, 4, low * 64 + c / 4, c % 4);
    Quotient(w / 4, 64, low, c / 4);
    Quotient(w, 16, low * 16 + c / 16, c % 16);
    Quotient(w / 16, 64, low / 4, low % 4 * 16 + c / 16);
    Quotient(w, 64, low * 4 + c / 64, c % 64);
    Quotient(w / 64, 64, low / 16, low % 16 * 4 + c / 64);
  }

  lemma Quotient(w: nat, m: nat, q: nat, r: nat)
    requires r < m && w == q * m + r
    ensures w / m == q && w % m == r
  {
    var d := w / m - q;
    assert w == w / m * m + w % m;
    assert d * m == r - w % m;
    Gap(d, m);
  }

  lemma Gap(d: int, m: int)
    requires m >= 0
    ensures d > 0 ==> d * m >= m
    ensures d < 0 ==> d * m <= 0 - m
  {
    assert d > 0 ==> (d - 1) * m >= 0;
    assert d < 0 ==> (0 - d - 1) * m >= 0;
  }

  lemma {:induction false} SextetsAppend(a: seq<byte>, b: seq<byte>)
    requires |a| % 3 == 0
    ensures Sextets(a + b) == Sextets(a) + Sextets(b)
  {
    if a == [] {
      assert a + b == b;
    } else {
      assert (a + b)[3..] == a[3..] + b;
      SextetsAppend(a[3..], b);
    }
  }

  // After some bytes have been read: the whole groups among them, and the one,
  // two or no bytes of the group in progress.
  function Whole(b: seq<byte>): (w: seq<byte>)
    ensures |w| % 3 == 0
  {
    b[..|b| - |b| % 3]
  }

  function Tail(b: seq<byte>): (t: seq<byte>)
    ensures |t| == |b| % 3
  {
    b[|b| - |b| % 3..]
  }

  /** The complete sextets of a group in progress. */
  function Open(t: seq<byte>): seq<sextet>
    requires |t| < 3
  {
    if |t| == 0 then []
    else if |t| == 1 then [t[0] / 4]
    else [t[0] / 4, t[0] % 4 * 16 + t[1] / 16]
  }

  /** The value of its bits read and not yet written. */
  function Pending(t: seq<byte>): nat
    requires |t| < 3
  {
    if |t| == 0 then 0
    else if |t| == 1 then t[0] % 4
    else t[1] % 16
  }

  /** Its final, zero-filled sextet. */
  function Flush(t: seq<byte>): seq<sextet>
    requires |t| < 3
  {
    if |t| == 0 then []
    else if |t| == 1 then [Pending(t) * 16]
    else [Pending(t) * 4]
  }

  function Written(b: seq<byte>): seq<sextet> {
    Sextets(Whole(b)) + Open(Tail(b))
  }

  lemma WrittenNext(b: seq<byte>, c: byte)
    ensures Written(b + [c]) == Written(b) + Completed(Tail(b), c)
    ensures Tail(b + [c]) == if |Tail(b)| == 2 then [] else Tail(b) + [c]
  {
    hide Sextets, Completed;
    WholeNext(b, c);
    if |b| % 3 < 2 {
      OpenNext(Tail(b), c);
    } else {
      SextetsAppend(Whole(b), Tail(b) + [c]);
      GroupNext(Tail(b), c);
    }
  }

  /** The sextets that become complete when c follows t. */
  function Completed(t: seq<byte>, c: byte): seq<sextet>
    requires |t| < 3
  {
    if |t| == 0 then [c / 4]
    else if |t| == 1 then [Pending(t) * 16 + c / 16]
    else [Pending(t) * 4 + c / 64, c % 64]
  }

  lemma OpenNext(t: seq<byte>, c: byte)
    requires |t| < 2
    ensures Open(t + [c]) == Open(t) + Completed(t, c)
  {
  }

  lemma GroupNext(t: seq<byte>, c: byte)
    requires |t| == 2
    ensures Sextets(t + [c]) == Open(t) + Completed(t, c)
  {
    hide Sextets, Group, Open, Completed;
    var x, y := t[0], t[1];
    assert t == [x, y] && t + [c] == [x, y, c];
    OneGroup(x, y, c);
    TwoParts(x, y, c);
  }

  lemma TwoParts(x: byte, y: byte, z: byte)
    ensures Group(x, y, z) == Open([x, y]) + Completed([x, y], z)
  {
    var u, v, w, l := x / 4, x % 4 * 16 + y / 16, y % 16 * 4 + z / 64, z % 64;
    assert Open([x, y]) == [u, v];
    assert Completed([x, y], z) == [w, l];
    assert [u, v] + [w, l] == [u, v, w, l];
  }

  lemma OneGroup(x: byte, y: byte, z: byte)
    ensures Sextets([x, y, z]) == Group(x, y, z)
  {
    hide Group;
    assert [x, y, z][3..] == [];
  }

  lemma WholeAndTail(b: seq<byte>)
    ensures b == Whole(b) + Tail(b)
  {
    var g := |b| - |b| % 3;
    assert b == b[..g] + b[g..];
  }

  lemma WholeNext(b: seq<byte>, c: byte)
    ensures if |b| % 3 < 2 then Whole(b + [c]) == Whole(b) && Tail(b + [c]) == Tail(b) + [c]
            else Whole(b + [c]) == Whole(b) + (Tail(b) + [c]) && Tail(b + [c]) == []
  {
    var g := |b| - |b| % 3;
    assert b + [c] == b[..g] + (b[g..] + [c]);
  }

  lemma WrittenAll(b: seq<byte>)
    ensures Sextets(b) == Written(b) + Flush(Tail(b))
  {
    hide Sextets, Open, Flush;
    WholeAndTail(b);
    SextetsAppend(Whole(b), Tail(b));
    LastGroup(Tail(b));
  }

  lemma LastGroup(t: seq<byte>)
    requires |t| < 3
    ensures Sextets(t) == Open(t) + Flush(t)
  {
  }

  lemma LettersAppend(s: seq<sextet>, t: seq<sextet>)
    ensures Letters(s + t) == Letters(s) + Letters(t)
  {
  }

  lemma Powers()
    ensures Pow2(0) == 1 && Pow2(2) == 4 && Pow2(4) == 16 && Pow2(6) == 64
  {
    assert Pow2(1) == 2 && Pow2(3) == 8 && Pow2(5) == 32;
  }

  /** The same, read off the register. */
  function Shifted(bits: uint32, n: nat, c: byte): seq<sextet> {
    if n == 0 then [c / 4]
    else if n == 2 then [bits % 4 * 16 + c / 16]
    else [bits % 16 * 4 + c / 64, c % 64]
  }

  lemma ShiftedAt(bits: uint32, n: nat, c: byte, bits': uint32, k: nat)
    requires (n == 0 || n == 2 || n == 4) && bits' == bits * 256 % 0x1_0000_0000 + c && k < |Shifted(bits, n, c)|
    ensures n + 2 >= 6 * k && bits' / Pow2(n + 2 - 6 * k) % 64 == Shifted(bits, n, c)[k]
  {
    ShiftIn(bits, c, bits');
    Powers();
  }

  /** One iteration of the source's outer loop. */
  method PushByte(out: string, bits: uint32, n: nat, c: byte) returns (out': string, bits': uint32, n': nat)
    requires n == 0 || n == 2 || n == 4
    ensures out' == out + Letters(Shifted(bits, n, c))
    ensures n' == (if n == 4 then 0 else n + 2)
    ensures bits' % Pow2(n') == c % Pow2(n')
  {
    bits' := bits * 256 % 0x1_0000_0000 + c;
    n', out' := n + 8, out;
    ghost var all: seq<sextet>, k: nat := Shifted(bits, n, c), 0;
    while n' >= 6
      invariant k <= |all| && n' == n + 8 - 6 * k
      invariant out' == out + Letters(all[..k])
    {
      n' := n' - 6;
      ShiftedAt(bits, n, c, bits', k);
      out' := out' + [ALPHABET[bits' / Pow2(n') % 64]];
      k := k + 1;
    }
    assert all[..k] == all;
    ShiftIn(bits, c, bits');
    Powers();
  }

  method RawURLEncodeBytes(b: seq<byte>) returns (out: string)
    ensures out == Encoded(b)
  {
    hide InStep, Encoded;
    if |b| == 0 {
      EncodedNothing(b);
      return "";
    }
    out := [];
    var bits: uint32, n: nat := 0, 0;
    InStepAtStart();
    for i := 0 to |b|
      invariant InStep(b[..i], out, bits, n)
    {
      ghost var out0, bits0, n0 := out, bits, n;
      InStepBits(b[..i], out, bits, n);
      out, bits, n := PushByte(out, bits, n, b[i]);
      assert b[..i + 1] == b[..i] + [b[i]];
      StepOn(b[..i], out0, bits0, n0, b[i], bits, n);
    }
    assert b[..|b|] == b;
    InStepBits(b, out, bits, n);
    if n > 0 {
      FlushLast(b, out, bits, n);
      out := out + [ALPHABET[bits * Pow2(6 - n) % 0x1_0000_0000 % 64]];
    } else {
      FlushNothing(b, out, bits);
    }
  }

  lemma EncodedNothing(b: seq<byte>)
    requires |b| == 0
    ensures Encoded(b) == ""
  {
  }

  lemma InStepAtStart()
    ensures InStep([], [], 0, 0)
  {
  }

  lemma InStepBits(b: seq<byte>, out: string, bits: uint32, n: nat)
    requires InStep(b, out, bits, n)
    ensures n == 0 || n == 2 || n == 4
  {
  }

  lemma FlushNothing(b: seq<byte>, out: string, bits: uint32)
    requires InStep(b, out, bits, 0)
    ensures out == Encoded(b)
  {
    WrittenAll(b);
  }

  lemma FlushLast(b: seq<byte>, out: string, bits: uint32, n: nat)
    requires n > 0 && InStep(b, out, bits, n)
    ensures n <= 6 && out + [ALPHABET[bits * Pow2(6 - n) % 0x1_0000_0000 % 64]] == Encoded(b)
  {
    hide Sextets, Written;
    WrittenAll(b);
    Powers();
    LastShift(bits, n);
    LettersAppend(Written(b), Flush(Tail(b)));
  }

  /** The loop invariant: the register's low n bits are those still to be written. */
  predicate InStep(b: seq<byte>, out: string, bits: uint32, n: nat) {
    && n == 2 * |Tail(b)|
    && bits % Pow2(n) == Pending(Tail(b))
    && out == Letters(Written(b))
  }

  lemma StepOn(b: seq<byte>, out: string, bits: uint32, n: nat, c: byte, bits': uint32, n': nat)
    requires InStep(b, out, bits, n)
    requires n' == (if n == 4 then 0 else n + 2) && bits' % Pow2(n') == c % Pow2(n')
    ensures InStep(b + [c], out + Letters(Shifted(bits, n, c)), bits', n')
  {
    hide Sextets, Written;
    Powers();
    WrittenNext(b, c);
    LettersAppend(Written(b), Shifted(bits, n, c));
  }

  lemma LastShift(bits: uint32, n: nat)
    requires n == 2 || n == 4
    ensures bits * Pow2(6 - n) % 0x1_0000_0000 % 64 == bits % Pow2(n) * Pow2(6 - n)
  {
    Powers();
    if n == 2 {
      LastShift2(bits);
    } else {
      LastShift4(bits);
    }
  }

  lemma LastShift2(bits: uint32)
    ensures bits * 16 % 0x1_0000_0000 % 64 == bits % 4 * 16
  {
    var low := bits % 0x1000_0000;
    Quotient(bits * 16, 0x1_0000_0000, bits / 0x1000_0000, low * 16);
    Quotient(low * 16, 64, low / 4, low % 4 * 16);
    assert low % 4 == bits % 4;
  }

  lemma LastShift4(bits: uint32)
    ensures bits * 4 % 0x1_0000_0000 % 64 == bits % 16 * 4
  {
    var low := bits % 0x4000_0000;
    Quotient(bits * 4, 0x1_0000_0000, bits / 0x4000_0000, low * 4);
    Quotient(low * 4, 64, low / 16, low % 16 * 4);
    assert low % 16 == bits % 16;
  }

  // -- Main results ---------------------------------------------------------

  /** floor((8 * len + 5) / 6), the capacity the source reserves. */
  lemma {:induction false} EncodedLength(b: seq<byte>)
    ensures |Encoded(b)| == (8 * |b| + 5) / 6
  {
    if |b| > 2 {
      EncodedLength(b[3..]);
    }
  }

  lemma LetterValue(v: sextet)
    ensures Value(ALPHABET[v]) == v
  {
    AlphabetIs(v);
    hide ALPHABET;
  }

  lemma GroupBytes(x: byte, y: byte, z: byte)
    ensures var g := Group(x, y, z); First(g[0], g[1]) == x && Second(g[1], g[2]) == y && Third(g[2], g[3]) == z
  {
    Quotient(x % 4 * 16 + y / 16, 16, x % 4, y / 16);
    Quotient(y % 16 * 4 + z / 64, 4, y % 16, z / 64);
  }

  lemma {:induction false} OctetsOfSextets(b: seq<byte>)
    ensures Octets(Sextets(b)) == b
  {
    if |b| > 2 {
      OctetsOfSextets(b[3..]);
      GroupBytes(b[0], b[1], b[2]);
      assert Sextets(b)[4..] == Sextets(b[3..]);
      assert b == [b[0], b[1], b[2]] + b[3..];
    } else if |b| == 2 {
      GroupBytes(b[0], b[1], 0);
    } else if |b| == 1 {
      GroupBytes(b[0], 0, 0);
    }
  }

  lemma RoundTrip(b: seq<byte>)
    ensures Decoded(Encoded(b)) == b
  {
    var s := Sextets(b);
    var e := Encoded(b);
    forall i | 0 <= i < |s| ensures Value(e[i]) == s[i] {
      LetterValue(s[i]);
    }
    assert seq(|e|, i requires 0 <= i < |e| => Value(e[i])) == s;
    OctetsOfSextets(b);
  }

  lemma Injective(a: seq<byte>, b: seq<byte>)
    ensures Encoded(a) == Encoded(b) <==> a == b
  {
    RoundTrip(a);
    RoundTrip(b);
  }
}
