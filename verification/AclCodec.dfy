/** The mailbox rights codec of internal/aclcodec/aclcodec.go: the letters of section
    2.1 of RFC 4314, and the three coarse tiers that share a column with them. */
module AclCodec {
  import opened Options

  /** store.ACLRights, a uint16. */
  type Rights = bv16

  /** LetterTable: right i is the letter at i and the bit 1 << i. */
  const LETTERS: string := "lrswipkxtea"
  const KNOWN: Rights := 0x7FF

  const READ: string := "read"
  const WRITE: string := "write"
  const ADMIN: string := "admin"

  const READ_BITS: Rights := 0x007
  const WRITE_BITS: Rights := 0x3F8
  const ADMIN_BITS: Rights := 0x400

  function Bit(i: nat): Rights
    requires i < 11
  {
    match i
    case 0 => 1
    case 1 => 2
    case 2 => 4
    case 3 => 8
    case 4 => 16
    case 5 => 32
    case 6 => 64
    case 7 => 128
    case 8 => 256
    case 9 => 512
    case 10 => 1024
  }

  predicate Has(r: Rights, i: nat)
    requires i < 11
  {
    r & Bit(i) != 0
  }

  // -- What the codec computes ----------------------------------------------

  /** The letters of the first n rights that r holds. */
  function EncodedTo(r: Rights, n: nat): string
    requires n <= 11
  {
    if n == 0 then [] else EncodedTo(r, n - 1) + (if Has(r, n - 1) then [LETTERS[n - 1]] else [])
  }

  function Encoded(r: Rights): string {
    EncodedTo(r, 11)
  }

  /** Where a letter stands in the table, looking from n on. */
  function IndexFrom(c: char, n: nat): (i: Option<nat>)
    requires n <= 11
    ensures i.Some? ==> n <= i.value < 11 && LETTERS[i.value] == c
    ensures i.None? ==> forall j :: n <= j < 11 ==> LETTERS[j] != c
    decreases 11 - n
  {
    if n == 11 then None else if LETTERS[n] == c then Some(n) else IndexFrom(c, n + 1)
  }

  function Decoded(s: string): Option<Rights> {
    if s == [] then Some(0)
    else
      var r, i := Decoded(s[..|s| - 1]), IndexFrom(s[|s| - 1], 0);
      if r.None? || i.None? then None else Some(r.value | Bit(i.value))
  }

  /** ExpandTier. */
  function ExpandTier(level: string): Rights {
    if level == READ then READ_BITS
    else if level == WRITE then READ_BITS | WRITE_BITS
    else if level == ADMIN then READ_BITS | WRITE_BITS | ADMIN_BITS
    else 0
  }

  /** CollapseTier. */
  function CollapseTier(r: Rights): string {
    if r & ADMIN_BITS != 0 then ADMIN
    else if r & WRITE_BITS != 0 then WRITE
    else if r & READ_BITS != 0 then READ
    else ""
  }

  /** DecodeGrantLevel. */
  function DecodeGrantLevel(level: string): Option<Rights> {
    if level == READ || level == WRITE || level == ADMIN then Some(ExpandTier(level)) else Decoded(level)
  }

  // -- The program ----------------------------------------------------------

  method Encode(r: Rights) returns (s: string)
    ensures s == Encoded(r)
  {
    s := "";
    for i := 0 to |LETTERS|
      invariant s == EncodedTo(r, i)
    {
      if r & Bit(i) != 0 {
        s := s + [LETTERS[i]];
      }
    }
  }

  method Decode(s: string) returns (r: Option<Rights>)
    ensures r == Decoded(s)
  {
    var out: Rights := 0;
    for i := 0 to |s|
      invariant Decoded(s[..i]) == Some(out)
    {
      var matched, j := false, 0;
      DecodedOn(s, i);
      while j < |LETTERS| && !matched
        invariant j <= 11 && (!matched ==> IndexFrom(s[i], 0) == IndexFrom(s[i], j))
        invariant Decoded(s[..i + 1]) == if matched then Some(out) else WithIndex(out, IndexFrom(s[i], 0))
        decreases 11 - j, !matched
      {
        if LETTERS[j] == s[i] {
          out := out | Bit(j);
          matched := true;
        } else {
          j := j + 1;
        }
      }
      if !matched {
        RejectedStays(s, i + 1);
        return None;
      }
    }
    assert s[..|s|] == s;
    r := Some(out);
  }

  function WithIndex(out: Rights, i: Option<nat>): Option<Rights>
    requires i.Some? ==> i.value < 11
  {
    if i.None? then None else Some(out | Bit(i.value))
  }

  lemma DecodedOn(s: string, i: nat)
    requires i < |s|
    ensures Decoded(s[..i + 1]) ==
              if Decoded(s[..i]).None? then None else WithIndex(Decoded(s[..i]).value, IndexFrom(s[i], 0))
  {
    assert s[..i + 1][..i] == s[..i];
  }

  /** One unknown letter spoils the whole string. */
  lemma {:induction false} RejectedStays(s: string, i: nat)
    requires i <= |s| && Decoded(s[..i]).None?
    ensures Decoded(s).None?
    decreases |s| - i
  {
    if i == |s| {
      assert s[..i] == s;
    } else {
      DecodedOn(s, i);
      RejectedStays(s, i + 1);
    }
  }

  // -- Letters and bits -----------------------------------------------------

  lemma TableDistinct(i: nat, j: nat)
    requires i < 11 && j < 11 && LETTERS[i] == LETTERS[j]
    ensures i == j
  {
  }

  lemma BitsApart(i: nat, j: nat, r: Rights)
    requires i < 11 && j < 11
    ensures (r | Bit(i)) & Bit(j) != 0 <==> i == j || r & Bit(j) != 0
  {
  }

  lemma NoBits(j: nat)
    requires j < 11
    ensures 0 & Bit(j) == 0
  {
  }

  /** A string is accepted exactly when all its letters are in the table. */
  lemma {:induction false} AcceptedIff(s: string)
    ensures Decoded(s).Some? <==> forall c :: c in s ==> c in LETTERS
  {
    if s != [] {
      var some, c := s[..|s| - 1], s[|s| - 1];
      AcceptedIff(some);
      InTable(c);
      assert s == some + [c];
      assert (forall d :: d in s ==> d in LETTERS) <==> (forall d :: d in some ==> d in LETTERS) && c in LETTERS;
    }
  }

  lemma InTable(c: char)
    ensures IndexFrom(c, 0).Some? <==> c in LETTERS
  {
    var i := IndexFrom(c, 0);
    if i.Some? {
      assert LETTERS[i.value] in LETTERS;
    }
  }

  lemma HasJoined(r: Rights, r': Rights, i: nat, j: nat)
    requires i < 11 && j < 11 && r' == r | Bit(i)
    ensures Has(r', j) <==> i == j || Has(r, j)
  {
    BitsApart(i, j, r);
  }

  lemma DecodedLast(s: string, j: nat)
    requires s != [] && Decoded(s).Some? && j < 11
    ensures Decoded(s[..|s| - 1]).Some? && IndexFrom(s[|s| - 1], 0).Some?
    ensures Has(Decoded(s).value, j) <==> IndexFrom(s[|s| - 1], 0) == Some(j) || Has(Decoded(s[..|s| - 1]).value, j)
  {
    hide Has, Bit;
    HasJoined(Decoded(s[..|s| - 1]).value, Decoded(s).value, IndexFrom(s[|s| - 1], 0).value, j);
  }

  lemma InAppended(some: string, c: char, i: nat, j: nat)
    requires i < 11 && j < 11 && LETTERS[i] == c
    ensures LETTERS[j] in some + [c] <==> LETTERS[j] in some || i == j
  {
    if LETTERS[j] == c {
      TableDistinct(i, j);
    }
  }

  /** A decoded string grants exactly the rights whose letters occur in it. */
  lemma {:induction false} DecodedHas(s: string, j: nat)
    requires Decoded(s).Some? && j < 11
    ensures Has(Decoded(s).value, j) <==> LETTERS[j] in s
  {
    if s == [] {
      NoBits(j);
    } else {
      hide Decoded, Has;
      var some, c := s[..|s| - 1], s[|s| - 1];
      DecodedLast(s, j);
      DecodedHas(some, j);
      InAppended(some, c, IndexFrom(c, 0).value, j);
      assert s == some + [c];
    }
  }

  /** The table's letters that occur in a string, in the table's order. */
  function LettersOf(s: string, n: nat): string
    requires n <= 11
  {
    if n == 0 then [] else LettersOf(s, n - 1) + (if LETTERS[n - 1] in s then [LETTERS[n - 1]] else [])
  }

  lemma {:induction false} CanonicalTo(s: string, n: nat)
    requires Decoded(s).Some? && n <= 11
    ensures EncodedTo(Decoded(s).value, n) == LettersOf(s, n)
  {
    if n > 0 {
      CanonicalTo(s, n - 1);
      DecodedHas(s, n - 1);
    }
  }

  /** Decoding and encoding an accepted string puts its letters in canonical order, once
      each, whatever their order and repeats were. */
  lemma Canonicalises(s: string)
    requires Decoded(s).Some?
    ensures Encoded(Decoded(s).value) == LettersOf(s, 11)
    ensures forall c :: c in LettersOf(s, 11) <==> c in s
  {
    CanonicalTo(s, 11);
    AcceptedIff(s);
    forall c ensures c in LettersOf(s, 11) <==> c in s {
      LettersOfExactly(s, 11, c);
    }
  }

  lemma {:induction false} LettersOfExactly(s: string, n: nat, c: char)
    requires n <= 11
    ensures c in LettersOf(s, n) <==> c in s && c in LETTERS[..n]
  {
    if n > 0 {
      LettersOfExactly(s, n - 1, c);
      assert LETTERS[..n] == LETTERS[..n - 1] + [LETTERS[n - 1]];
    } else {
      assert LETTERS[..n] == [];
    }
  }

  // -- Round trips ----------------------------------------------------------

  lemma LetterIndex(n: nat)
    requires n < 11
    ensures IndexFrom(LETTERS[n], 0) == Some(n)
  {
    TableDistinct(n, IndexFrom(LETTERS[n], 0).value);
  }

  lemma InLonger(s: string, d: char, c: char)
    ensures c in s + [d] <==> c in s || c == d
  {
  }

  lemma EncodedNext(r: Rights, n: nat, c: char)
    requires n < 11
    ensures c in EncodedTo(r, n + 1) <==> c in EncodedTo(r, n) || (Has(r, n) && c == LETTERS[n])
  {
    var d := LETTERS[n];
    hide Has, LETTERS;
    InLonger(EncodedTo(r, n), d, c);
  }

  lemma SameLetter(i: nat, j: nat)
    requires i < 11 && j < 11
    ensures LETTERS[i] == LETTERS[j] <==> i == j
  {
    if LETTERS[i] == LETTERS[j] {
      TableDistinct(i, j);
    }
  }

  /** An encoding holds exactly the letters of the known rights in the mask. */
  lemma {:induction false} EncodedHas(r: Rights, n: nat, j: nat)
    requires n <= 11 && j < 11
    ensures LETTERS[j] in EncodedTo(r, n) <==> j < n && Has(r, j)
  {
    if n > 0 {
      hide Has, LETTERS, EncodedTo;
      EncodedHas(r, n - 1, j);
      EncodedNext(r, n - 1, LETTERS[j]);
      SameLetter(j, n - 1);
    }
  }

  lemma {:induction false} EncodedAccepted(r: Rights, n: nat)
    requires n <= 11
    ensures forall c :: c in EncodedTo(r, n) ==> c in LETTERS
  {
    if n > 0 {
      EncodedAccepted(r, n - 1);
    }
  }

  lemma BitKnown(r: Rights, i: nat)
    requires i < 11 && r & !KNOWN == 0
    ensures (r | Bit(i)) & !KNOWN == 0
  {
  }

  /** Decoding yields known rights only. */
  lemma {:induction false} DecodedKnown(s: string)
    requires Decoded(s).Some?
    ensures Decoded(s).value & !KNOWN == 0
  {
    if s != [] {
      DecodedKnown(s[..|s| - 1]);
      BitKnown(Decoded(s[..|s| - 1]).value, IndexFrom(s[|s| - 1], 0).value);
    }
  }

  /** A mask of known rights is determined by which of them it holds. */
  lemma SameRights(a: Rights, b: Rights)
    requires a & !KNOWN == 0 && forall j :: 0 <= j < 11 ==> (a & Bit(j) != 0 <==> b & Bit(j) != 0)
    ensures a == b & KNOWN
  {
    assert a & Bit(0) != 0 <==> b & Bit(0) != 0;
    assert a & Bit(1) != 0 <==> b & Bit(1) != 0;
    assert a & Bit(2) != 0 <==> b & Bit(2) != 0;
    assert a & Bit(3) != 0 <==> b & Bit(3) != 0;
    assert a & Bit(4) != 0 <==> b & Bit(4) != 0;
    assert a & Bit(5) != 0 <==> b & Bit(5) != 0;
    assert a & Bit(6) != 0 <==> b & Bit(6) != 0;
    assert a & Bit(7) != 0 <==> b & Bit(7) != 0;
    assert a & Bit(8) != 0 <==> b & Bit(8) != 0;
    assert a & Bit(9) != 0 <==> b & Bit(9) != 0;
    assert a & Bit(10) != 0 <==> b & Bit(10) != 0;
  }

  /** Decoding an encoding gives back the known bits of the mask. */
  lemma DecodeEncoded(r: Rights)
    ensures Decoded(Encoded(r)) == Some(r & KNOWN)
  {
    var s := Encoded(r);
    EncodedAccepted(r, 11);
    AcceptedIff(s);
    DecodedKnown(s);
    var a := Decoded(s).value;
    forall j | 0 <= j < 11 ensures a & Bit(j) != 0 <==> r & Bit(j) != 0 {
      DecodedHas(s, j);
      EncodedHas(r, 11, j);
    }
    SameRights(a, r);
  }

  lemma {:induction false} EncodedInOrder(r: Rights, n: nat, i: nat, j: nat)
    requires n <= 11 && i < j < |EncodedTo(r, n)|
    ensures var s := EncodedTo(r, n);
            IndexFrom(s[i], 0).Some? && IndexFrom(s[j], 0).Some?
              && IndexFrom(s[i], 0).value < IndexFrom(s[j], 0).value < n
  {
    var before := EncodedTo(r, n - 1);
    LetterIndex(n - 1);
    if j < |before| {
      EncodedInOrder(r, n - 1, i, j);
    } else {
      EncodedEarlier(r, n - 1, i);
    }
  }

  lemma {:induction false} EncodedEarlier(r: Rights, n: nat, i: nat)
    requires n <= 11 && i < |EncodedTo(r, n)|
    ensures IndexFrom(EncodedTo(r, n)[i], 0).Some? && IndexFrom(EncodedTo(r, n)[i], 0).value < n
  {
    LetterIndex(n - 1);
    if i < |EncodedTo(r, n - 1)| {
      EncodedEarlier(r, n - 1, i);
    }
  }

  /** No encoding is a tier word: read and admin have letters outside the table, and the
      letters of write are out of order. */
  lemma NeverTierWord(r: Rights)
    ensures Encoded(r) != READ && Encoded(r) != WRITE && Encoded(r) != ADMIN
  {
    var s := Encoded(r);
    if |s| == 5 {
      EncodedInOrder(r, 11, 0, 1);
      assert IndexFrom('w', 0) == Some(3) && IndexFrom('r', 0) == Some(1) by {
        LetterIndex(3);
        LetterIndex(1);
      }
    }
    if |s| >= 4 {
      EncodedEarlier(r, 11, 1);
      EncodedEarlier(r, 11, 3);
      assert IndexFrom('d', 0).None?;
    }
  }

  /** Reading back an encoded mask as a grant level gives exactly its known bits. */
  lemma GrantRoundTrip(r: Rights)
    ensures DecodeGrantLevel(Encoded(r)) == Some(r & KNOWN)
  {
    NeverTierWord(r);
    DecodeEncoded(r);
  }

  /** A grant level means what its letters say unless it is a tier word. */
  lemma TierWordsAlone(s: string)
    ensures DecodeGrantLevel(s) == Decoded(s) <==> s != READ && s != WRITE && s != ADMIN
  {
    AcceptedIff(s);
    if s == READ {
      assert s[3] == 'd';
      assert 'd' !in LETTERS;
    } else if s == ADMIN {
      assert s[1] == 'd';
      assert 'd' !in LETTERS;
    } else if s == WRITE {
      DecodedHas(s, 0);
      assert Has(ExpandTier(s), 0);
    }
  }

  lemma OneLetter(i: nat)
    requires i < 11
    ensures Decoded([LETTERS[i]]) == Some(Bit(i))
  {
    var s := [LETTERS[i]];
    LetterIndex(i);
    assert s[..0] == [];
    assert Decoded(s[..0]) == Some(0);
    assert 0 | Bit(i) == Bit(i);
  }

  lemma {:induction false} AllLetters(n: nat)
    requires n <= 11
    ensures EncodedTo(0x7FF, n) == LETTERS[..n]
  {
    if n > 0 {
      AllLetters(n - 1);
      assert Has(0x7FF, n - 1);
      assert LETTERS[..n] == LETTERS[..n - 1] + [LETTERS[n - 1]];
    }
  }

  /** The rights of section 2.1 of RFC 4314, letter by letter, with the bits the store
      gives them. */
  lemma LetterBits()
    ensures Decoded("l") == Some(1) && Decoded("r") == Some(2) && Decoded("s") == Some(4)
    ensures Decoded("w") == Some(8) && Decoded("i") == Some(16) && Decoded("p") == Some(32)
    ensures Decoded("k") == Some(64) && Decoded("x") == Some(128)
    ensures Decoded("t") == Some(256) && Decoded("e") == Some(512) && Decoded("a") == Some(1024)
    ensures Encoded(0x7FF) == "lrswipkxtea"
  {
    AllLetters(11);
    assert LETTERS[..11] == LETTERS;
    hide Decoded, Encoded;
    OneLetter(0);
    OneLetter(1);
    OneLetter(2);
    OneLetter(3);
    OneLetter(4);
    OneLetter(5);
    OneLetter(6);
    OneLetter(7);
    OneLetter(8);
    OneLetter(9);
    OneLetter(10);
  }

  // -- Tiers ----------------------------------------------------------------

  /** What the tiers are: read is l, r and s; write adds w, i, p, k, x, t and e; admin adds
      a; and any other word is no tier. */
  lemma TierLetters(level: string)
    ensures ExpandTier("read") == 1 | 2 | 4 && DecodeGrantLevel("read") == Some(7)
    ensures ExpandTier("write") == ExpandTier("read") | 8 | 16 | 32 | 64 | 128 | 256 | 512
    ensures DecodeGrantLevel("write") == Some(ExpandTier("write"))
    ensures ExpandTier("admin") == ExpandTier("write") | 1024 && DecodeGrantLevel("admin") == Some(ExpandTier("admin"))
    ensures level != "read" && level != "write" && level != "admin" ==>
              ExpandTier(level) == 0 && DecodeGrantLevel(level) == Decoded(level)
  {
  }

  predicate IsTier(level: string) {
    level == "" || level == READ || level == WRITE || level == ADMIN
  }

  function Rank(level: string): nat {
    if level == ADMIN then 3 else if level == WRITE then 2 else if level == READ then 1 else 0
  }

  /** A mask's tier is at most t exactly when its known bits lie within t's. */
  lemma Adjunction(r: Rights, t: string)
    requires IsTier(t)
    ensures Rank(CollapseTier(r)) <= Rank(t) <==> r & KNOWN & !ExpandTier(t) == 0
  {
  }

  lemma CollapseJoins(a: Rights, b: Rights)
    ensures Rank(CollapseTier(a | b)) ==
              if Rank(CollapseTier(a)) < Rank(CollapseTier(b)) then Rank(CollapseTier(b)) else Rank(CollapseTier(a))
  {
  }

  predicate Decodable(levels: seq<string>) {
    forall i :: 0 <= i < |levels| ==> DecodeGrantLevel(levels[i]).Some?
  }

  /** The rights of several grants together. */
  function Combined(levels: seq<string>): Rights
    requires Decodable(levels)
  {
    if levels == [] then 0 else DecodeGrantLevel(levels[0]).value | Combined(levels[1..])
  }

  function HighestRank(levels: seq<string>): nat
    requires Decodable(levels)
  {
    if levels == [] then 0
    else
      var a, b := Rank(CollapseTier(DecodeGrantLevel(levels[0]).value)), HighestRank(levels[1..]);
      if a < b then b else a
  }

  lemma NoRights()
    ensures Rank(CollapseTier(0)) == 0
  {
  }

  /** Together, grants reach the highest of their tiers. */
  lemma {:induction false} CombinedTier(levels: seq<string>)
    requires Decodable(levels)
    ensures Rank(CollapseTier(Combined(levels))) == HighestRank(levels)
  {
    hide DecodeGrantLevel, CollapseTier, Rank;
    if levels == [] {
      NoRights();
    }
    if levels != [] {
      CombinedTier(levels[1..]);
      CollapseJoins(DecodeGrantLevel(levels[0]).value, Combined(levels[1..]));
    }
  }

  /** The grants together lie within a tier exactly when each of them does. */
  lemma {:induction false} CombinedWithin(levels: seq<string>, t: string)
    requires Decodable(levels) && IsTier(t)
    ensures Combined(levels) & KNOWN & !ExpandTier(t) == 0 <==>
              forall i :: 0 <= i < |levels| ==> Rank(CollapseTier(DecodeGrantLevel(levels[i]).value)) <= Rank(t)
  {
    CombinedTier(levels);
    Adjunction(Combined(levels), t);
    HighestIsLeast(levels, Rank(t));
  }

  lemma {:induction false} HighestIsLeast(levels: seq<string>, n: nat)
    requires Decodable(levels)
    ensures HighestRank(levels) <= n <==>
              forall i :: 0 <= i < |levels| ==> Rank(CollapseTier(DecodeGrantLevel(levels[i]).value)) <= n
  {
    if levels != [] {
      HighestIsLeast(levels[1..], n);
      assert forall i :: 0 < i < |levels| ==> levels[i] == levels[1..][i - 1];
    }
  }

  /** Expanding a tier and collapsing it again gives it back. */
  lemma TierRoundTrip(t: string)
    requires IsTier(t)
    ensures CollapseTier(ExpandTier(t)) == t
  {
  }
}
