/** canonicalJSON of internal/acme/jws.go: the members of a string map, sorted by
    key, as JSON without white space (section 3 of RFC 7638). Strings are sequences
    of code points, whose order is the byte order of their UTF-8 forms. */
module CanonicalJson {
  import opened Options
  import opened Strings

  // -- The order of keys ----------------------------------------------------

  /** Every element of the set once, and nothing else. */
  predicate Enumerates(ks: seq<string>, keys: set<string>) {
    && (forall i :: 0 <= i < |ks| ==> ks[i] in keys)
    && (forall k :: k in keys ==> k in ks)
    && (forall i, j :: 0 <= i < j < |ks| ==> ks[i] != ks[j])
  }

  predicate Increasing(ks: seq<string>) {
    forall i, j :: 0 <= i < j < |ks| ==> Le(ks[i], ks[j]) && ks[i] != ks[j]
  }

  /** Only one order of a set's elements is increasing. */
  lemma {:induction false} IncreasingUnique(ks: seq<string>, ls: seq<string>, keys: set<string>)
    requires Enumerates(ks, keys) && Enumerates(ls, keys) && Increasing(ks) && Increasing(ls)
    ensures ks == ls
    decreases |ks|
  {
    EnumeratesNone(ks, keys);
    EnumeratesNone(ls, keys);
    if keys != {} {
      SameLeast(ks, ls, keys);
      TailEnumerates(ks, keys);
      TailEnumerates(ls, keys);
      IncreasingUnique(ks[1..], ls[1..], keys - {ks[0]});
      assert ks == [ks[0]] + ks[1..] && ls == [ls[0]] + ls[1..];
    }
  }

  lemma EnumeratesNone(ks: seq<string>, keys: set<string>)
    requires Enumerates(ks, keys)
    ensures ks == [] <==> keys == {}
  {
    if keys != {} {
      var k :| k in keys;
      assert k in ks;
    }
    if ks != [] {
      assert ks[0] in keys;
    }
  }

  lemma SameLeast(ks: seq<string>, ls: seq<string>, keys: set<string>)
    requires Enumerates(ks, keys) && Enumerates(ls, keys) && Increasing(ks) && Increasing(ls)
    requires ks != [] && ls != []
    ensures ks[0] == ls[0]
  {
    LeastFirst(ks, ls[0]);
    LeastFirst(ls, ks[0]);
    LeTotal(ks[0], ls[0]);
  }

  lemma LeastFirst(ks: seq<string>, k: string)
    requires Increasing(ks) && k in ks
    ensures ks != [] && Le(ks[0], k)
  {
    LeTotal(k, k);
  }

  lemma TailEnumerates(ks: seq<string>, keys: set<string>)
    requires Enumerates(ks, keys) && ks != []
    ensures Enumerates(ks[1..], keys - {ks[0]})
  {
    forall k | k in keys - {ks[0]} ensures k in ks[1..] {
      var i :| 0 <= i < |ks| && ks[i] == k;
      assert ks[1..][i - 1] == k;
    }
  }

  // -- Strings as json.Marshal writes them ----------------------------------

  const HEX: string := "0123456789abcdef"

  function HexDigit(d: nat): char
    requires d < 16
  {
    HEX[d]
  }

  /** The control characters with a two-character form. */
  const SHORT: map<char, char> :=
    map['\"' := '\"', '\\' := '\\', '\U{0008}' := 'b', '\U{000C}' := 'f', '\n' := 'n', '\r' := 'r', '\t' := 't']

  function Escape(c: char): string {
    if c in SHORT then ['\\', SHORT[c]]
    else if c < ' ' || c == '<' || c == '>' || c == '&' then
      "\\u00" + [HexDigit(c as int / 16), HexDigit(c as int % 16)]
    else if c == '\U{2028}' then "\\u2028"
    else if c == '\U{2029}' then "\\u2029"
    else [c]
  }

  function Escapes(s: string): string {
    if s == [] then [] else Escape(s[0]) + Escapes(s[1..])
  }

  function Quote(s: string): string {
    "\"" + Escapes(s) + "\""
  }

  /** A character that stands for itself. */
  predicate Plain(c: char) {
    c >= ' ' && c != '\"' && c != '\\' && c != '<' && c != '>' && c != '&' && c != '\U{2028}' && c != '\U{2029}'
  }

  lemma {:induction false} PlainEscapes(s: string)
    requires forall i :: 0 <= i < |s| ==> Plain(s[i])
    ensures Escapes(s) == s
  {
    if s != [] {
      PlainEscapes(s[1..]);
      assert s == [s[0]] + s[1..];
    }
  }

  /** A string of such characters is only put between quotes. */
  lemma PlainQuoted(s: string)
    requires forall i :: 0 <= i < |s| ==> Plain(s[i])
    ensures Quote(s) == "\"" + s + "\""
  {
    PlainEscapes(s);
  }

  /** The others: seven have a form of two characters, three and the remaining control
      characters a hexadecimal one, as have two line separators. */
  lemma EscapeForms(c: char)
    ensures !Plain(c) ==>
              match c
              case '\"' => Escape(c) == "\\\""
              case '\\' => Escape(c) == "\\\\"
              case '\n' => Escape(c) == "\\n"
              case '\r' => Escape(c) == "\\r"
              case '\t' => Escape(c) == "\\t"
              case '\U{0008}' => Escape(c) == "\\b"
              case '\U{000C}' => Escape(c) == "\\f"
              case '<' => Escape(c) == "\\u003c"
              case '>' => Escape(c) == "\\u003e"
              case '&' => Escape(c) == "\\u0026"
              case '\U{2028}' => Escape(c) == "\\u2028"
              case '\U{2029}' => Escape(c) == "\\u2029"
              case _ =>
                && c < ' '
                && Escape(c) == "\\u00" + [if c as int < 16 then '0' else '1', "0123456789abcdef"[c as int % 16]]
  {
  }

  // -- A reader of what is written ------------------------------------------

  function HexValue(c: char): Option<nat> {
    if '0' <= c <= '9' then Some(c as int - '0' as int)
    else if 'a' <= c <= 'f' then Some(c as int - 'a' as int + 10)
    else None
  }

  /** Four hexadecimal digits of a code point outside the surrogates. */
  function ReadHex(t: string): Option<char>
    requires |t| >= 4
  {
    var a, b, c, d := HexValue(t[0]), HexValue(t[1]), HexValue(t[2]), HexValue(t[3]);
    if a.None? || b.None? || c.None? || d.None? then None
    else
      var v := ((a.value * 16 + b.value) * 16 + c.value) * 16 + d.value;
      if v < 0xD800 || 0xE000 <= v < 0x10000 then Some(v as char) else None
  }

  /** The control character with this two-character form. */
  function ReadShort(c: char): Option<char> {
    match c
    case '\"' => Some('\"')
    case '\\' => Some('\\')
    case 'b' => Some('\U{0008}')
    case 'f' => Some('\U{000C}')
    case 'n' => Some('\n')
    case 'r' => Some('\r')
    case 't' => Some('\t')
    case _ => None
  }

  /** One character and how much of the text it took. */
  function ReadChar(t: string): (r: Option<(char, nat)>)
    ensures r.Some? ==> 0 < r.value.1 <= |t|
  {
    if t == [] || t[0] == '\"' then None
    else if t[0] != '\\' then Some((t[0], 1))
    else if |t| >= 6 && t[1] == 'u' then
      var c := ReadHex(t[2..]);
      if c.None? then None else Some((c.value, 6))
    else if |t| >= 2 && ReadShort(t[1]).Some? then Some((ReadShort(t[1]).value, 2))
    else None
  }

  /** The string up to the closing quote, and the text after it. */
  function ReadString(t: string): (r: Option<(string, string)>)
    ensures r.Some? ==> |r.value.1| < |t|
    decreases |t|
  {
    if t != [] && t[0] == '\"' then Some(([], t[1..]))
    else
      var c := ReadChar(t);
      if c.None? then None
      else
        var rest := ReadString(t[c.value.1..]);
        if rest.None? then None else Some(([c.value.0] + rest.value.0, rest.value.1))
  }

  /** A quoted string. */
  function ReadQuoted(t: string): (r: Option<(string, string)>)
    ensures r.Some? ==> |r.value.1| < |t|
  {
    if t != [] && t[0] == '\"' then ReadString(t[1..]) else None
  }

  lemma HexRoundTrip(d: nat)
    requires d < 16
    ensures HexValue(HexDigit(d)) == Some(d)
  {
  }

  lemma ReadEscape(c: char, rest: string)
    ensures ReadChar(Escape(c) + rest) == Some((c, |Escape(c)|))
    ensures Escape(c)[0] != '\"'
  {
    if c !in SHORT && (c < ' ' || c == '<' || c == '>' || c == '&') {
      var t := Escape(c) + rest;
      HexRoundTrip(c as int / 16);
      HexRoundTrip(c as int % 16);
      assert t[2..][0] == '0' && t[2..][1] == '0';
      assert t[2..][2] == HexDigit(c as int / 16) && t[2..][3] == HexDigit(c as int % 16);
    } else if c == '\U{2028}' || c == '\U{2029}' {
      var t := Escape(c) + rest;
      assert t[2..][0] == '2' && t[2..][1] == '0' && t[2..][2] == '2';
    }
  }

  /** One character at the front of a text that reads on. */
  lemma ReadOn(c: char, more: string, s: string, rest: string)
    requires ReadString(more) == Some((s, rest))
    ensures ReadString(Escape(c) + more) == Some(([c] + s, rest))
  {
    ReadEscape(c, more);
    hide Escape, ReadChar;
    var t := Escape(c) + more;
    assert t[|Escape(c)|..] == more && t[0] == Escape(c)[0];
  }

  lemma ReadEnd(rest: string)
    ensures ReadString("\"" + rest) == Some(([], rest))
  {
    assert ("\"" + rest)[1..] == rest;
  }

  lemma {:induction false} ReadEscapes(s: string, rest: string)
    ensures ReadString(Escapes(s) + "\"" + rest) == Some((s, rest))
  {
    hide Escape, ReadChar, ReadString;
    if s == [] {
      ReadEnd(rest);
      assert Escapes(s) + "\"" + rest == "\"" + rest;
    } else {
      var more := Escapes(s[1..]) + "\"" + rest;
      ReadEscapes(s[1..], rest);
      ReadOn(s[0], more, s[1..], rest);
      assert Escapes(s) + "\"" + rest == Escape(s[0]) + more;
      assert s == [s[0]] + s[1..];
    }
  }

  /** Whatever the string, its quoted form reads back as it. */
  lemma QuoteRoundTrip(s: string, rest: string)
    ensures ReadQuoted(Quote(s) + rest) == Some((s, rest))
  {
    hide Escapes, ReadString;
    ReadEscapes(s, rest);
    assert (Quote(s) + rest)[1..] == Escapes(s) + "\"" + rest;
  }

  // -- The whole document ---------------------------------------------------

  function Member(k: string, v: string): string {
    Quote(k) + ":" + Quote(v)
  }

  /** The members between the braces. */
  function Members(ks: seq<string>, m: map<string, string>): string
    requires forall i :: 0 <= i < |ks| ==> ks[i] in m
  {
    if ks == [] then []
    else if |ks| == 1 then Member(ks[0], m[ks[0]])
    else Member(ks[0], m[ks[0]]) + "," + Members(ks[1..], m)
  }

  function Render(ks: seq<string>, m: map<string, string>): string
    requires forall i :: 0 <= i < |ks| ==> ks[i] in m
  {
    "{" + Members(ks, m) + "}"
  }

  /** The text is the map's members in strictly increasing order of their keys. */
  ghost predicate IsCanonical(m: map<string, string>, text: string) {
    exists ks :: Enumerates(ks, m.Keys) && Increasing(ks) && text == Render(ks, m)
  }

  lemma {:induction false} MembersAppend(ks: seq<string>, k: string, m: map<string, string>)
    requires k in m && forall i :: 0 <= i < |ks| ==> ks[i] in m
    ensures Members(ks + [k], m) == Members(ks, m) + (if ks == [] then "" else ",") + Member(k, m[k])
  {
    hide Member;
    if ks == [] {
      assert ks + [k] == [k];
    } else {
      MembersAppend(ks[1..], k, m);
      assert (ks + [k])[1..] == ks[1..] + [k];
    }
  }

  // -- Reading a document back ----------------------------------------------

  /** One member and the text after it. */
  function ReadMember(t: string): (r: Option<(string, string, string)>)
    ensures r.Some? ==> |r.value.2| < |t|
  {
    var k := ReadQuoted(t);
    if k.None? || k.value.1 == [] || k.value.1[0] != ':' then None
    else
      var v := ReadQuoted(k.value.1[1..]);
      if v.None? then None else Some((k.value.0, v.value.0, v.value.1))
  }

  /** At least one member, up to the closing brace. */
  function ReadMembers(t: string): Option<map<string, string>>
    decreases |t|
  {
    var first := ReadMember(t);
    if first.None? then None
    else
      var (k, v, rest) := first.value;
      if rest == "}" then Some(map[k := v])
      else if rest != [] && rest[0] == ',' then
        var more := ReadMembers(rest[1..]);
        if more.None? then None else Some(more.value[k := v])
      else None
  }

  function ReadDocument(t: string): Option<map<string, string>> {
    if t == "{}" then Some(map[])
    else if t != [] && t[0] == '{' then ReadMembers(t[1..])
    else None
  }

  lemma MemberRoundTrip(k: string, v: string, rest: string)
    ensures ReadMember(Member(k, v) + rest) == Some((k, v, rest))
  {
    hide Quote, ReadQuoted;
    var t := Member(k, v) + rest;
    assert t == Quote(k) + (":" + Quote(v) + rest);
    QuoteRoundTrip(k, ":" + Quote(v) + rest);
    assert (":" + Quote(v) + rest)[1..] == Quote(v) + rest;
    QuoteRoundTrip(v, rest);
  }

  lemma {:induction false} MembersRoundTrip(ks: seq<string>, m: map<string, string>)
    requires ks != [] && (forall i :: 0 <= i < |ks| ==> ks[i] in m)
    ensures ReadMembers(Members(ks, m) + "}") == Some(map k | k in ks :: m[k])
  {
    hide Member, ReadMember;
    var k, t := ks[0], Members(ks, m) + "}";
    if |ks| == 1 {
      MemberRoundTrip(k, m[k], "}");
      assert (map j | j in ks :: m[j]) == map[k := m[k]];
    } else {
      var more := Members(ks[1..], m) + "}";
      assert t == Member(k, m[k]) + ("," + more);
      MemberRoundTrip(k, m[k], "," + more);
      MembersRoundTrip(ks[1..], m);
      assert ("," + more)[1..] == more;
      assert ("," + more) != "}";
      assert (map j | j in ks :: m[j]) == (map j | j in ks[1..] :: m[j])[k := m[k]];
    }
  }

  /** The document reads back as the map it was made from. */
  lemma DocumentRoundTrip(m: map<string, string>, text: string)
    requires IsCanonical(m, text)
    ensures ReadDocument(text) == Some(m)
  {
    hide Member, ReadMembers;
    var ks :| Enumerates(ks, m.Keys) && Increasing(ks) && text == Render(ks, m);
    if ks == [] {
      assert m.Keys == {};
      assert m == map[];
    } else {
      MembersRoundTrip(ks, m);
      assert text[1..] == Members(ks, m) + "}";
      assert (map k | k in ks :: m[k]) == m;
      NotEmptyObject(ks, m);
    }
  }

  lemma NotEmptyObject(ks: seq<string>, m: map<string, string>)
    requires ks != [] && forall i :: 0 <= i < |ks| ==> ks[i] in m
    ensures Render(ks, m) != "{}"
  {
    hide Escapes;
    assert |Member(ks[0], m[ks[0]])| > 0;
  }

  /** Four members in a row. */
  lemma FourMembers(a: string, b: string, c: string, d: string, m: map<string, string>)
    requires a in m && b in m && c in m && d in m
    ensures Members([a, b, c, d], m) ==
              Member(a, m[a]) + "," + (Member(b, m[b]) + "," + (Member(c, m[c]) + "," + Member(d, m[d])))
  {
    hide Member;
    assert Members([d], m) == Member(d, m[d]);
    assert [c, d][1..] == [d];
    assert Members([c, d], m) == Member(c, m[c]) + "," + Member(d, m[d]);
    assert [b, c, d][1..] == [c, d];
    assert Members([b, c, d], m) == Member(b, m[b]) + "," + (Member(c, m[c]) + "," + Member(d, m[d]));
    assert [a, b, c, d][1..] == [b, c, d];
  }

  /** Each map has one canonical form, whatever order its keys were gathered in; and
      no two maps share one. */
  lemma CanonicalUnique(m: map<string, string>, m': map<string, string>, text: string, text': string)
    requires IsCanonical(m, text) && IsCanonical(m', text')
    ensures text == text' <==> m == m'
  {
    hide Render, ReadDocument;
    DocumentRoundTrip(m, text);
    DocumentRoundTrip(m', text');
    if m == m' {
      var ks :| Enumerates(ks, m.Keys) && Increasing(ks) && text == Render(ks, m);
      var ls :| Enumerates(ls, m.Keys) && Increasing(ls) && text' == Render(ls, m);
      IncreasingUnique(ks, ls, m.Keys);
    }
  }

  // -- The program ----------------------------------------------------------

  /** The keys in whatever order the map yields them. */
  method GatherKeys(m: map<string, string>) returns (keys: array<string>)
    ensures fresh(keys) && Enumerates(keys[..], m.Keys)
  {
    keys := new string[|m|](_ => "");
    var todo, n := m.Keys, 0;
    while todo != {}
      invariant n + |todo| == |m| == keys.Length && todo <= m.Keys
      invariant Enumerates(keys[..n], m.Keys - todo)
    {
      var k :| k in todo;
      todo := todo - {k};
      keys[n] := k;
      n := n + 1;
      assert keys[..n] == keys[..n - 1] + [k];
    }
    assert keys[..n] == keys[..];
  }

  lemma SwapEnumerates(ks: seq<string>, keys: set<string>, j: nat)
    requires Enumerates(ks, keys) && 0 < j < |ks|
    ensures Enumerates(ks[j := ks[j - 1]][j - 1 := ks[j]], keys)
  {
    var ls := ks[j := ks[j - 1]][j - 1 := ks[j]];
    forall k | k in keys ensures k in ls {
      var i :| 0 <= i < |ks| && ks[i] == k;
      assert ls[if i == j then j - 1 else if i == j - 1 then j else i] == k;
    }
  }

  /** In order up to i, but for the element at j. */
  predicate OrderedBut(ks: seq<string>, i: nat, j: nat)
    requires i < |ks|
  {
    forall a, b :: 0 <= a < b <= i && b != j ==> Le(ks[a], ks[b])
  }

  lemma SwapOrders(ks: seq<string>, i: nat, j: nat)
    requires 0 < j <= i < |ks| && OrderedBut(ks, i, j) && !Le(ks[j - 1], ks[j])
    ensures OrderedBut(ks[j := ks[j - 1]][j - 1 := ks[j]], i, j - 1)
  {
    LeTotal(ks[j - 1], ks[j]);
  }

  lemma InPlace(ks: seq<string>, i: nat, j: nat)
    requires j <= i < |ks| && OrderedBut(ks, i, j) && (j == 0 || Le(ks[j - 1], ks[j]))
    ensures forall a, b :: 0 <= a < b <= i ==> Le(ks[a], ks[b])
  {
    forall a | 0 <= a < j ensures Le(ks[a], ks[j]) {
      if a < j - 1 {
        LeTransitive(ks[a], ks[j - 1], ks[j]);
      }
    }
  }

  /** The inner loop: sink the element at i to its place. */
  method Sink(keys: array<string>, i: nat, ghost all: set<string>)
    requires 0 < i < keys.Length && Enumerates(keys[..], all)
    requires forall a, b :: 0 <= a < b < i ==> Le(keys[a], keys[b])
    modifies keys
    ensures Enumerates(keys[..], all)
    ensures forall a, b :: 0 <= a < b <= i ==> Le(keys[a], keys[b])
  {
    hide Enumerates, Le, OrderedBut;
    var j := i;
    assert OrderedBut(keys[..], i, i) by {
      OrderedStart(keys[..], i);
    }
    while j > 0 && !Le(keys[j - 1], keys[j])
      invariant j <= i && Enumerates(keys[..], all) && OrderedBut(keys[..], i, j)
    {
      ghost var before := keys[..];
      SwapEnumerates(before, all, j);
      SwapOrders(before, i, j);
      keys[j], keys[j - 1] := keys[j - 1], keys[j];
      assert keys[..] == before[j := before[j - 1]][j - 1 := before[j]];
      j := j - 1;
    }
    InPlace(keys[..], i, j);
  }

  lemma OrderedStart(ks: seq<string>, i: nat)
    requires i < |ks| && forall a, b :: 0 <= a < b < i ==> Le(ks[a], ks[b])
    ensures OrderedBut(ks, i, i)
  {
  }

  /** The insertion sort, in place. */
  method SortKeys(keys: array<string>, ghost all: set<string>)
    requires Enumerates(keys[..], all)
    modifies keys
    ensures Enumerates(keys[..], all) && Increasing(keys[..])
  {
    var i := 1;
    while i < keys.Length
      invariant 1 <= i && (i <= keys.Length || keys.Length == 0) && Enumerates(keys[..], all)
      invariant forall a, b :: 0 <= a < b < i && b < keys.Length ==> Le(keys[a], keys[b])
    {
      Sink(keys, i, all);
      i := i + 1;
    }
  }

  method CanonicalJSON(m: map<string, string>) returns (buf: string)
    ensures IsCanonical(m, buf)
  {
    hide Member, Members;
    var keys := GatherKeys(m);
    SortKeys(keys, m.Keys);
    ghost var ks := keys[..];
    assert forall i :: 0 <= i < |ks| ==> ks[i] in m;
    buf := "{";
    NoMembers(m);
    for i := 0 to keys.Length
      invariant ks == keys[..] && buf == "{" + Members(ks[..i], m)
    {
      MembersAppend(ks[..i], ks[i], m);
      assert ks[..i + 1] == ks[..i] + [ks[i]];
      if i > 0 {
        buf := buf + ",";
      }
      buf := buf + Member(keys[i], m[keys[i]]);
    }
    buf := buf + "}";
    assert ks[..keys.Length] == ks;
    assert buf == Render(ks, m);
  }

  lemma NoMembers(m: map<string, string>)
    ensures Members([], m) == []
  {
  }
}
