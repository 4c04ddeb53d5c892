/** The values the ACME client (internal/acme) passes around: persisted rows, the
    documents the server returns, and the wire tokens it compares. */
module AcmeTypes {
  import opened Options

  /** store.ACMEOrderStatus. */
  datatype Status = Unknown | Pending | Ready | Processing | Valid | Invalid | Expired

  /** store.ChallengeType. */
  datatype ChallengeType = Unset | Http01 | TlsAlpn01 | Dns01

  /** store.ACMEOrder, without the account and the timestamp. */
  datatype OrderRow = OrderRow(
    id: nat,
    hostnames: seq<string>,
    status: Status,
    orderURL: string,
    finalizeURL: string,
    certificateURL: string,
    challenge: ChallengeType,
    error: string)

  /** A subject key; its PEM form stands for it. */
  type Key = nat

  /** store.ACMECert, without NotBefore and the issuer. */
  datatype Cert = Cert(hostname: string, chain: string, key: Key, notAfter: int, orderID: nat)

  /** The order resource, section 7.1.3 of RFC 8555, its status token parsed. */
  datatype OrderDoc = OrderDoc(status: Status, authorizations: seq<string>, finalize: string, certificate: string)

  /** The authorisation statuses the client tells apart. */
  datatype AuthzStatus = AuthzValid | AuthzInvalid | AuthzOther

  /** One challenge of an authorisation. */
  datatype Challenge = Challenge(kind: string, url: string, token: string)

  /** The authorisation resource, section 7.1.4 of RFC 8555. */
  datatype AuthzDoc = AuthzDoc(status: AuthzStatus, host: string, challenges: seq<Challenge>)

  function ParseStatus(s: string): Status {
    match s
    case "pending" => Pending
    case "ready" => Ready
    case "processing" => Processing
    case "valid" => Valid
    case "invalid" => Invalid
    case _ => Unknown
  }

  function ParseAuthzStatus(s: string): AuthzStatus {
    match s
    case "valid" => AuthzValid
    case "invalid" => AuthzInvalid
    case _ => AuthzOther
  }

  function WireChallenge(t: ChallengeType): string {
    match t
    case Http01 => "http-01"
    case TlsAlpn01 => "tls-alpn-01"
    case Dns01 => "dns-01"
    case Unset => ""
  }

  /** The tokens of section 7.1.6 of RFC 8555; any other is a status not known. */
  lemma StatusTokens(s: string)
    ensures ParseStatus(s) == Pending <==> s == "pending"
    ensures ParseStatus(s) == Ready <==> s == "ready"
    ensures ParseStatus(s) == Processing <==> s == "processing"
    ensures ParseStatus(s) == Valid <==> s == "valid"
    ensures ParseStatus(s) == Invalid <==> s == "invalid"
    ensures ParseStatus(s) != Expired
    ensures ParseAuthzStatus(s) == AuthzValid <==> s == "valid"
    ensures ParseAuthzStatus(s) == AuthzInvalid <==> s == "invalid"
  {
  }

  /** The challenge types of section 8 of RFC 8555 and of RFC 8737. */
  lemma ChallengeTokens(t: ChallengeType)
    ensures t == Http01 <==> WireChallenge(t) == "http-01"
    ensures t == TlsAlpn01 <==> WireChallenge(t) == "tls-alpn-01"
    ensures t == Dns01 <==> WireChallenge(t) == "dns-01"
  {
  }

  // -- Lower-casing of (ASCII) host names -----------------------------------

  function LowerChar(c: char): char {
    if 'A' <= c <= 'Z' then (c as int - 'A' as int + 'a' as int) as char else c
  }

  function Lower(s: string): (r: string)
    ensures |r| == |s|
  {
    seq(|s|, i requires 0 <= i < |s| => LowerChar(s[i]))
  }

  lemma LowerTwice(s: string)
    ensures Lower(Lower(s)) == Lower(s)
  {
  }

  /** Each capital letter becomes the small one, and nothing else changes. */
  lemma LowerLetters(s: string, i: nat, k: nat)
    requires i < |s| && k < 26
    ensures s[i] == "ABCDEFGHIJKLMNOPQRSTUVWXYZ"[k] ==> Lower(s)[i] == "abcdefghijklmnopqrstuvwxyz"[k]
    ensures s[i] < 'A' || s[i] > 'Z' ==> Lower(s)[i] == s[i]
  {
  }

  function LowerAll(hosts: seq<string>): (r: seq<string>)
    ensures |r| == |hosts|
    ensures forall i :: 0 <= i < |hosts| ==> r[i] == Lower(hosts[i])
  {
    seq(|hosts|, i requires 0 <= i < |hosts| => Lower(hosts[i]))
  }

  /** The first challenge of the wanted kind. */
  function FindChallenge(cs: seq<Challenge>, want: string): Option<Challenge> {
    if cs == [] then None
    else if cs[0].kind == want then Some(cs[0])
    else FindChallenge(cs[1..], want)
  }

  /** None exactly when there is none of the kind; otherwise one with none before it. */
  lemma {:induction false} FindsFirst(cs: seq<Challenge>, want: string)
    ensures FindChallenge(cs, want).None? <==> forall i :: 0 <= i < |cs| ==> cs[i].kind != want
    ensures FindChallenge(cs, want).Some? ==>
              exists i :: 0 <= i < |cs| && cs[i] == FindChallenge(cs, want).value && cs[i].kind == want
                          && forall j :: 0 <= j < i ==> cs[j].kind != want
  {
    if cs != [] && cs[0].kind != want {
      FindsFirst(cs[1..], want);
      assert forall i :: 0 < i < |cs| ==> cs[i] == cs[1..][i - 1];
      if FindChallenge(cs, want).Some? {
        var i :| 0 <= i < |cs| - 1 && cs[1..][i] == FindChallenge(cs, want).value && cs[1..][i].kind == want
                 && forall j :: 0 <= j < i ==> cs[1..][j].kind != want;
        assert cs[i + 1] == FindChallenge(cs, want).value;
      }
    }
  }
}
