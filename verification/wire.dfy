/**
 The two wire formats that the Go proxy and the JavaScript client share: the
 WWW-Authenticate challenge, printed in Go and matched by regular expressions in
 JavaScript, and the L402 token, joined in JavaScript and taken apart in Go.
*/
module Wire {
  import opened Wrappers
  import opened Encodings

  // --- The challenge ---

  datatype Kind = Toll | Enrollment

  function TypeName(kind: Kind): string {
    match kind
    case Toll => "toll"
    case Enrollment => "enrollment"
  }

  /** The header that IssueChallenge and IssueEnrollmentChallenge write. */
  function ChallengeHeader(kind: Kind, macaroon: seq<Byte>, invoice: string): string {
    "L402 macaroon=\"" + Base64Encode(macaroon) + "\", invoice=\"" + invoice + "\""
    + (if kind.Enrollment? then ", type=\"enrollment\"" else "")
  }

  /** [^"]* from the start of s. */
  function UpToQuote(s: string): (run: string)
    ensures run <= s
    ensures forall i :: 0 <= i < |run| ==> run[i] != '"'
    ensures |run| < |s| ==> s[|run|] == '"'
  {
    if s == [] || s[0] == '"' then [] else [s[0]] + UpToQuote(s[1..])
  }

  /** The group that open([^"]+)" captures when matched at the start of s. */
  function MatchHere(open: string, s: string): Option<string> {
    if !(open <= s) then None
    else
      var rest := s[|open|..];
      var run := UpToQuote(rest);
      if run != [] && |run| < |rest| then Some(run) else None
  }

  /** The same for String.prototype.match: the leftmost place that matches. */
  function Match(open: string, s: string): Option<string> {
    if s == [] then None
    else if MatchHere(open, s).Some? then MatchHere(open, s)
    else Match(open, s[1..])
  }

  datatype Parsed = Parsed(macaroon: string, invoice: string, kind: string)

  function ParseChallenge(wwwAuth: string): Option<Parsed> {
    var macaroon := Match("macaroon=\"", wwwAuth);
    var invoice := Match("invoice=\"", wwwAuth);
    var kind := Match("type=\"", wwwAuth);
    if macaroon.None? || invoice.None? then None
    else Some(Parsed(macaroon.value, invoice.value, if kind.Some? then kind.value else "toll"))
  }

  /** The texts themselves, as a client of another make would have to read and write them. */
  lemma PlainTexts()
    ensures ChallengeHeader(Toll, [0, 0, 0], "lnbc1") == "L402 macaroon=\"AAAA\", invoice=\"lnbc1\""
    ensures ChallengeHeader(Enrollment, [0, 0, 0], "lnbc1") ==
            "L402 macaroon=\"AAAA\", invoice=\"lnbc1\", type=\"enrollment\""
    ensures BuildAuthHeader("AAAA", "00ff") == "L402 AAAA:00ff"
  {
    hide Base64Encode;
    ZeroBytes();
  }

  lemma ZeroBytes()
    ensures Base64Encode([0, 0, 0]) == "AAAA"
  {
    assert [0, 0, 0][3..] == [];
  }

  predicate Occurs(open: string, s: string, i: int) {
    0 <= i <= |s| && open <= s[i..]
  }

  lemma OccursAt(open: string, s: string, i: int)
    requires Occurs(open, s, i)
    ensures i + |open| <= |s|
    ensures forall j :: 0 <= j < |open| ==> s[i + j] == open[j]
  {
    assert forall j :: 0 <= j < |open| ==> s[i..][j] == open[j];
  }

  lemma UpToQuoteIs(value: string, rest: string)
    requires forall i :: 0 <= i < |value| ==> value[i] != '"'
    requires rest != [] && rest[0] == '"'
    ensures UpToQuote(value + rest) == value
  {
    var s := value + rest;
    assert forall i :: 0 <= i < |value| ==> s[i] == value[i];
    assert s[|value|] == rest[0];
    assert UpToQuote(s) == s[..|UpToQuote(s)|];
    assert value == s[..|value|];
  }

  /** The leftmost occurrence of `open` decides, when a quoted value follows it. */
  lemma {:induction false} MatchIs(open: string, s: string, k: nat, value: string, rest: string)
    requires open != [] && k <= |s| && s[k..] == open + value + rest
    requires forall i :: 0 <= i < k ==> !Occurs(open, s, i)
    requires value != [] && forall i :: 0 <= i < |value| ==> value[i] != '"'
    requires rest != [] && rest[0] == '"'
    ensures Match(open, s) == Some(value)
    decreases k
  {
    if k == 0 {
      assert s == open + value + rest;
      assert s[|open|..] == value + rest;
      UpToQuoteIs(value, rest);
    } else {
      assert s[1..][k - 1..] == s[k..];
      assert !Occurs(open, s, 0);
      forall i | 0 <= i < k - 1 ensures !Occurs(open, s[1..], i) {
        assert s[1..][i..] == s[i + 1..];
        assert !Occurs(open, s, i + 1);
      }
      MatchIs(open, s[1..], k - 1, value, rest);
    }
  }

  /** No occurrence, or one with nothing after it, is no match. */
  lemma {:induction false} MatchIsNone(open: string, s: string)
    requires open != []
    requires forall i :: 0 <= i < |s| && Occurs(open, s, i) ==> i + |open| == |s|
    ensures Match(open, s) == None
  {
    if s == [] {
    } else {
      if Occurs(open, s, 0) {
        assert |s[|open|..]| == 0;
      }
      forall i | 0 <= i < |s[1..]| && Occurs(open, s[1..], i) ensures i + |open| == |s[1..]| {
        assert s[1..][i..] == s[i + 1..];
        assert Occurs(open, s, i + 1);
      }
      MatchIsNone(open, s[1..]);
    }
  }

  /** A quoted value follows `open` at this place. */
  predicate ValueAt(open: string, s: string, k: int, value: string) {
    Occurs(open, s, k) && value != [] && '"' !in value
    && k + |open| + |value| < |s| && s[k + |open|..k + |open| + |value|] == value && s[k + |open| + |value|] == '"'
  }

  lemma MatchHereIff(open: string, s: string)
    ensures match MatchHere(open, s)
            case Some(value) => ValueAt(open, s, 0, value)
            case None => forall value :: !ValueAt(open, s, 0, value)
  {
    assert s[0..] == s;
    if open <= s {
      var rest := s[|open|..];
      var run := UpToQuote(rest);
      assert s[|open|..|open| + |run|] == rest[..|run|] == run;
      forall value ensures ValueAt(open, s, 0, value) ==> value == run {
        if ValueAt(open, s, 0, value) {
          assert rest == value + rest[|value|..];
          UpToQuoteIs(value, rest[|value|..]);
        }
      }
    }
  }

  ghost predicate LeftmostAt(open: string, s: string, k: int, value: string) {
    ValueAt(open, s, k, value) && forall j, v :: 0 <= j < k ==> !ValueAt(open, s, j, v)
  }

  /** The pattern finds the leftmost quoted value after `open`, and finds one if there is one. */
  lemma {:induction false} MatchIff(open: string, s: string)
    requires open != []
    ensures match Match(open, s)
            case Some(value) => exists k :: LeftmostAt(open, s, k, value)
            case None => forall j, v :: !ValueAt(open, s, j, v)
  {
    hide MatchHere;
    MatchHereIff(open, s);
    if s != [] {
      MatchIff(open, s[1..]);
      forall j, v | j >= 1 ensures ValueAt(open, s, j, v) <==> ValueAt(open, s[1..], j - 1, v) {
        ValueShift(open, s, j, v);
      }
      if MatchHere(open, s).Some? {
        var value := MatchHere(open, s).value;
        assert Match(open, s) == Some(value);
        assert LeftmostAt(open, s, 0, value);
      } else if Match(open, s[1..]).Some? {
        var value := Match(open, s[1..]).value;
        var k :| LeftmostAt(open, s[1..], k, value);
        assert Match(open, s) == Some(value);
        assert LeftmostAt(open, s, k + 1, value);
      }
    }
  }

  lemma ValueShift(open: string, s: string, j: int, v: string)
    requires s != [] && j >= 1
    ensures ValueAt(open, s, j, v) <==> ValueAt(open, s[1..], j - 1, v)
  {
    if j <= |s| { assert s[1..][j - 1..] == s[j..]; }
    if 0 <= j + |open| <= j + |open| + |v| < |s| {
      assert s[1..][j - 1 + |open|..j - 1 + |open| + |v|] == s[j + |open|..j + |open| + |v|];
    }
  }

  predicate QuoteFree(s: string) {
    forall i :: 0 <= i < |s| ==> s[i] != '"'
  }

  predicate EndsWith(s: string, end: string) {
    |end| <= |s| && s[|s| - |end|..] == end
  }

  /** The printed header, cut where its quotes are. */
  predicate Header(h: string, kind: Kind, mac: string, invoice: string) {
    h == "L402 macaroon=\"" + mac + "\", invoice=\"" + invoice + "\""
         + (if kind.Enrollment? then ", type=\"enrollment\"" else "")
  }

  /** The four or six quotes of a header, by position. */
  predicate IsQuote(kind: Kind, m: nat, n: nat, p: int) {
    || p == 14 || p == 15 + m || p == 26 + m || p == 27 + m + n
    || (kind.Enrollment? && (p == 35 + m + n || p == 46 + m + n))
  }

  lemma QuotesOfHeader(h: string, kind: Kind, mac: string, invoice: string, p: int)
    requires Header(h, kind, mac, invoice) && QuoteFree(mac) && QuoteFree(invoice)
    requires 0 <= p < |h| && h[p] == '"'
    ensures IsQuote(kind, |mac|, |invoice|, p)
  {
    var m, n := |mac|, |invoice|;
    assert forall q :: 15 <= q < 15 + m ==> h[q] == mac[q - 15];
    assert forall q :: 27 + m <= q < 27 + m + n ==> h[q] == invoice[q - 27 - m];
  }

  /** An occurrence of a pattern ending in `="` ends at one of the quotes. */
  lemma OccursAtQuote(open: string, h: string, kind: Kind, mac: string, invoice: string, i: int)
    requires Header(h, kind, mac, invoice) && QuoteFree(mac) && QuoteFree(invoice)
    requires |open| >= 3 && open[|open| - 2..] == "=\"" && Occurs(open, h, i)
    ensures IsQuote(kind, |mac|, |invoice|, i + |open| - 1) && i + |open| <= |h|
    ensures h[i] == open[0] && h[i + |open| - 3] == open[|open| - 3] && h[i + |open| - 2] == '='
  {
    OccursAt(open, h, i);
    QuotesOfHeader(h, kind, mac, invoice, i + |open| - 1);
  }

  lemma MatchMacaroon(h: string, kind: Kind, mac: string, invoice: string)
    requires Header(h, kind, mac, invoice) && QuoteFree(mac) && QuoteFree(invoice) && mac != []
    ensures Match("macaroon=\"", h) == Some(mac)
  {
    hide Header, Match, Occurs;
    var open := "macaroon=\"";
    forall i | 0 <= i < 5 ensures !Occurs(open, h, i) {
      if Occurs(open, h, i) { OccursAtQuote(open, h, kind, mac, invoice, i); }
    }
    MacaroonPlace(h, kind, mac, invoice);
    MatchIs(open, h, 5, mac, h[15 + |mac|..]);
  }

  lemma MacaroonPlace(h: string, kind: Kind, mac: string, invoice: string)
    requires Header(h, kind, mac, invoice)
    ensures |h| > 15 + |mac| && h[15 + |mac|] == '"'
    ensures h[5..] == "macaroon=\"" + mac + h[15 + |mac|..]
  {
    var tail := "\", invoice=\"" + invoice + "\"" + (if kind.Enrollment? then ", type=\"enrollment\"" else "");
    assert "L402 macaroon=\"" == "L402 " + "macaroon=\"";
    assert h == "L402 " + "macaroon=\"" + mac + tail;
    hide Header;
    ThreeParts("L402 ", "macaroon=\"", mac, tail);
  }

  lemma ThreeParts(front: string, open: string, value: string, tail: string)
    ensures var h := front + open + value + tail;
            && h[|front|..] == open + value + tail
            && h[|front| + |open| + |value|..] == tail
  {
  }

  /** Encoded bytes never end in "e=": the index of 'e' is not divisible by 4. */
  lemma NoFalseKey(macaroon: seq<Byte>)
    ensures var mac := Base64Encode(macaroon);
            |mac| >= 2 ==> !(mac[|mac| - 2] == 'e' && mac[|mac| - 1] == '=')
  {
    var mac := Base64Encode(macaroon);
    if |mac| >= 2 && mac[|mac| - 2] == 'e' && mac[|mac| - 1] == '=' {
      ZeroPadBits(macaroon, |mac| - 2);
    }
  }

  predicate EndsInKey(mac: string) {
    |mac| >= 2 && mac[|mac| - 2] == 'e' && mac[|mac| - 1] == '='
  }

  lemma MatchInvoice(h: string, kind: Kind, mac: string, invoice: string)
    requires Header(h, kind, mac, invoice) && QuoteFree(mac) && QuoteFree(invoice) && invoice != []
    requires |mac| >= 2 && !EndsInKey(mac)
    ensures Match("invoice=\"", h) == Some(invoice)
  {
    var open, m, n := "invoice=\"", |mac|, |invoice|;
    assert h[6] == 'a';
    assert h[13 + m] == mac[m - 2] && h[14 + m] == mac[m - 1];
    forall i | 0 <= i < 18 + m ensures !Occurs(open, h, i) {
      if Occurs(open, h, i) { OccursAtQuote(open, h, kind, mac, invoice, i); }
    }
    var rest := h[27 + m + n..];
    assert h[18 + m..] == open + invoice + rest;
    MatchIs(open, h, 18 + m, invoice, rest);
  }

  /** Before the closing quote of the invoice there is no place for `type="`, unless the invoice brings it. */
  lemma NoTypeBefore(h: string, kind: Kind, mac: string, invoice: string, i: int)
    requires Header(h, kind, mac, invoice) && QuoteFree(mac) && QuoteFree(invoice)
    requires |mac| >= 2 && !EndsInKey(mac)
    requires 0 <= i < 22 + |mac| + |invoice|
    ensures !Occurs("type=\"", h, i)
  {
    var open, m, n := "type=\"", |mac|, |invoice|;
    assert h[9] == 'r';
    assert h[13 + m] == mac[m - 2] && h[14 + m] == mac[m - 1];
    assert h[21 + m] == 'o';
    if Occurs(open, h, i) { OccursAtQuote(open, h, kind, mac, invoice, i); }
  }

  /** `type="` at the end of the invoice means that the invoice ends in "type=". */
  lemma TypeAtInvoiceEnd(h: string, kind: Kind, mac: string, invoice: string)
    requires Header(h, kind, mac, invoice)
    ensures Occurs("type=\"", h, 22 + |mac| + |invoice|) <==> EndsWith(invoice, "type=")
  {
    if EndsWith(invoice, "type=") {
      InvoiceEndOccurs(h, kind, mac, invoice);
    } else if Occurs("type=\"", h, 22 + |mac| + |invoice|) {
      OccursAtInvoiceEnd(h, kind, mac, invoice);
    }
  }

  lemma InvoiceEndOccurs(h: string, kind: Kind, mac: string, invoice: string)
    requires Header(h, kind, mac, invoice) && EndsWith(invoice, "type=")
    ensures Occurs("type=\"", h, 22 + |mac| + |invoice|)
  {
    var m, n := |mac|, |invoice|;
    var open, tail := "type=\"", h[22 + m + n..];
    var end := invoice[n - 5..];
    assert forall k :: 0 <= k < 5 ==> tail[k] == end[k];
    assert forall k :: 0 <= k < 6 ==> tail[k] == open[k];
    assert tail[..6] == open;
  }

  lemma OccursAtInvoiceEnd(h: string, kind: Kind, mac: string, invoice: string)
    requires Header(h, kind, mac, invoice) && Occurs("type=\"", h, 22 + |mac| + |invoice|)
    ensures EndsWith(invoice, "type=")
  {
    OccursAt("type=\"", h, 22 + |mac| + |invoice|);
    InvoicePlace(h, kind, mac, invoice);
    hide Header, Occurs;
    LettersBeforeQuote(h, invoice, 27 + |mac|, "type=\"");
  }

  lemma InvoicePlace(h: string, kind: Kind, mac: string, invoice: string)
    requires Header(h, kind, mac, invoice)
    ensures forall k :: 0 <= k < |invoice| ==> h[27 + |mac| + k] == invoice[k]
    ensures h[26 + |mac|] == '"'
  {
  }

  /** The quote before an invoice of fewer than five letters is in the way of `type=`. */
  lemma LettersBeforeQuote(h: string, invoice: string, p: nat, open: string)
    requires p >= 5 && p + |invoice| < |h| && h[p - 1] == '"'
    requires forall k :: 0 <= k < |invoice| ==> h[p + k] == invoice[k]
    requires open == "type=\"" && forall j :: 0 <= j < 6 ==> h[p + |invoice| - 5 + j] == open[j]
    ensures EndsWith(invoice, "type=")
  {
    var n, letters := |invoice|, "type=";
    var i := p + n - 5;
    assert h[i + 0] == open[0] && h[i + 1] == open[1] && h[i + 2] == open[2];
    assert h[i + 3] == open[3] && h[i + 4] == open[4];
    assert n != 0 && n != 1 && n != 2 && n != 3 && n != 4;
    var end := invoice[n - 5..];
    assert open[..5] == letters;
    forall k | 0 <= k < 5 ensures end[k] == letters[k] {
      assert h[p + (n - 5 + k)] == invoice[n - 5 + k] == end[k];
      assert h[p + n - 5 + k] == open[k];
    }
    assert end == letters;
  }

  lemma MatchType(h: string, kind: Kind, mac: string, invoice: string)
    requires Header(h, kind, mac, invoice) && QuoteFree(mac) && QuoteFree(invoice)
    requires |mac| >= 2 && !EndsInKey(mac)
    ensures Match("type=\"", h) ==
            if kind.Toll? then None
            else if EndsWith(invoice, "type=") then Some(", type=")
            else Some("enrollment")
  {
    NoTypeInside(h, kind, mac, invoice);
    TypeAtInvoiceEnd(h, kind, mac, invoice);
    if kind.Toll? {
      MatchIsNone("type=\"", h);
    } else if EndsWith(invoice, "type=") {
      MatchInvoiceEnd(h, mac, invoice);
    } else {
      MatchEnrollment(h, mac, invoice);
    }
  }

  lemma NoTypeInside(h: string, kind: Kind, mac: string, invoice: string)
    requires Header(h, kind, mac, invoice) && QuoteFree(mac) && QuoteFree(invoice)
    requires |mac| >= 2 && !EndsInKey(mac)
    ensures forall i :: 0 <= i < 22 + |mac| + |invoice| ==> !Occurs("type=\"", h, i)
  {
    forall i | 0 <= i < 22 + |mac| + |invoice| ensures !Occurs("type=\"", h, i) {
      NoTypeBefore(h, kind, mac, invoice, i);
    }
  }

  lemma SplitAtOccurrence(h: string, front: string, tail: string, open: string, k: nat)
    requires h == front + tail && |front| == k + |open| && Occurs(open, h, k)
    ensures h[k..] == open + tail
  {
    assert h[k..][|open|..] == h[k + |open|..] == tail;
    assert h[k..] == h[k..][..|open|] + h[k..][|open|..];
  }

  lemma MatchInvoiceEnd(h: string, mac: string, invoice: string)
    requires Header(h, Enrollment, mac, invoice)
    requires forall i :: 0 <= i < 22 + |mac| + |invoice| ==> !Occurs("type=\"", h, i)
    requires Occurs("type=\"", h, 22 + |mac| + |invoice|)
    ensures Match("type=\"", h) == Some(", type=")
  {
    var k := 22 + |mac| + |invoice|;
    var open, rest := "type=\"", "\"enrollment\"";
    var front := "L402 macaroon=\"" + mac + "\", invoice=\"" + invoice + "\"";
    assert ", type=\"enrollment\"" == ", type=" + rest;
    SplitAtOccurrence(h, front, ", type=" + rest, open, k);
    assert open + (", type=" + rest) == open + ", type=" + rest;
    MatchIs(open, h, k, ", type=", rest);
  }

  lemma MatchEnrollment(h: string, mac: string, invoice: string)
    requires Header(h, Enrollment, mac, invoice) && QuoteFree(mac) && QuoteFree(invoice)
    requires forall i :: 0 <= i <= 22 + |mac| + |invoice| ==> !Occurs("type=\"", h, i)
    ensures Match("type=\"", h) == Some("enrollment")
  {
    var open, k := "type=\"", 30 + |mac| + |invoice|;
    forall i | 0 <= i < k ensures !Occurs(open, h, i) {
      if Occurs(open, h, i) { OccursAtQuote(open, h, Enrollment, mac, invoice, i); }
    }
    assert h[k..] == open + "enrollment" + "\"";
    MatchIs(open, h, k, "enrollment", "\"");
  }

  /**
   What the client reads is what the proxy printed.  The macaroon can never
   confuse the three patterns; an invoice can only by ending in "type=" (the
   bech32 letters of an invoice include no '=').
  */
  lemma ChallengeRoundTrip(kind: Kind, macaroon: seq<Byte>, invoice: string)
    requires macaroon != [] && invoice != [] && QuoteFree(invoice)
    ensures ParseChallenge(ChallengeHeader(kind, macaroon, invoice)) ==
            Some(Parsed(Base64Encode(macaroon), invoice, TypeName(kind)))
            <==> kind.Toll? || !EndsWith(invoice, "type=")
  {
    var h, mac := ChallengeHeader(kind, macaroon, invoice), Base64Encode(macaroon);
    Base64IsBase64(macaroon);
    NoFalseKey(macaroon);
    Base64IsLong(macaroon);
    MatchMacaroon(h, kind, mac, invoice);
    MatchInvoice(h, kind, mac, invoice);
    MatchType(h, kind, mac, invoice);
  }

  lemma Base64IsLong(b: seq<Byte>)
    requires b != []
    ensures |Base64Encode(b)| >= 4
  {
  }

  // --- The token ---

  /** What decodeToken and paymentHashFromID need of a macaroon: its identifier, if the bytes are one. */
  type Unmarshal = seq<Byte> -> Option<string>

  datatype Decoded = Decoded(id: string, preimage: seq<Byte>)

  /** The proxy's view of an Authorization header; key is the anti-replay key. */
  datatype TokenView = NoToken | Malformed | Token(key: string, preimageOk: bool)

  /** buildAuthHeader. */
  function BuildAuthHeader(macaroon: string, preimage: string): string {
    "L402 " + macaroon + ":" + preimage
  }

  function ExtractToken(auth: string): Option<string> {
    if "L402 " <= auth then Some(auth[5..]) else None
  }

  /** strings.SplitN(s, ":", 2), when it yields two parts. */
  function SplitAtColon(s: string): Option<(string, string)> {
    if s == [] then None
    else if s[0] == ':' then Some(([], s[1..]))
    else match SplitAtColon(s[1..])
      case None => None
      case Some((a, b)) => Some(([s[0]] + a, b))
  }

  function DecodeToken(s: string, unmarshal: Unmarshal): Result<Decoded> {
    var parts := SplitAtColon(s);
    if parts.None? then Err
    else
      var raw := Base64Decode(parts.value.0);
      if raw.Err? then Err
      else
        var id := unmarshal(raw.value);
        if id.None? then Err
        else
          var preimage := HexDecode(parts.value.1);
          if preimage.Err? || |preimage.value| != 32 then Err
          else Ok(Decoded(id.value, preimage.value))
  }

  function PaymentHashFromId(id: string): Result<seq<Byte>> {
    var h := HexDecode(id);
    if h.Err? || |h.value| != 32 then Err else h
  }

  function ViewAuthorization(auth: string, unmarshal: Unmarshal, sha256: seq<Byte> -> seq<Byte>): TokenView {
    var token := ExtractToken(auth);
    if token.None? then NoToken
    else
      var tok := DecodeToken(token.value, unmarshal);
      if tok.Err? then Malformed
      else
        var hash := PaymentHashFromId(tok.value.id);
        if hash.Err? then Malformed
        else Token(HexEncode(hash.value), sha256(tok.value.preimage) == hash.value)
  }

  /** What an Authorization header is made of. */
  datatype AuthParts = AuthParts(
    macaroon: string, hex: string, raw: seq<Byte>, id: string, preimage: seq<Byte>, hash: seq<Byte>)

  predicate Carried(auth: string, parts: AuthParts, unmarshal: Unmarshal) {
    && auth == "L402 " + parts.macaroon + ":" + parts.hex && ':' !in parts.macaroon
    && Base64Decode(parts.macaroon) == Ok(parts.raw) && unmarshal(parts.raw) == Some(parts.id)
    && HexDecode(parts.hex) == Ok(parts.preimage) && |parts.preimage| == 32
    && HexDecode(parts.id) == Ok(parts.hash) && |parts.hash| == 32
  }

  lemma {:induction false} SplitIs(s: string)
    ensures match SplitAtColon(s)
            case None => ':' !in s
            case Some((a, b)) => s == a + ":" + b && ':' !in a
  {
    if s == [] {
    } else if s[0] == ':' {
      assert s == [] + ":" + s[1..];
    } else {
      SplitIs(s[1..]);
      assert s == [s[0]] + s[1..];
    }
  }

  /** A header that the proxy takes for a token has all the parts, and is seen as what they say. */
  lemma TokenHasParts(auth: string, unmarshal: Unmarshal, sha256: seq<Byte> -> seq<Byte>) returns (parts: AuthParts)
    requires ViewAuthorization(auth, unmarshal, sha256).Token?
    ensures Carried(auth, parts, unmarshal)
    ensures ViewAuthorization(auth, unmarshal, sha256) ==
            Token(HexEncode(parts.hash), sha256(parts.preimage) == parts.hash)
  {
    hide Base64Decode, HexDecode, HexEncode;
    var rest := auth[5..];
    var (a, b) := SplitAtColon(rest).value;
    SplitIs(rest);
    assert auth == "L402 " + rest;
    var raw := Base64Decode(a).value;
    var id := unmarshal(raw).value;
    parts := AuthParts(a, b, raw, id, HexDecode(b).value, HexDecode(id).value);
    assert auth == "L402 " + a + ":" + b;
  }

  /** Every header with these parts is seen so. */
  lemma PartsMakeToken(auth: string, parts: AuthParts, unmarshal: Unmarshal, sha256: seq<Byte> -> seq<Byte>)
    requires Carried(auth, parts, unmarshal)
    ensures ViewAuthorization(auth, unmarshal, sha256) ==
            Token(HexEncode(parts.hash), sha256(parts.preimage) == parts.hash)
  {
    hide Base64Decode, HexDecode, HexEncode;
    assert auth[5..] == parts.macaroon + ":" + parts.hex;
    SplitsAt(parts.macaroon, parts.hex);
  }

  /** No token is seen exactly in a header of another scheme, or none. */
  lemma NoTokenIff(auth: string, unmarshal: Unmarshal, sha256: seq<Byte> -> seq<Byte>)
    ensures ViewAuthorization(auth, unmarshal, sha256).NoToken? <==> !("L402 " <= auth)
  {
  }

  lemma {:induction false} SplitsAt(a: string, b: string)
    requires forall i :: 0 <= i < |a| ==> a[i] != ':'
    ensures SplitAtColon(a + ":" + b) == Some((a, b))
  {
    var s := a + ":" + b;
    if a == [] {
      assert s[1..] == b;
    } else {
      SplitsAt(a[1..], b);
      assert s[1..] == a[1..] + ":" + b;
      assert a == [a[0]] + a[1..];
    }
  }

  /** Whatever the client joins, the proxy takes apart: any macaroon, any 32-byte preimage, hex in any case. */
  lemma TokenRoundTrip(raw: seq<Byte>, id: string, hex: string, preimage: seq<Byte>, unmarshal: Unmarshal)
    requires unmarshal(raw) == Some(id)
    requires HexDecode(hex) == Ok(preimage) && |preimage| == 32
    ensures var token := ExtractToken(BuildAuthHeader(Base64Encode(raw), hex));
            token.Some? && DecodeToken(token.value, unmarshal) == Ok(Decoded(id, preimage))
  {
    var mac := Base64Encode(raw);
    assert BuildAuthHeader(mac, hex)[5..] == mac + ":" + hex;
    Base64IsBase64(raw);
    SplitsAt(mac, hex);
    Base64RoundTrip(raw);
  }

  /** The anti-replay key is the identifier in lower case. */
  lemma KeyIsLowerCaseId(id: string)
    requires PaymentHashFromId(id).Ok?
    ensures HexEncode(PaymentHashFromId(id).value) == Lower(id)
  {
    HexReencodes(id);
  }

  /** One key per payment: two identifiers share it exactly if they decode to one hash. */
  lemma OneKeyPerHash(id1: string, id2: string)
    requires PaymentHashFromId(id1).Ok? && PaymentHashFromId(id2).Ok?
    ensures var h1, h2 := PaymentHashFromId(id1).value, PaymentHashFromId(id2).value;
            && (HexEncode(h1) == HexEncode(h2) <==> h1 == h2)
            && (h1 == h2 <==> Lower(id1) == Lower(id2))
  {
    var h1, h2 := PaymentHashFromId(id1).value, PaymentHashFromId(id2).value;
    HexRoundTrip(h1);
    HexRoundTrip(h2);
    KeyIsLowerCaseId(id1);
    KeyIsLowerCaseId(id2);
  }

  /**
   The whole loop: a challenge for a payment hash, parsed by the client, paid and
   sent back, reaches the verifier as that payment's key with a matching preimage.
  */
  lemma ChallengeBecomesToken(kind: Kind, raw: seq<Byte>, hash: seq<Byte>, invoice: string, preimage: seq<Byte>,
                              unmarshal: Unmarshal, sha256: seq<Byte> -> seq<Byte>)
    requires raw != [] && |hash| == 32 && unmarshal(raw) == Some(HexEncode(hash))
    requires invoice != [] && QuoteFree(invoice) && !EndsWith(invoice, "type=")
    requires |preimage| == 32 && sha256(preimage) == hash
    ensures var c := ParseChallenge(ChallengeHeader(kind, raw, invoice));
            && c.Some? && c.value.invoice == invoice && c.value.kind == TypeName(kind)
            && ViewAuthorization(BuildAuthHeader(c.value.macaroon, HexEncode(preimage)), unmarshal, sha256)
               == Token(HexEncode(hash), true)
  {
    ChallengeRoundTrip(kind, raw, invoice);
    HexRoundTrip(preimage);
    HexRoundTrip(hash);
    TokenRoundTrip(raw, HexEncode(hash), HexEncode(preimage), preimage, unmarshal);
  }
}
