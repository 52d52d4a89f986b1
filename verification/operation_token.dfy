/** Operation tokens: a prefix, a base64url body without padding and a signature, joined by dots.
    The JSON text and the HMAC are parameters. */
module OperationToken {
  import opened Wrappers
  import Text

  type byte = b: nat | b < 256

  // ---------------------------------------------------------------- base64url

  // Section 5 of RFC 4648.
  type Sextet = n: nat | n < 64

  function Letter(n: Sextet): char {
    if n < 26 then 'A' + n as char
    else if n < 52 then 'a' + (n - 26) as char
    else if n < 62 then '0' + (n - 52) as char
    else if n == 62 then '-'
    else '_'
  }

  predicate IsLetter(c: char) {
    'A' <= c <= 'Z' || 'a' <= c <= 'z' || '0' <= c <= '9' || c == '-' || c == '_'
  }

  function Value(c: char): Sextet
    requires IsLetter(c)
  {
    if 'A' <= c <= 'Z' then (c - 'A') as int
    else if 'a' <= c <= 'z' then (c - 'a') as int + 26
    else if '0' <= c <= '9' then (c - '0') as int + 52
    else if c == '-' then 62
    else 63
  }

  lemma LetterValue(n: Sextet)
    ensures IsLetter(Letter(n)) && Value(Letter(n)) == n
  {
  }

  // Table 2 of RFC 4648, section 5.
  const UPPER := "ABCDEFGHIJKLMNOPQRSTUVWXYZ"
  const LOWER := "abcdefghijklmnopqrstuvwxyz"
  const ALPHABET := UPPER + LOWER + "0123456789" + "-_"

  lemma LetterIs(n: Sextet)
    ensures |ALPHABET| == 64 && Letter(n) == ALPHABET[n]
  {
    if n < 26 {
      UpperLetters(n);
    } else if n < 52 {
      LowerLetters(n - 26);
    } else if n < 62 {
      Digits(n - 52);
    }
  }

  lemma UpperLetters(n: Sextet)
    requires n < 26
    ensures UPPER[n] == 'A' + n as char
  {
  }

  lemma LowerLetters(n: Sextet)
    requires n < 26
    ensures LOWER[n] == 'a' + n as char
  {
  }

  lemma Digits(n: Sextet)
    requires n < 10
    ensures "0123456789"[n] == '0' + n as char
  {
  }

  predicate AllLetters(s: string) {
    forall i :: 0 <= i < |s| ==> IsLetter(s[i])
  }

  // The four sextets of the bytes x, y, z, and back.
  function S0(x: byte): Sextet { x / 4 }
  function S1(x: byte, y: byte): Sextet { x % 4 * 16 + y / 16 }
  function S2(y: byte, z: byte): Sextet { y % 16 * 4 + z / 64 }
  function S3(z: byte): Sextet { z % 64 }

  function B0(p: Sextet, q: Sextet): byte { var n: nat := p; n * 4 + q / 16 }
  function B1(q: Sextet, r: Sextet): byte { var n: nat := q % 16; n * 16 + r / 4 }
  function B2(r: Sextet, s: Sextet): byte { var n: nat := r % 4; n * 64 + s }

  lemma Regroup(x: byte, y: byte, z: byte)
    ensures B0(S0(x), S1(x, y)) == x && B1(S1(x, y), S2(y, z)) == y && B2(S2(y, z), S3(z)) == z
  {
  }

  // Four sextets are the same 24-bit number as the three bytes, which leaves them no choice.
  lemma SameNumber(x: byte, y: byte, z: byte)
    ensures S0(x) * 262144 + S1(x, y) * 4096 + S2(y, z) * 64 + S3(z) == x * 65536 + y * 256 + z
  {
  }

  // Three bytes become four sextets; a last group of one or two bytes is filled up with zero bits.
  function ToSextets(b: seq<byte>): seq<Sextet> {
    if |b| == 0 then []
    else if |b| == 1 then [S0(b[0]), S1(b[0], 0)]
    else if |b| == 2 then [S0(b[0]), S1(b[0], b[1]), S2(b[1], 0)]
    else [S0(b[0]), S1(b[0], b[1]), S2(b[1], b[2]), S3(b[2])] + ToSextets(b[3..])
  }

  // The bits a last group leaves over are ignored.
  function FromSextets(v: seq<Sextet>): seq<byte> {
    if |v| < 2 then []
    else if |v| == 2 then [B0(v[0], v[1])]
    else if |v| == 3 then [B0(v[0], v[1]), B1(v[1], v[2])]
    else [B0(v[0], v[1]), B1(v[1], v[2]), B2(v[2], v[3])] + FromSextets(v[4..])
  }

  lemma FromGroup(p: Sextet, q: Sextet, r: Sextet, s: Sextet, rest: seq<Sextet>)
    ensures FromSextets([p, q, r, s] + rest) == [B0(p, q), B1(q, r), B2(r, s)] + FromSextets(rest)
  {
    assert ([p, q, r, s] + rest)[4..] == rest;
  }

  lemma {:induction false} FromToSextets(b: seq<byte>)
    ensures FromSextets(ToSextets(b)) == b
  {
    if |b| >= 3 {
      FromToSextets(b[3..]);
      FromGroup(S0(b[0]), S1(b[0], b[1]), S2(b[1], b[2]), S3(b[2]), ToSextets(b[3..]));
      Regroup(b[0], b[1], b[2]);
      assert b == [b[0], b[1], b[2]] + b[3..];
    } else if |b| == 2 {
      assert b == [b[0], b[1]];
      FromToTwo(b[0], b[1]);
    } else if |b| == 1 {
      assert b == [b[0]];
      FromToOne(b[0]);
    }
  }

  lemma FromShortGroup(p: Sextet, q: Sextet, r: Sextet)
    ensures FromSextets([p, q]) == [B0(p, q)] && FromSextets([p, q, r]) == [B0(p, q), B1(q, r)]
  {
  }

  lemma FromToOne(x: byte)
    ensures FromSextets(ToSextets([x])) == [x]
  {
    FromShortGroup(S0(x), S1(x, 0), 0);
    Regroup(x, 0, 0);
  }

  lemma FromToTwo(x: byte, y: byte)
    ensures FromSextets(ToSextets([x, y])) == [x, y]
  {
    FromShortGroup(S0(x), S1(x, y), S2(y, 0));
    Regroup(x, y, 0);
  }

  // Padding fills the last group of three bytes, or equally the last group of four sextets.
  function Pads(b: seq<byte>): nat {
    (3 - |b| % 3) % 3
  }

  lemma {:induction false} SextetCount(b: seq<byte>)
    ensures |ToSextets(b)| == |b| / 3 * 4 + if |b| % 3 == 0 then 0 else |b| % 3 + 1
  {
    if |b| >= 3 {
      SextetCount(b[3..]);
    }
  }

  lemma PadArithmetic(groups: nat, left: nat, count: nat)
    requires left < 3 && count == groups * 4 + if left == 0 then 0 else left + 1
    ensures count % 4 != 1 && (4 - count % 4) % 4 == (3 - left) % 3
  {
    assert count % 4 == if left == 0 then 0 else left + 1;
  }

  function Letters(v: seq<Sextet>): (s: string)
    ensures |s| == |v| && AllLetters(s)
  {
    seq(|v|, i requires 0 <= i < |v| => LetterValue(v[i]); Letter(v[i]))
  }

  function Values(s: string): seq<Sextet>
    requires AllLetters(s)
  {
    seq(|s|, i requires 0 <= i < |s| => Value(s[i]))
  }

  lemma ValuesOfLetters(v: seq<Sextet>)
    ensures Values(Letters(v)) == v
  {
    forall i | 0 <= i < |v| ensures Values(Letters(v))[i] == v[i] { LetterValue(v[i]); }
  }

  function Padding(n: nat): string {
    seq(n, _ => '=')
  }

  function StripPadding(s: string): string {
    if |s| > 0 && s[|s| - 1] == '=' then StripPadding(s[..|s| - 1]) else s
  }

  // Padded to a multiple of four characters.
  function Encode(b: seq<byte>): string {
    Letters(ToSextets(b)) + Padding(Pads(b))
  }

  // The first vectors of section 10 of RFC 4648.
  lemma Vectors()
    ensures Encode([]) == "" && Encode([102]) == "Zg==" && Encode([102, 111]) == "Zm8="
    ensures Encode([102, 111, 111]) == "Zm9v"
  {
    assert [102, 111, 111][3..] == [];
    assert ToSextets([102, 111, 111]) == [25, 38, 61, 47] + ToSextets([]);
  }

  function Decode(s: string): Option<seq<byte>> {
    var core := StripPadding(s);
    if |core| % 4 == 1 || |s| - |core| != (4 - |core| % 4) % 4 || !AllLetters(core) then None
    else Some(FromSextets(Values(core)))
  }

  // ---------------------------------------------------------------- dropping and restoring the padding

  // Appends "=" * (-len % 4).
  function RestorePadding(s: string): string {
    s + Padding((4 - |s| % 4) % 4)
  }

  function Body(b: seq<byte>): string {
    StripPadding(Encode(b))
  }

  lemma {:induction false} StripLetters(s: string, n: nat)
    requires AllLetters(s)
    ensures StripPadding(s + Padding(n)) == s
  {
    if n == 0 {
      assert s + Padding(n) == s;
    } else {
      var t := s + Padding(n);
      assert t[..|t| - 1] == s + Padding(n - 1);
      StripLetters(s, n - 1);
    }
  }

  lemma BodyIsLetters(b: seq<byte>)
    ensures Body(b) == Letters(ToSextets(b))
  {
    StripLetters(Letters(ToSextets(b)), Pads(b));
  }

  // Padding counted from the letters is padding counted from the bytes.
  lemma PadsAgree(b: seq<byte>)
    ensures |ToSextets(b)| % 4 != 1 && (4 - |ToSextets(b)| % 4) % 4 == Pads(b)
  {
    SextetCount(b);
    PadArithmetic(|b| / 3, |b| % 3, |ToSextets(b)|);
  }

  lemma DecodePadded(core: string, n: nat)
    requires AllLetters(core) && |core| % 4 != 1 && n == (4 - |core| % 4) % 4
    ensures Decode(core + Padding(n)) == Some(FromSextets(Values(core)))
  {
    StripLetters(core, n);
  }

  lemma RestoreLetters(core: string, n: nat)
    requires n == (4 - |core| % 4) % 4
    ensures RestorePadding(core) == core + Padding(n)
  {
  }

  lemma DecodeEncode(b: seq<byte>)
    ensures Decode(Encode(b)) == Some(b)
  {
    PadsAgree(b);
    DecodePadded(Letters(ToSextets(b)), Pads(b));
    ValuesOfLetters(ToSextets(b));
    FromToSextets(b);
  }

  lemma RestoreBody(b: seq<byte>)
    ensures RestorePadding(Body(b)) == Encode(b)
  {
    BodyIsLetters(b);
    PadsAgree(b);
    RestoreLetters(Letters(ToSextets(b)), Pads(b));
  }

  lemma BodyShape(b: seq<byte>)
    ensures AllLetters(Body(b)) && |Body(b)| % 4 != 1
  {
    BodyIsLetters(b);
    PadsAgree(b);
  }

  /** Section 3.2 of RFC 4648 lets padding be dropped when the length is known: the length of a
      stripped encoding is never 1 modulo 4, and `-len % 4` characters restore exactly what was dropped. */
  lemma PaddingRoundTrip(b: seq<byte>)
    ensures AllLetters(Body(b)) && |Body(b)| % 4 != 1
    ensures RestorePadding(Body(b)) == Encode(b)
    ensures Decode(RestorePadding(Body(b))) == Some(b)
  {
    BodyShape(b);
    RestoreBody(b);
    DecodeEncode(b);
  }

  // ---------------------------------------------------------------- signed tokens

  datatype Scheme<!P> = Scheme(
    hmac: string -> string,
    dumps: P -> seq<byte>,
    loads: seq<byte> -> Option<P>,
    kind: P -> Option<string>)

  /** Missing: no token was sent. Invalid: a 409 with "Invalid event-store operation token".
      Raised: non-ASCII text reaches `encode("ascii")` or `compare_digest`, outside the try blocks. */
  datatype Outcome<+P> = Ok(payload: P) | Missing | Invalid | Raised

  function Sign<P>(scheme: Scheme<P>, payload: P): string {
    var encoded := Body(scheme.dumps(payload));
    "psaevt." + encoded + "." + scheme.hmac(encoded)
  }

  // The index of the first dot, or the length if there is none.
  function FirstDot(s: string): (i: nat)
    ensures i <= |s| && (i < |s| ==> s[i] == '.') && '.' !in s[..i]
  {
    if |s| == 0 || s[0] == '.' then 0
    else
      assert forall i: nat :: i <= |s[1..]| ==> s[..i + 1] == [s[0]] + s[1..][..i];
      1 + FirstDot(s[1..])
  }

  // token.split(".", 2), or None where it yields fewer than three parts.
  function Split(token: string): Option<(string, string, string)> {
    var i := FirstDot(token);
    if i == |token| then None
    else
      var rest := token[i + 1..];
      var j := FirstDot(rest);
      if j == |rest| then None else Some((token[..i], rest[..j], rest[j + 1..]))
  }

  function DecodeToken<P>(scheme: Scheme<P>, token: Option<string>, expectedKind: string): Outcome<P> {
    if token == None || token == Some("") then Missing
    else
      match Split(token.value)
      case None => Invalid
      case Some((prefix, encoded, signature)) =>
        if prefix != "psaevt" then Invalid
        else if !Text.Ascii(encoded) || !Text.Ascii(signature) then Raised
        else if scheme.hmac(encoded) != signature then Invalid
        else
          match Decode(RestorePadding(encoded))
          case None => Invalid
          case Some(bytes) =>
            match scheme.loads(bytes)
            case None => Invalid
            case Some(payload) => if scheme.kind(payload) == Some(expectedKind) then Ok(payload) else Invalid
  }

  lemma {:induction false} FirstDotAt(a: string, b: string)
    requires '.' !in a
    ensures FirstDot(a + "." + b) == |a|
  {
    var s := a + "." + b;
    if |a| > 0 {
      assert s[0] == a[0] && a[0] in a && s[1..] == a[1..] + "." + b;
      FirstDotAt(a[1..], b);
    }
  }

  lemma CutAt(s: string, i: nat)
    requires i < |s| && s[i] == '.'
    ensures s == s[..i] + "." + s[i + 1..]
  {
  }

  // The three-way split recovers any dot-free prefix and body, whatever the signature holds.
  lemma SplitJoin(prefix: string, encoded: string, signature: string)
    requires '.' !in prefix && '.' !in encoded
    ensures Split(prefix + "." + encoded + "." + signature) == Some((prefix, encoded, signature))
  {
    var rest := encoded + "." + signature;
    var token := prefix + "." + encoded + "." + signature;
    assert token == prefix + "." + rest;
    FirstDotAt(prefix, rest);
    assert token[|prefix| + 1..] == rest && token[..|prefix|] == prefix;
    FirstDotAt(encoded, signature);
    assert rest[..|encoded|] == encoded && rest[|encoded| + 1..] == signature;
  }

  lemma JoinSplit(token: string)
    requires Split(token).Some?
    ensures var (prefix, encoded, signature) := Split(token).value;
            token == prefix + "." + encoded + "." + signature && '.' !in prefix && '.' !in encoded
  {
    var i := FirstDot(token);
    CutAt(token, i);
    CutAt(token[i + 1..], FirstDot(token[i + 1..]));
    var (prefix, encoded, signature) := Split(token).value;
    assert token[i + 1..] == encoded + "." + signature;
    Reassociate(prefix, encoded, signature);
  }

  lemma Reassociate(prefix: string, encoded: string, signature: string)
    ensures prefix + "." + (encoded + "." + signature) == prefix + "." + encoded + "." + signature
  {
  }

  lemma LettersAreAsciiAndDotFree(s: string)
    requires AllLetters(s)
    ensures Text.Ascii(s) && '.' !in s
  {
  }

  ghost predicate Accepts<P>(scheme: Scheme<P>, token: string, kind: string, payload: P, encoded: string) {
    && '.' !in encoded && token == "psaevt." + encoded + "." + scheme.hmac(encoded)
    && Text.Ascii(encoded) && Text.Ascii(scheme.hmac(encoded))
    && var bytes := Decode(RestorePadding(encoded));
    && bytes.Some? && scheme.loads(bytes.value) == Some(payload) && scheme.kind(payload) == Some(kind)
  }

  lemma OkMeansAccepts<P>(scheme: Scheme<P>, token: string, kind: string, payload: P)
    requires DecodeToken(scheme, Some(token), kind) == Ok(payload)
    ensures Split(token).Some? && Accepts(scheme, token, kind, payload, Split(token).value.1)
  {
    var encoded, signature := Split(token).value.1, Split(token).value.2;
    assert token == "psaevt." + encoded + "." + signature && '.' !in encoded by {
      JoinSplit(token);
      assert "psaevt" + "." == "psaevt.";
    }
    assert Decode(RestorePadding(encoded)).Some?;
  }

  lemma AcceptsMeansOk<P>(scheme: Scheme<P>, token: string, kind: string, payload: P, encoded: string)
    requires Accepts(scheme, token, kind, payload, encoded)
    ensures DecodeToken(scheme, Some(token), kind) == Ok(payload)
  {
    assert token == "psaevt" + "." + encoded + "." + scheme.hmac(encoded);
    SplitJoin("psaevt", encoded, scheme.hmac(encoded));
  }

  // A token is accepted exactly when it is this server's signature over the body it is decoded from.
  lemma AcceptedIffSigned<P>(scheme: Scheme<P>, token: string, kind: string, payload: P)
    ensures DecodeToken(scheme, Some(token), kind) == Ok(payload) <==>
              exists encoded :: Accepts(scheme, token, kind, payload, encoded)
  {
    if DecodeToken(scheme, Some(token), kind) == Ok(payload) {
      OkMeansAccepts(scheme, token, kind, payload);
    }
    if encoded :| Accepts(scheme, token, kind, payload, encoded) {
      AcceptsMeansOk(scheme, token, kind, payload, encoded);
    }
  }

  // Decoding a signed token as its own kind returns exactly the payload that was signed; as any other
  // kind it is refused.
  lemma DecodeSigned<P>(scheme: Scheme<P>, payload: P, kind: string)
    requires scheme.loads(scheme.dumps(payload)) == Some(payload)
    requires Text.Ascii(scheme.hmac(Body(scheme.dumps(payload))))
    ensures scheme.kind(payload) == Some(kind) ==> DecodeToken(scheme, Some(Sign(scheme, payload)), kind) == Ok(payload)
    ensures scheme.kind(payload) != Some(kind) ==> !DecodeToken(scheme, Some(Sign(scheme, payload)), kind).Ok?
  {
    var encoded := Body(scheme.dumps(payload));
    var token := Sign(scheme, payload);
    PaddingRoundTrip(scheme.dumps(payload));
    LettersAreAsciiAndDotFree(encoded);
    assert token == "psaevt" + "." + encoded + "." + scheme.hmac(encoded);
    SplitJoin("psaevt", encoded, scheme.hmac(encoded));
    if scheme.kind(payload) == Some(kind) {
      AcceptsMeansOk(scheme, token, kind, payload, encoded);
    } else if DecodeToken(scheme, Some(token), kind).Ok? {
      OkMeansAccepts(scheme, token, kind, DecodeToken(scheme, Some(token), kind).payload);
    }
  }
}
