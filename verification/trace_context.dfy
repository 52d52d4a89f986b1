/** W3C traceparent values (Trace Context, section 3.2): reading them, and making them for the next hop. */
module TraceContext {
  import opened Text
  import opened Wrappers

  datatype TraceParent = TraceParent(traceId: string, parentId: string, traceFlags: string)

  // Exactly `n` lower-case hexadecimal digits.
  predicate Hex(s: string, n: nat) {
    |s| == n && forall i :: 0 <= i < n ==> LowerHex(s[i])
  }

  // Letters outside ASCII never fold to a hexadecimal digit, so folding them is of no consequence here.
  function LowerChar(c: char): char {
    if 'A' <= c <= 'Z' then c - 'A' + 'a' else c
  }

  function Lower(s: string): string {
    seq(|s|, i requires 0 <= i < |s| => LowerChar(s[i]))
  }

  function Zeros(n: nat): string {
    seq(n, _ => '0')
  }

  // (value or "").strip().lower()
  function Normalized(value: Option<string>): string {
    if value.Some? then Lower(Trim(PySpace, value.value)) else ""
  }

  // ---------------------------------------------------------------- reading

  predicate Matches(s: string) {
    && |s| == 55 && s[2] == '-' && s[35] == '-' && s[52] == '-'
    && Hex(s[..2], 2) && Hex(s[3..35], 32) && Hex(s[36..52], 16) && Hex(s[53..], 2)
  }

  function ParseTraceparent(value: Option<string>): Option<TraceParent> {
    var s := Normalized(value);
    if !Matches(s) then None
    else if s[..2] == ['f', 'f'] then None
    else if s[3..35] == Zeros(32) || s[36..52] == Zeros(16) then None
    else Some(TraceParent(s[3..35], s[36..52], s[53..]))
  }

  // ---------------------------------------------------------------- making

  // The hexadecimal SHA-256 digest, left uninterpreted.
  type Digest = string -> string

  ghost predicate HexDigest(digest: Digest) {
    forall s :: Hex(digest(s), 64)
  }

  function SpanId(digest: Digest, seed: string): string
    requires HexDigest(digest)
  {
    var span := digest(seed)[..16];
    if span == Zeros(16) then Zeros(15) + ['1'] else span
  }

  predicate ValidTraceId(s: string) {
    Hex(s, 32) && s != Zeros(32)
  }

  function Flags(flags: string): string {
    if |flags| == 2 && AnyHex(flags[0]) && AnyHex(flags[1]) then Lower(flags) else ['0', '1']
  }

  function Format(version: string, p: TraceParent): string {
    version + ['-'] + p.traceId + ['-'] + p.parentId + ['-'] + p.traceFlags
  }

  function MakeTraceparent(digest: Digest, traceId: Option<string>, seed: string, flags: string): Option<string>
    requires HexDigest(digest)
  {
    var id := Normalized(traceId);
    if !ValidTraceId(id) then None
    else Some(Format(['0', '0'], TraceParent(id, SpanId(digest, seed), Flags(flags))))
  }

  // ---------------------------------------------------------------- properties

  predicate Valid(version: string, p: TraceParent) {
    && Hex(version, 2) && version != ['f', 'f'] && Hex(p.traceFlags, 2)
    && ValidTraceId(p.traceId) && Hex(p.parentId, 16) && p.parentId != Zeros(16)
  }

  lemma FormatParts(version: string, p: TraceParent)
    requires |version| == 2 && |p.traceId| == 32 && |p.parentId| == 16 && |p.traceFlags| == 2
    ensures var s := Format(version, p);
            && |s| == 55 && s[2] == '-' && s[35] == '-' && s[52] == '-'
            && s[..2] == version && s[3..35] == p.traceId && s[36..52] == p.parentId && s[53..] == p.traceFlags
  {
  }

  predicate Dashed(s: string) {
    forall i :: 0 <= i < |s| ==> LowerHex(s[i]) || s[i] == '-'
  }

  lemma DashedConcat(a: string, b: string)
    requires Dashed(a) && Dashed(b)
    ensures Dashed(a + b)
  {
  }

  // Lower-case text without blanks is its own normal form.
  lemma DashedIsNormal(s: string)
    requires Dashed(s)
    ensures Normalized(Some(s)) == s
  {
    if s != "" {
      assert !PySpace(s[0]) && !PySpace(s[|s| - 1]);
    }
    TrimTrimmed(PySpace, s);
    assert Lower(s) == s;
  }

  lemma FormatIsDashed(version: string, p: TraceParent)
    requires Dashed(version) && Dashed(p.traceId) && Dashed(p.parentId) && Dashed(p.traceFlags)
    ensures Dashed(Format(version, p))
  {
    var dash := ['-'];
    DashedConcat(version, dash);
    DashedConcat(version + dash, p.traceId);
    DashedConcat(version + dash + p.traceId, dash);
    DashedConcat(version + dash + p.traceId + dash, p.parentId);
    DashedConcat(version + dash + p.traceId + dash + p.parentId, dash);
    DashedConcat(version + dash + p.traceId + dash + p.parentId + dash, p.traceFlags);
  }

  /** Reading a well-formed value of any version but `ff` returns its parts. */
  lemma ParseOfFormat(version: string, p: TraceParent)
    requires Valid(version, p)
    ensures ParseTraceparent(Some(Format(version, p))) == Some(p)
  {
    FormatIsDashed(version, p);
    DashedIsNormal(Format(version, p));
    FormatParts(version, p);
  }

  /** Only such values are read, up to surrounding blanks and letter case. */
  lemma ParsedIsFormat(value: Option<string>) returns (version: string)
    requires ParseTraceparent(value).Some?
    ensures Valid(version, ParseTraceparent(value).value)
    ensures Normalized(value) == Format(version, ParseTraceparent(value).value)
  {
    var s := Normalized(value);
    version := s[..2];
    assert s == s[..2] + [s[2]] + s[3..35] + [s[35]] + s[36..52] + [s[52]] + s[53..];
  }

  lemma SpanIdValid(digest: Digest, seed: string)
    requires HexDigest(digest)
    ensures Hex(SpanId(digest, seed), 16) && SpanId(digest, seed) != Zeros(16)
  {
    assert Hex(digest(seed), 64);
    assert (Zeros(15) + ['1'])[15] != Zeros(16)[15];
  }

  lemma FlagsValid(flags: string)
    ensures Hex(Flags(flags), 2)
  {
  }

  /** A value is made exactly for a valid trace identifier, and reading it back returns the normalized
      identifier, a span identifier that is not zero, and the normalized flags. */
  lemma ParseOfMake(digest: Digest, traceId: Option<string>, seed: string, flags: string)
    requires HexDigest(digest)
    ensures MakeTraceparent(digest, traceId, seed, flags).Some? <==> ValidTraceId(Normalized(traceId))
    ensures var made := MakeTraceparent(digest, traceId, seed, flags);
            made.Some? ==>
              && ParseTraceparent(made) == Some(TraceParent(Normalized(traceId), SpanId(digest, seed), Flags(flags)))
              && Hex(SpanId(digest, seed), 16) && SpanId(digest, seed) != Zeros(16) && Hex(Flags(flags), 2)
  {
    SpanIdValid(digest, seed);
    FlagsValid(flags);
    if ValidTraceId(Normalized(traceId)) {
      ParseOfFormat(['0', '0'], TraceParent(Normalized(traceId), SpanId(digest, seed), Flags(flags)));
    }
  }

  lemma FlagsKeepHex(flags: string)
    requires Hex(flags, 2)
    ensures Flags(flags) == flags
  {
    assert Lower(flags) == flags;
  }

  lemma ReadsMade(digest: Digest, traceId: Option<string>, seed: string, flags: string, id: string, f: string)
    requires HexDigest(digest) && Normalized(traceId) == id && Flags(flags) == f && ValidTraceId(id)
    ensures ParseTraceparent(MakeTraceparent(digest, traceId, seed, flags))
            == Some(TraceParent(id, SpanId(digest, seed), f))
  {
    ParseOfMake(digest, traceId, seed, flags);
  }

  lemma ValidIsDashed(version: string, p: TraceParent)
    requires Valid(version, p)
    ensures Dashed(p.traceId)
  {
  }

  /** Handing a received context on keeps its trace identifier and flags; only the parent is new. */
  lemma PropagationKeepsTrace(digest: Digest, value: Option<string>, seed: string)
    requires HexDigest(digest) && ParseTraceparent(value).Some?
    ensures var p := ParseTraceparent(value).value;
            ParseTraceparent(MakeTraceparent(digest, Some(p.traceId), seed, p.traceFlags))
            == Some(p.(parentId := SpanId(digest, seed)))
  {
    var version := ParsedIsFormat(value);
    var p := ParseTraceparent(value).value;
    ValidIsDashed(version, p);
    DashedIsNormal(p.traceId);
    FlagsKeepHex(p.traceFlags);
    ReadsMade(digest, Some(p.traceId), seed, p.traceFlags, p.traceId, p.traceFlags);
  }

  // A letter in either case, anything else as it is.
  predicate SameButForCase(text: string, lower: string) {
    |text| == |lower| && forall i :: 0 <= i < |text| ==>
      text[i] == lower[i] || ('A' <= text[i] <= 'F' && text[i] as int + 32 == lower[i] as int)
  }

  lemma LowersTo(text: string, lower: string)
    requires SameButForCase(text, lower) && Dashed(lower)
    ensures Lower(text) == lower
  {
    forall i | 0 <= i < |text| ensures LowerChar(text[i]) == lower[i] {
      assert LowerHex(lower[i]) || lower[i] == '-';
    }
  }

  lemma NoBlanks(text: string, lower: string, before: string, after: string)
    requires SameButForCase(text, lower) && Dashed(lower) && text != ""
    requires Spaces(PySpace, before, 0, |before|) && Spaces(PySpace, after, 0, |after|)
    ensures Trim(PySpace, before + text + after) == text
  {
    var s, i, j := before + text + after, |before|, |before| + |text|;
    assert LowerHex(lower[0]) || lower[0] == '-';
    assert LowerHex(lower[|lower| - 1]) || lower[|lower| - 1] == '-';
    assert s[i] == text[0] && s[j - 1] == text[|text| - 1] && s[i..j] == text;
    assert forall k :: j <= k < |s| ==> s[k] == after[k - j];
    TrimIs(PySpace, s, i, j);
  }

  /** A well-formed value is read in either case and with blanks around it. */
  lemma ReadsAnyCase(version: string, p: TraceParent, text: string, before: string, after: string)
    requires Valid(version, p) && SameButForCase(text, Format(version, p))
    requires Spaces(PySpace, before, 0, |before|) && Spaces(PySpace, after, 0, |after|)
    ensures ParseTraceparent(Some(before + text + after)) == Some(p)
  {
    var s := Format(version, p);
    FormatIsDashed(version, p);
    FormatParts(version, p);
    NoBlanks(text, s, before, after);
    LowersTo(text, s);
    DashedIsNormal(s);
    ParseOfFormat(version, p);
  }

  /** What is handed on, spelled out: version 00, the identifier, the first sixteen digits of the digest or a
      one where these are all zero, and the two given flag digits in lower case or else the sampled flag. */
  lemma MadeIs(digest: Digest, traceId: Option<string>, seed: string, flags: string)
    requires HexDigest(digest) && ValidTraceId(Normalized(traceId))
    ensures var span := if digest(seed)[..16] == "0000000000000000" then "0000000000000001" else digest(seed)[..16];
            MakeTraceparent(digest, traceId, seed, flags)
            == Some("00" + "-" + Normalized(traceId) + "-" + span + "-" + Flags(flags))
    ensures |flags| == 2 && AnyHex(flags[0]) && AnyHex(flags[1]) ==> SameButForCase(flags, Flags(flags))
    ensures !(|flags| == 2 && AnyHex(flags[0]) && AnyHex(flags[1])) ==> Flags(flags) == "01"
  {
    ZerosAre();
  }

  lemma ZerosAre()
    ensures Zeros(16) == "0000000000000000" && Zeros(15) + ['1'] == "0000000000000001"
  {
  }
}
