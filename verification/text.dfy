/** Trimming, splitting and joining of text, with the whitespace sets of the two languages. */
module Text {

  // What Python's str.strip() removes.
  predicate PySpace(c: char) {
    || '\t' <= c <= '\r' || '\U{001C}' <= c <= ' '
    || c == '\U{0085}' || c == '\U{00A0}' || c == '\U{1680}' || '\U{2000}' <= c <= '\U{200A}'
    || c == '\U{2028}' || c == '\U{2029}' || c == '\U{202F}' || c == '\U{205F}' || c == '\U{3000}'
  }

  // What JavaScript's String.prototype.trim() removes.
  predicate JsSpace(c: char) {
    || '\t' <= c <= '\r' || c == ' '
    || c == '\U{00A0}' || c == '\U{1680}' || '\U{2000}' <= c <= '\U{200A}'
    || c == '\U{2028}' || c == '\U{2029}' || c == '\U{202F}' || c == '\U{205F}' || c == '\U{3000}' || c == '\U{FEFF}'
  }

  // Both languages trim these; Python also the four separators and the next line, JavaScript the byte order
  // mark.
  predicate CommonSpace(c: char) {
    c in ['\t', '\n', '\U{000B}', '\U{000C}', '\r', ' ', '\U{00A0}', '\U{1680}', '\U{2000}', '\U{2001}', '\U{2002}',
          '\U{2003}', '\U{2004}', '\U{2005}', '\U{2006}', '\U{2007}', '\U{2008}', '\U{2009}', '\U{200A}', '\U{2028}',
          '\U{2029}', '\U{202F}', '\U{205F}', '\U{3000}']
  }

  lemma SpacesAre(c: char)
    ensures JsSpace(c) <==> CommonSpace(c) || c == '\U{FEFF}'
    ensures PySpace(c) <==>
              CommonSpace(c) || c in ['\U{001C}', '\U{001D}', '\U{001E}', '\U{001F}', '\U{0085}']
  {
    CodeOf(c);
  }

  lemma CodeOf(c: char)
    ensures c == c as int as char
  {
  }

  predicate Ascii(s: string) {
    forall i :: 0 <= i < |s| ==> s[i] as int < 128
  }

  predicate Digit(c: char) {
    '0' <= c <= '9'
  }

  // A hexadecimal digit: lower-case, or of either case.
  predicate LowerHex(c: char) {
    Digit(c) || 'a' <= c <= 'f'
  }

  predicate AnyHex(c: char) {
    LowerHex(c) || 'A' <= c <= 'F'
  }

  type Space = char -> bool

  // How many space characters lead, and what length is left when trailing ones are cut.
  function Lead(sp: Space, s: string): (n: nat)
    ensures n <= |s|
  {
    if s == "" || !sp(s[0]) then 0 else 1 + Lead(sp, s[1..])
  }

  function Keep(sp: Space, s: string): (n: nat)
    ensures n <= |s|
  {
    if s == "" || !sp(s[|s| - 1]) then |s| else Keep(sp, s[..|s| - 1])
  }

  function Trim(sp: Space, s: string): string {
    var t := s[Lead(sp, s)..];
    t[..Keep(sp, t)]
  }

  predicate Spaces(sp: Space, s: string, from: nat, to: nat)
    requires from <= to <= |s|
  {
    forall i :: from <= i < to ==> sp(s[i])
  }

  predicate Trimmed(sp: Space, s: string) {
    s == "" || (!sp(s[0]) && !sp(s[|s| - 1]))
  }

  lemma {:induction false} LeadIs(sp: Space, s: string, n: nat)
    requires n <= |s| && Spaces(sp, s, 0, n) && (n < |s| ==> !sp(s[n]))
    ensures Lead(sp, s) == n
  {
    if n > 0 {
      assert sp(s[0]);
      forall i | 0 <= i < n - 1 ensures sp(s[1..][i]) { assert sp(s[i + 1]); }
      LeadIs(sp, s[1..], n - 1);
    }
  }

  lemma {:induction false} LeadSpaces(sp: Space, s: string)
    ensures Spaces(sp, s, 0, Lead(sp, s)) && (Lead(sp, s) < |s| ==> !sp(s[Lead(sp, s)]))
  {
    if s != "" && sp(s[0]) {
      LeadSpaces(sp, s[1..]);
      forall i | 1 <= i < Lead(sp, s) ensures sp(s[i]) { assert sp(s[1..][i - 1]); }
    }
  }

  lemma {:induction false} KeepIs(sp: Space, s: string, n: nat)
    requires n <= |s| && Spaces(sp, s, n, |s|) && (n > 0 ==> !sp(s[n - 1]))
    ensures Keep(sp, s) == n
  {
    if n < |s| {
      assert sp(s[|s| - 1]);
      KeepIs(sp, s[..|s| - 1], n);
    }
  }

  lemma {:induction false} KeepSpaces(sp: Space, s: string)
    ensures Spaces(sp, s, Keep(sp, s), |s|) && (Keep(sp, s) > 0 ==> !sp(s[Keep(sp, s) - 1]))
  {
    if s != "" && sp(s[|s| - 1]) {
      KeepSpaces(sp, s[..|s| - 1]);
    }
  }

  // Where the trimmed text lies.
  lemma TrimBounds(sp: Space, s: string) returns (i: nat, j: nat)
    ensures i <= j <= |s| && Trim(sp, s) == s[i..j] && Spaces(sp, s, 0, i) && Spaces(sp, s, j, |s|)
    ensures i < j ==> !sp(s[i]) && !sp(s[j - 1])
  {
    i := Lead(sp, s);
    LeadSpaces(sp, s);
    KeepSpaces(sp, s[i..]);
    j := i + Keep(sp, s[i..]);
    forall k | j <= k < |s| ensures sp(s[k]) { assert sp(s[i..][k - i]); }
  }

  // Between space characters lies the trimmed text.
  lemma TrimIs(sp: Space, s: string, i: nat, j: nat)
    requires i <= j <= |s| && Spaces(sp, s, 0, i) && Spaces(sp, s, j, |s|)
    requires i < j ==> !sp(s[i]) && !sp(s[j - 1])
    ensures Trim(sp, s) == s[i..j]
  {
    if i < j {
      LeadIs(sp, s, i);
      KeepIs(sp, s[i..], j - i);
    } else {
      LeadIs(sp, s, |s|);
    }
  }

  // Cutting space characters first changes nothing.
  lemma TrimMiddle(sp: Space, s: string, i: nat, j: nat)
    requires i <= j <= |s| && Spaces(sp, s, 0, i) && Spaces(sp, s, j, |s|)
    ensures Trim(sp, s[i..j]) == Trim(sp, s)
  {
    var a, b := TrimBounds(sp, s[i..j]);
    OuterSpaces(sp, s, i, j, a, b);
    TrimIs(sp, s, i + a, i + b);
  }

  lemma OuterSpaces(sp: Space, s: string, i: nat, j: nat, a: nat, b: nat)
    requires i <= j <= |s| && Spaces(sp, s, 0, i) && Spaces(sp, s, j, |s|)
    requires a <= b <= j - i && Spaces(sp, s[i..j], 0, a) && Spaces(sp, s[i..j], b, j - i)
    ensures Spaces(sp, s, 0, i + a) && Spaces(sp, s, i + b, |s|) && s[i..j][a..b] == s[i + a..i + b]
  {
    forall k | 0 <= k < i + a ensures sp(s[k]) { assert k >= i ==> sp(s[i..j][k - i]); }
    forall k | i + b <= k < |s| ensures sp(s[k]) { assert k < j ==> sp(s[i..j][k - i]); }
    SliceOfSlice(s, i, j, a, b);
  }

  lemma SliceOfSlice(s: string, i: nat, j: nat, a: nat, b: nat)
    requires i <= j <= |s| && a <= b <= j - i
    ensures s[i..j][a..b] == s[i + a..i + b]
  {
    var m, n := s[i..j][a..b], s[i + a..i + b];
    assert |m| == |n|;
    forall k | 0 <= k < |m| ensures m[k] == n[k] {
      assert m[k] == s[i..j][a + k] == s[i + a + k];
    }
  }

  lemma TrimIsTrimmed(sp: Space, s: string)
    ensures Trimmed(sp, Trim(sp, s))
  {
    var i, j := TrimBounds(sp, s);
  }

  lemma TrimTrimmed(sp: Space, s: string)
    requires Trimmed(sp, s)
    ensures Trim(sp, s) == s
  {
    TrimIs(sp, s, 0, |s|);
  }

  lemma TrimIdempotent(sp: Space, s: string)
    ensures Trim(sp, Trim(sp, s)) == Trim(sp, s)
  {
    TrimIsTrimmed(sp, s);
    TrimTrimmed(sp, Trim(sp, s));
  }

  // ---------------------------------------------------------------- split and join

  function Split(s: string, sep: char): (parts: seq<string>)
    ensures |parts| >= 1
  {
    if s == "" then [""]
    else
      var rest := Split(s[1..], sep);
      if s[0] == sep then [""] + rest else [[s[0]] + rest[0]] + rest[1..]
  }

  lemma {:induction false} SplitFree(s: string, sep: char)
    ensures forall i :: 0 <= i < |Split(s, sep)| ==> sep !in Split(s, sep)[i]
  {
    if s != "" {
      SplitFree(s[1..], sep);
    }
  }

  function Join(parts: seq<string>, sep: char): string {
    if parts == [] then ""
    else if |parts| == 1 then parts[0]
    else parts[0] + [sep] + Join(parts[1..], sep)
  }

  lemma {:induction false} SplitPrefix(a: string, b: string, sep: char)
    requires sep !in a
    ensures Split(a + [sep] + b, sep) == [a] + Split(b, sep)
  {
    var s := a + [sep] + b;
    if a == "" {
      assert s[1..] == b;
    } else {
      assert s[1..] == a[1..] + [sep] + b;
      assert a[0] in a;
      SplitPrefix(a[1..], b, sep);
      assert [s[0]] + a[1..] == a;
    }
  }

  lemma {:induction false} SplitWhole(a: string, sep: char)
    requires sep !in a
    ensures Split(a, sep) == [a]
  {
    if a != "" {
      assert a[0] in a;
      SplitWhole(a[1..], sep);
      assert [a[0]] + a[1..] == a;
    }
  }

  // Splitting undoes joining, for at least one part and parts free of the separator.
  lemma {:induction false} SplitJoin(parts: seq<string>, sep: char)
    requires parts != [] && forall i :: 0 <= i < |parts| ==> sep !in parts[i]
    ensures Split(Join(parts, sep), sep) == parts
  {
    if |parts| == 1 {
      SplitWhole(parts[0], sep);
    } else {
      SplitJoin(parts[1..], sep);
      SplitPrefix(parts[0], Join(parts[1..], sep), sep);
      assert parts == [parts[0]] + parts[1..];
    }
  }
}
