/** application/x-www-form-urlencoded text and the parameter lists it carries (WHATWG URL Standard, section 5).
    A byte is a character below 256. */
module QueryString {
  import opened Text
  import opened Wrappers

  datatype Param = Param(name: string, value: string)

  // The UTF-8 codec, left to the platform.
  datatype Utf8 = Utf8(encode: string -> string, decode: string -> string)

  predicate Bytes(s: string) {
    forall i :: 0 <= i < |s| ==> s[i] as int < 256
  }

  // Encoding yields bytes, is undone by decoding, and leaves ASCII alone.
  ghost predicate Faithful(u: Utf8) {
    && (forall s :: Bytes(u.encode(s)) && u.decode(u.encode(s)) == s)
    && (forall s :: Ascii(s) ==> u.encode(s) == s)
  }

  // ---------------------------------------------------------------- percent encoding

  predicate Kept(c: char) {
    Digit(c) || 'A' <= c <= 'Z' || 'a' <= c <= 'z' || c == '*' || c == '-' || c == '.' || c == '_'
  }

  function Hex(n: int): char
    requires 0 <= n < 16
  {
    if n < 10 then '0' + n as char else 'A' + (n - 10) as char
  }

  function HexValue(c: char): int
    requires AnyHex(c)
  {
    if Digit(c) then c as int - '0' as int
    else if LowerHex(c) then c as int - 'a' as int + 10
    else c as int - 'A' as int + 10
  }

  function QuoteByte(c: char): string
    requires c as int < 256
  {
    if Kept(c) then [c] else if c == ' ' then ['+'] else ['%', Hex(c as int / 16), Hex(c as int % 16)]
  }

  function Quote(s: string): string
    requires Bytes(s)
  {
    if s == "" then "" else QuoteByte(s[0]) + Quote(s[1..])
  }

  // A percent sign without two hexadecimal digits stands for itself.
  function Unquote(s: string): string {
    if s == "" then ""
    else if s[0] == '+' then [' '] + Unquote(s[1..])
    else if s[0] == '%' && |s| >= 3 && AnyHex(s[1]) && AnyHex(s[2]) then
      [(HexValue(s[1]) * 16 + HexValue(s[2])) as char] + Unquote(s[3..])
    else [s[0]] + Unquote(s[1..])
  }

  const HEX_DIGITS := "0123456789ABCDEF"

  lemma HexIs(n: int)
    requires 0 <= n < 16
    ensures Hex(n) == HEX_DIGITS[n]
  {
  }

  // Percent sign and the two upper-case digits of its number, but for a blank, which is a plus sign, and the
  // characters the standard keeps.
  lemma QuotedByteIs(c: char, high: int, low: int)
    requires 0 <= high < 16 && 0 <= low < 16 && c as int == high * 16 + low
    ensures QuoteByte(c)
         == if c == ' ' then "+"
            else if Kept(c) then [c]
            else ['%', HEX_DIGITS[high], HEX_DIGITS[low]]
    ensures Kept(c) <==> '0' <= c <= '9' || 'A' <= c <= 'Z' || 'a' <= c <= 'z' || c in "*-._"
  {
    HexIs(high);
    HexIs(low);
    assert c as int / 16 == high && c as int % 16 == low;
  }

  lemma HexInverse(n: int)
    requires 0 <= n < 16
    ensures AnyHex(Hex(n)) && HexValue(Hex(n)) == n && Hex(n) as int < 128 && Hex(n) != '&' && Hex(n) != '='
  {
  }

  lemma UnquoteByte(c: char, rest: string)
    requires c as int < 256
    ensures Unquote(QuoteByte(c) + rest) == [c] + Unquote(rest)
  {
    var q := QuoteByte(c) + rest;
    if Kept(c) || c == ' ' {
      assert q[1..] == rest;
    } else {
      HexInverse(c as int / 16);
      HexInverse(c as int % 16);
      assert q[3..] == rest;
      assert q[1] == Hex(c as int / 16) && q[2] == Hex(c as int % 16);
    }
  }

  lemma {:induction false} UnquoteQuote(s: string)
    requires Bytes(s)
    ensures Unquote(Quote(s)) == s
  {
    if s != "" {
      UnquoteByte(s[0], Quote(s[1..]));
      UnquoteQuote(s[1..]);
      assert [s[0]] + s[1..] == s;
    }
  }

  // Quoted text is ASCII without the separators, and never starts with a question mark.
  predicate Plain(s: string) {
    Ascii(s) && '&' !in s && '=' !in s && '?' !in s
  }

  lemma QuoteBytePlain(c: char)
    requires c as int < 256
    ensures Plain(QuoteByte(c))
  {
    HexInverse(c as int / 16);
    HexInverse(c as int % 16);
  }

  lemma {:induction false} QuotePlain(s: string)
    requires Bytes(s)
    ensures Plain(Quote(s))
  {
    if s != "" {
      QuoteBytePlain(s[0]);
      QuotePlain(s[1..]);
    }
  }

  // ---------------------------------------------------------------- pairs

  function Pair(u: Utf8, p: Param): string
    requires Bytes(u.encode(p.name)) && Bytes(u.encode(p.value))
  {
    Quote(u.encode(p.name)) + ['='] + Quote(u.encode(p.value))
  }

  function Pairs(u: Utf8, params: seq<Param>): seq<string>
    requires forall s :: Bytes(u.encode(s))
  {
    seq(|params|, i requires 0 <= i < |params| => Pair(u, params[i]))
  }

  ghost function Serialize(u: Utf8, params: seq<Param>): string
    requires forall s :: Bytes(u.encode(s))
  {
    Join(Pairs(u, params), '&')
  }

  function Cut(s: string): Param {
    if s == "" then Param("", "")
    else if s[0] == '=' then Param("", s[1..])
    else
      var rest := Cut(s[1..]);
      Param([s[0]] + rest.name, rest.value)
  }

  function ParsePair(u: Utf8, s: string): Param {
    Param(u.decode(Unquote(Cut(s).name)), u.decode(Unquote(Cut(s).value)))
  }

  // Empty stretches between separators carry no parameter.
  function ParsePairs(u: Utf8, parts: seq<string>): seq<Param> {
    if parts == [] then []
    else (if parts[0] == "" then [] else [ParsePair(u, parts[0])]) + ParsePairs(u, parts[1..])
  }

  function Parse(u: Utf8, input: string): seq<Param> {
    ParsePairs(u, Split(u.encode(input), '&'))
  }

  lemma {:induction false} CutAtEquals(name: string, value: string)
    requires '=' !in name
    ensures Cut(name + ['='] + value) == Param(name, value)
  {
    var s := name + ['='] + value;
    if name == "" {
      assert s[1..] == value;
    } else {
      assert s[1..] == name[1..] + ['='] + value;
      assert name[0] in name;
      CutAtEquals(name[1..], value);
      assert [name[0]] + name[1..] == name;
    }
  }

  lemma ParsePairOfPair(u: Utf8, p: Param)
    requires Faithful(u)
    ensures ParsePair(u, Pair(u, p)) == p
    ensures Pair(u, p) != "" && Ascii(Pair(u, p)) && '&' !in Pair(u, p) && '?' !in Pair(u, p)
  {
    var name, value := u.encode(p.name), u.encode(p.value);
    QuotePlain(name);
    QuotePlain(value);
    CutAtEquals(Quote(name), Quote(value));
    UnquoteQuote(name);
    UnquoteQuote(value);
  }

  lemma {:induction false} ParsePairsOfPairs(u: Utf8, params: seq<Param>)
    requires Faithful(u)
    ensures ParsePairs(u, Pairs(u, params)) == params
  {
    if params != [] {
      ParsePairOfPair(u, params[0]);
      assert Pairs(u, params)[1..] == Pairs(u, params[1..]);
      ParsePairsOfPairs(u, params[1..]);
    }
  }

  lemma {:induction false} JoinAscii(parts: seq<string>)
    requires forall i :: 0 <= i < |parts| ==> Ascii(parts[i]) && '?' !in parts[i]
    ensures Ascii(Join(parts, '&')) && '?' !in Join(parts, '&')
  {
    if |parts| > 1 {
      JoinAscii(parts[1..]);
    }
  }

  /** Parsing undoes serializing, for every list of parameters. */
  lemma ParseSerialize(u: Utf8, params: seq<Param>)
    requires Faithful(u)
    ensures Parse(u, Serialize(u, params)) == params
    ensures '?' !in Serialize(u, params)
  {
    var pairs := Pairs(u, params);
    forall i | 0 <= i < |pairs| ensures Ascii(pairs[i]) && '&' !in pairs[i] && '?' !in pairs[i] {
      ParsePairOfPair(u, params[i]);
    }
    JoinAscii(pairs);
    ParsePairsOfPairs(u, params);
    if params == [] {
      assert ParsePairs(u, [""]) == [];
    } else {
      SplitJoin(pairs, '&');
    }
  }

  // ---------------------------------------------------------------- parameter lists

  // The first value of a name.
  function Get(params: seq<Param>, name: string): Option<string> {
    if params == [] then None
    else if params[0].name == name then Some(params[0].value)
    else Get(params[1..], name)
  }

  predicate HasName(params: seq<Param>, name: string) {
    exists i :: 0 <= i < |params| && params[i].name == name
  }

  function Without(params: seq<Param>, name: string): seq<Param> {
    if params == [] then []
    else (if params[0].name == name then [] else [params[0]]) + Without(params[1..], name)
  }

  // The first of a name is replaced and the others removed; a new name goes last.
  function SetParam(params: seq<Param>, name: string, value: string): seq<Param> {
    if params == [] then [Param(name, value)]
    else if params[0].name == name then [Param(name, value)] + Without(params[1..], name)
    else [params[0]] + SetParam(params[1..], name, value)
  }

  lemma {:induction false} SetNew(params: seq<Param>, name: string, value: string)
    requires !HasName(params, name)
    ensures SetParam(params, name, value) == params + [Param(name, value)]
  {
    if params != [] {
      assert params[0].name != name;
      forall i | 0 <= i < |params[1..]| ensures params[1..][i].name != name { assert params[i + 1].name != name; }
      SetNew(params[1..], name, value);
    }
  }

  class UrlSearchParams {
    var list: seq<Param>

    constructor ()
      ensures list == []
    {
      list := [];
    }

    // Walks the list once, as the standard's steps do.
    method Set(name: string, value: string)
      modifies this
      ensures list == SetParam(old(list), name, value)
    {
      var i := 0;
      while i < |list| && list[i].name != name
        invariant 0 <= i <= |list| && list == old(list)
        invariant forall k :: 0 <= k < i ==> list[k].name != name
      {
        i := i + 1;
      }
      SetSkips(list, i, name, value);
      if i == |list| {
        assert list[i..] == [];
        list := list + [Param(name, value)];
      } else {
        assert list[i..][1..] == list[i + 1..];
        list := list[..i] + ([Param(name, value)] + Without(list[i + 1..], name));
      }
    }
  }

  lemma {:induction false} SetSkips(params: seq<Param>, i: nat, name: string, value: string)
    requires i <= |params| && forall k :: 0 <= k < i ==> params[k].name != name
    ensures SetParam(params, name, value) == params[..i] + SetParam(params[i..], name, value)
  {
    if i == 0 {
      assert params[i..] == params;
    } else {
      assert params[1..][i - 1..] == params[i..];
      assert params[..i] == [params[0]] + params[1..][..i - 1];
      assert params[0].name != name;
      forall k | 0 <= k < i - 1 ensures params[1..][k].name != name { assert params[k + 1].name != name; }
      SetSkips(params[1..], i - 1, name, value);
    }
  }

  // The parameters present among `names`, in order.
  function Present(names: seq<string>, values: seq<Option<string>>): seq<Param>
    requires |names| == |values|
  {
    if names == [] then []
    else
      var n := |names| - 1;
      var before := Present(names[..n], values[..n]);
      if values[n].Some? then before + [Param(names[n], values[n].value)] else before
  }

  predicate Distinct(names: seq<string>) {
    forall i, j :: 0 <= i < j < |names| ==> names[i] != names[j]
  }

  lemma {:induction false} GetAppend(params: seq<Param>, p: Param, name: string)
    ensures Get(params + [p], name)
         == if Get(params, name).Some? then Get(params, name) else if p.name == name then Some(p.value) else None
  {
    if params == [] {
      assert params + [p] == [p];
    } else {
      assert (params + [p])[1..] == params[1..] + [p];
      GetAppend(params[1..], p, name);
    }
  }

  lemma {:induction false} PresentNames(names: seq<string>, values: seq<Option<string>>, name: string)
    requires |names| == |values| && name !in names
    ensures Get(Present(names, values), name) == None && !HasName(Present(names, values), name)
  {
    if names != [] {
      var n := |names| - 1;
      PresentNames(names[..n], values[..n], name);
      if values[n].Some? {
        GetAppend(Present(names[..n], values[..n]), Param(names[n], values[n].value), name);
      }
    }
  }

  // Each name reads back its own value.
  lemma {:induction false} GetPresent(names: seq<string>, values: seq<Option<string>>, i: nat)
    requires |names| == |values| && Distinct(names) && i < |names|
    ensures Get(Present(names, values), names[i]) == values[i]
  {
    var n := |names| - 1;
    if i < n {
      GetPresent(names[..n], values[..n], i);
    } else {
      PresentNames(names[..n], values[..n], names[n]);
    }
    if values[n].Some? {
      GetAppend(Present(names[..n], values[..n]), Param(names[n], values[n].value), names[i]);
    }
  }
}
