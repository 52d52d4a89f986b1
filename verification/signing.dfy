/** Role and scope headers: the gateway's canonical form, the server's split, and the strings both
    sides sign. */
module Signing {
  import opened Text
  import opened Wrappers

  // ---------------------------------------------------------------- header lists

  // [item.strip() for item in parts if item.strip()]
  function Items(sp: Space, parts: seq<string>): seq<string> {
    if parts == [] then []
    else if Trim(sp, parts[0]) == "" then Items(sp, parts[1..])
    else [Trim(sp, parts[0])] + Items(sp, parts[1..])
  }

  ghost predicate Clean(sp: Space, items: seq<string>) {
    forall i :: 0 <= i < |items| ==> items[i] != "" && Trimmed(sp, items[i])
  }

  lemma {:induction false} ItemsAreClean(sp: Space, parts: seq<string>)
    ensures Clean(sp, Items(sp, parts))
  {
    if parts != [] {
      TrimIsTrimmed(sp, parts[0]);
      ItemsAreClean(sp, parts[1..]);
    }
  }

  // canonicalCsv: only null takes the default.
  function CanonicalCsv(value: Option<string>, default_: string): string {
    Join(Items(JsSpace, Split(if value.Some? then value.value else default_, ',')), ',')
  }

  // The server's (header or default).split(","), where the empty string is falsy too.
  function ServerSplit(header: Option<string>, default_: string): seq<string> {
    Items(PySpace, Split(if header == None || header == Some("") then default_ else header.value, ','))
  }

  lemma {:induction false} ItemsNoSeparator(sp: Space, parts: seq<string>, sep: char)
    requires forall i :: 0 <= i < |parts| ==> sep !in parts[i]
    ensures forall i :: 0 <= i < |Items(sp, parts)| ==> sep !in Items(sp, parts)[i]
  {
    if parts != [] {
      ItemsNoSeparator(sp, parts[1..], sep);
      TrimChars(sp, parts[0]);
    }
  }

  lemma TrimChars(sp: Space, s: string)
    ensures forall c :: c in Trim(sp, s) ==> c in s
  {
    var i, j := TrimBounds(sp, s);
  }

  lemma ItemsCons(sp: Space, x: string, rest: seq<string>)
    ensures Items(sp, [x] + rest) == (if Trim(sp, x) == "" then [] else [Trim(sp, x)]) + Items(sp, rest)
  {
    assert ([x] + rest)[1..] == rest;
  }

  lemma {:induction false} ItemsOfItems(sp: Space, items: seq<string>)
    requires Clean(sp, items)
    ensures Items(sp, items) == items
  {
    if items != [] {
      var x, rest := items[0], items[1..];
      assert items == [x] + rest;
      ItemsOfItems(sp, rest);
      ItemsCons(sp, x, rest);
      TrimTrimmed(sp, x);
    }
  }

  // A joined list of items reads back as that list; no items read back as one blank part.
  lemma ItemsOfJoin(sp: Space, items: seq<string>)
    requires forall i :: 0 <= i < |items| ==> ',' !in items[i]
    ensures Items(sp, Split(Join(items, ','), ',')) == Items(sp, items)
  {
    if items == [] {
      assert Items(sp, [""]) == [];
    } else {
      SplitJoin(items, ',');
    }
  }

  lemma CanonicalIdempotent(value: Option<string>, default_: string)
    ensures CanonicalCsv(Some(CanonicalCsv(value, default_)), default_) == CanonicalCsv(value, default_)
  {
    var parts := Split(if value.Some? then value.value else default_, ',');
    var items := Items(JsSpace, parts);
    SplitFree(if value.Some? then value.value else default_, ',');
    ItemsNoSeparator(JsSpace, parts, ',');
    ItemsOfJoin(JsSpace, items);
    ItemsAreClean(JsSpace, parts);
    ItemsOfItems(JsSpace, items);
  }

  // ---------------------------------------------------------------- gateway form and server split

  // The one character JavaScript trims and Python does not: the byte order mark.
  const BOM: char := '\U{FEFF}'

  lemma JsSpaceIsPySpace(c: char)
    ensures JsSpace(c) && c != BOM ==> PySpace(c)
    ensures !PySpace(BOM)
  {
  }

  function Marks(s: string): nat {
    multiset(s)[BOM]
  }

  function MarksIn(items: seq<string>): nat {
    if items == [] then 0 else Marks(items[0]) + MarksIn(items[1..])
  }

  // The gateway cuts a byte order mark off one end of this part.
  predicate CutsMark(part: string) {
    var i := Lead(JsSpace, part);
    BOM in part[..i] || BOM in part[i..][Keep(JsSpace, part[i..])..]
  }

  predicate NoMarkCut(header: string) {
    forall i :: 0 <= i < |Split(header, ',')| ==> !CutsMark(Split(header, ',')[i])
  }

  lemma MarksOf(s: string, i: nat, j: nat)
    requires i <= j <= |s|
    ensures Marks(s) == Marks(s[..i]) + Marks(s[i..j]) + Marks(s[j..])
  {
    assert s == s[..i] + s[i..j] + s[j..];
  }

  lemma NoMarkIff(s: string)
    ensures Marks(s) == 0 <==> BOM !in s
  {
    assert BOM in s <==> BOM in multiset(s);
  }

  // The server strips no mark.
  lemma StripKeepsMarks(s: string)
    ensures Marks(Trim(PySpace, s)) == Marks(s)
  {
    var i, j := TrimBounds(PySpace, s);
    MarksOf(s, i, j);
    JsSpaceIsPySpace(BOM);
    forall k | 0 <= k < i ensures s[..i][k] != BOM { assert PySpace(s[k]); }
    forall k | 0 <= k < |s| - j ensures s[j..][k] != BOM { assert PySpace(s[j + k]); }
    NoMarkIff(s[..i]);
    NoMarkIff(s[j..]);
  }

  // The gateway loses marks exactly where it cuts one.
  lemma TrimLosesMarks(part: string)
    ensures Marks(Trim(JsSpace, part)) <= Marks(part)
    ensures Marks(Trim(JsSpace, part)) == Marks(part) <==> !CutsMark(part)
  {
    var i := Lead(JsSpace, part);
    var n := Keep(JsSpace, part[i..]);
    MarksOf(part, i, i + n);
    NoMarkIff(part[..i]);
    NoMarkIff(part[i + n..]);
    assert part[i..][..n] == part[i..i + n] && part[i..][n..] == part[i + n..];
  }

  // Where no mark is cut, stripping as Python does ignores an earlier JavaScript trim.
  lemma StripAfterTrim(part: string)
    requires !CutsMark(part)
    ensures Trim(PySpace, Trim(JsSpace, part)) == Trim(PySpace, part)
  {
    var i := Lead(JsSpace, part);
    var j := i + Keep(JsSpace, part[i..]);
    LeadSpaces(JsSpace, part);
    KeepSpaces(JsSpace, part[i..]);
    forall k | 0 <= k < i ensures PySpace(part[k]) {
      assert part[..i][k] == part[k];
      JsSpaceIsPySpace(part[k]);
    }
    forall k | j <= k < |part| ensures PySpace(part[k]) {
      assert part[i..][k - i] == part[k] == part[i..][j - i..][k - j];
      JsSpaceIsPySpace(part[k]);
    }
    assert part[i..][..j - i] == part[i..j];
    TrimMiddle(PySpace, part, i, j);
  }

  lemma MarksCons(x: string, rest: seq<string>)
    ensures MarksIn([x] + rest) == Marks(x) + MarksIn(rest)
  {
    assert ([x] + rest)[1..] == rest;
  }

  // The server's items hold all the marks of the parts.
  lemma {:induction false} ServerKeepsMarks(parts: seq<string>)
    ensures MarksIn(Items(PySpace, parts)) == MarksIn(parts)
  {
    if parts != [] {
      ServerKeepsMarks(parts[1..]);
      StripKeepsMarks(parts[0]);
      MarksCons(Trim(PySpace, parts[0]), Items(PySpace, parts[1..]));
    }
  }

  // The gateway's items hold fewer, when it has cut one.
  lemma {:induction false} GatewayLosesMarks(parts: seq<string>)
    ensures MarksIn(Items(JsSpace, parts)) <= MarksIn(parts)
    ensures MarksIn(Items(JsSpace, parts)) == MarksIn(parts) <==> forall i :: 0 <= i < |parts| ==> !CutsMark(parts[i])
  {
    if parts != [] {
      GatewayLosesMarks(parts[1..]);
      TrimLosesMarks(parts[0]);
      MarksCons(Trim(JsSpace, parts[0]), Items(JsSpace, parts[1..]));
      CutsInRest(parts);
    }
  }

  lemma CutsInRest(parts: seq<string>)
    requires parts != []
    ensures (forall i :: 0 <= i < |parts| ==> !CutsMark(parts[i]))
       <==> !CutsMark(parts[0]) && forall i :: 0 <= i < |parts[1..]| ==> !CutsMark(parts[1..][i])
  {
    assert forall i :: 1 <= i < |parts| ==> parts[i] == parts[1..][i - 1];
  }

  lemma {:induction false} PyItemsOfJsItems(parts: seq<string>)
    requires forall i :: 0 <= i < |parts| ==> !CutsMark(parts[i])
    ensures Items(PySpace, Items(JsSpace, parts)) == Items(PySpace, parts)
  {
    if parts != [] {
      StripAfterTrim(parts[0]);
      PyItemsOfJsItems(parts[1..]);
      FirstItem(parts[0], Trim(JsSpace, parts[0]), Items(JsSpace, parts[1..]));
    }
  }

  // One part, trimmed to `t` by the gateway, in front of items the gateway has made.
  lemma FirstItem(part: string, t: string, rest: seq<string>)
    requires Trim(PySpace, t) == Trim(PySpace, part)
    ensures Items(PySpace, (if t == "" then [] else [t]) + rest)
         == (if Trim(PySpace, part) == "" then [] else [Trim(PySpace, part)]) + Items(PySpace, rest)
  {
    if t == "" {
      assert [] + rest == rest;
    } else {
      ItemsCons(PySpace, t, rest);
    }
  }

  function PyItems(header: string): seq<string> {
    Items(PySpace, Split(header, ','))
  }

  // The canonical form, as the server reads it, lists the gateway's items.
  lemma SplitOfCanonical(header: string, default_: string)
    ensures PyItems(CanonicalCsv(Some(header), default_)) == Items(PySpace, Items(JsSpace, Split(header, ',')))
  {
    SplitFree(header, ',');
    ItemsNoSeparator(JsSpace, Split(header, ','), ',');
    ItemsOfJoin(PySpace, Items(JsSpace, Split(header, ',')));
  }

  // Both sides list the same items exactly where the gateway cuts no mark; where it does, the server's
  // own list has more of them.
  lemma SameItemsIff(header: string, default_: string)
    ensures PyItems(CanonicalCsv(Some(header), default_)) == PyItems(header) <==> NoMarkCut(header)
    ensures !NoMarkCut(header) ==> MarksIn(PyItems(header)) > 0
  {
    var parts := Split(header, ',');
    SplitOfCanonical(header, default_);
    GatewayLosesMarks(parts);
    ServerKeepsMarks(parts);
    ServerKeepsMarks(Items(JsSpace, parts));
    if NoMarkCut(header) {
      PyItemsOfJsItems(parts);
    }
  }

  // Nothing but separators and what the gateway trims.
  predicate Blank(header: string) {
    forall i :: 0 <= i < |header| ==> header[i] == ',' || JsSpace(header[i])
  }

  predicate AllSpaces(parts: seq<string>) {
    forall i :: 0 <= i < |parts| ==> Spaces(JsSpace, parts[i], 0, |parts[i]|)
  }

  lemma {:induction false} BlankParts(header: string)
    ensures AllSpaces(Split(header, ',')) <==> Blank(header)
  {
    if header != "" {
      var c, rest := header[0], Split(header[1..], ',');
      BlankParts(header[1..]);
      assert Blank(header) <==> (c == ',' || JsSpace(c)) && Blank(header[1..]) by {
        assert forall i :: 0 < i < |header| ==> header[i] == header[1..][i - 1];
        assert forall i :: 0 <= i < |header[1..]| ==> header[1..][i] == header[i + 1];
      }
      if c == ',' {
        SpacesCons("", rest);
      } else {
        var first := [c] + rest[0];
        assert rest == [rest[0]] + rest[1..];
        SpacesCons(rest[0], rest[1..]);
        SpacesCons(first, rest[1..]);
        SpacesHead(c, rest[0]);
      }
    }
  }

  lemma SpacesCons(part: string, rest: seq<string>)
    ensures AllSpaces([part] + rest) <==> Spaces(JsSpace, part, 0, |part|) && AllSpaces(rest)
  {
    var parts := [part] + rest;
    assert parts[0] == part && forall i :: 0 <= i < |rest| ==> parts[i + 1] == rest[i];
  }

  lemma SpacesHead(c: char, s: string)
    ensures Spaces(JsSpace, [c] + s, 0, |s| + 1) <==> JsSpace(c) && Spaces(JsSpace, s, 0, |s|)
  {
    assert ([c] + s)[0] == c && forall i :: 0 <= i < |s| ==> ([c] + s)[i + 1] == s[i];
  }

  lemma TrimsToNothing(s: string)
    ensures Trim(JsSpace, s) == "" <==> Spaces(JsSpace, s, 0, |s|)
  {
    var i, j := TrimBounds(JsSpace, s);
  }

  lemma {:induction false} NoItemsIff(parts: seq<string>)
    ensures Items(JsSpace, parts) == [] <==> AllSpaces(parts)
  {
    if parts != [] {
      NoItemsIff(parts[1..]);
      TrimsToNothing(parts[0]);
      assert parts == [parts[0]] + parts[1..];
      SpacesCons(parts[0], parts[1..]);
    }
  }

  // The canonical form is empty exactly for a blank header.
  lemma CanonicalEmptyIff(header: string, default_: string)
    ensures CanonicalCsv(Some(header), default_) == "" <==> Blank(header)
  {
    BlankParts(header);
    NoItemsIff(Split(header, ','));
    ItemsAreClean(JsSpace, Split(header, ','));
  }

  /** The server reads the same list from the canonical form as from the header itself exactly when the
      header is empty, or the gateway cuts no byte order mark off any part and the header is not blank
      or the default lists nothing: for a blank header the server takes the default. */
  lemma CanonicalKeepsItems(header: string, default_: string)
    requires BOM !in default_
    ensures ServerSplit(Some(CanonicalCsv(Some(header), default_)), default_) == ServerSplit(Some(header), default_)
       <==> header == "" || (NoMarkCut(header) && (!Blank(header) || ServerSplit(None, default_) == []))
  {
    SameItemsIff(header, default_);
    CanonicalEmptyIff(header, default_);
    DefaultHasNoMarks(default_);
    KeepsItemsIff(header, CanonicalCsv(Some(header), default_), default_, NoMarkCut(header));
  }

  // For any other text in the place of the canonical form.
  lemma KeepsItemsIff(header: string, other: string, default_: string, same: bool)
    requires (PyItems(other) == PyItems(header) <==> same) && (!same ==> MarksIn(PyItems(header)) > 0)
    requires MarksIn(ServerSplit(None, default_)) == 0 && (header == "" ==> other == "")
    ensures ServerSplit(Some(other), default_) == ServerSplit(Some(header), default_)
       <==> header == "" || (same && (other != "" || ServerSplit(None, default_) == []))
  {
    ServerReads(header, default_);
    ServerReads(other, default_);
    BlankPart();
  }

  lemma DefaultHasNoMarks(default_: string)
    requires BOM !in default_
    ensures MarksIn(ServerSplit(None, default_)) == 0
  {
    ServerKeepsMarks(Split(default_, ','));
    NoMarksInParts(default_);
  }

  lemma {:induction false} NoMarksInParts(s: string)
    requires BOM !in s
    ensures MarksIn(Split(s, ',')) == 0
  {
    SplitChars(s, ',', BOM);
    NoMarks(Split(s, ','));
  }

  lemma {:induction false} NoMarks(parts: seq<string>)
    requires forall i :: 0 <= i < |parts| ==> BOM !in parts[i]
    ensures MarksIn(parts) == 0
  {
    if parts != [] {
      NoMarks(parts[1..]);
      NoMarkIff(parts[0]);
    }
  }

  lemma {:induction false} SplitChars(s: string, sep: char, c: char)
    requires c !in s
    ensures forall i :: 0 <= i < |Split(s, sep)| ==> c !in Split(s, sep)[i]
  {
    if s != "" {
      SplitChars(s[1..], sep, c);
    }
  }

  lemma ServerReads(header: string, default_: string)
    ensures ServerSplit(Some(header), default_) == if header == "" then ServerSplit(None, default_) else PyItems(header)
  {
  }

  lemma BlankPart()
    ensures PyItems("") == []
  {
    OneItem(PySpace, "");
  }

  /** The role header, whose default is one role: what is claimed is what is read exactly when the header
      is empty, or is not blank and loses no mark. */
  lemma RolesKeepItems(header: string)
    ensures ServerSplit(Some(CanonicalCsv(Some(header), "user")), "user") == ServerSplit(Some(header), "user")
       <==> header == "" || (NoMarkCut(header) && !Blank(header))
  {
    CanonicalKeepsItems(header, "user");
    OneDefault("user");
  }

  // The scope header, whose default is blank: exactly when it loses no mark.
  lemma ScopesKeepItems(header: string)
    ensures ServerSplit(Some(CanonicalCsv(Some(header), "")), "") == ServerSplit(Some(header), "")
            <==> NoMarkCut(header)
  {
    CanonicalKeepsItems(header, "");
    BlankPart();
    if header == "" {
      SameItemsIff(header, "");
      CanonicalEmptyIff(header, "");
    }
  }

  lemma OneDefault(default_: string)
    requires default_ != "" && ',' !in default_ && Trimmed(PySpace, default_)
    ensures ServerSplit(None, default_) == [default_]
  {
    TrimTrimmed(PySpace, default_);
    OneItem(PySpace, default_);
  }

  lemma OneItem(sp: Space, s: string)
    requires ',' !in s
    ensures Items(sp, Split(s, ',')) == if Trim(sp, s) == "" then [] else [Trim(sp, s)]
  {
    SplitWhole(s, ',');
    assert Items(sp, [s][1..]) == [];
  }

  lemma OneCanonical(s: string, default_: string)
    requires ',' !in s && Trim(JsSpace, s) != ""
    ensures CanonicalCsv(Some(s), default_) == Trim(JsSpace, s)
  {
    OneItem(JsSpace, s);
  }

  // Where the two whitespace sets differ, the claims differ: any role behind a byte order mark.
  lemma ByteOrderMarkChangesClaims(item: string, marked: string, default_: string)
    requires item != "" && ',' !in item && Trimmed(JsSpace, item) && Trimmed(PySpace, item)
    requires marked == [BOM] + item
    ensures ServerSplit(Some(CanonicalCsv(Some(marked), default_)), default_) == [item]
    ensures ServerSplit(Some(marked), default_) == [marked]
  {
    TrimBom(item, marked);
    CanonicalReadsTrimmed(marked, default_);
    ServerReadsOne(marked, default_);
  }

  lemma CanonicalReadsTrimmed(s: string, default_: string)
    requires ',' !in s && Trim(JsSpace, s) != "" && Trim(PySpace, Trim(JsSpace, s)) == Trim(JsSpace, s)
    ensures ServerSplit(Some(CanonicalCsv(Some(s), default_)), default_) == [Trim(JsSpace, s)]
  {
    TrimChars(JsSpace, s);
    OneCanonical(s, default_);
    ServerReadsOne(Trim(JsSpace, s), default_);
  }

  lemma TrimBom(item: string, marked: string)
    requires item != "" && ',' !in item && Trimmed(JsSpace, item) && Trimmed(PySpace, item)
    requires marked == [BOM] + item
    ensures marked != "" && ',' !in marked
    ensures Trim(JsSpace, marked) == item && Trim(PySpace, item) == item && Trim(PySpace, marked) == marked
  {
    assert marked[0] == BOM && marked[|marked| - 1] == item[|item| - 1] && marked[1] == item[0];
    assert JsSpace(BOM) && !PySpace(BOM);
    TrimIs(JsSpace, marked, 1, |marked|);
    TrimTrimmed(PySpace, item);
    TrimTrimmed(PySpace, marked);
  }

  lemma ServerReadsOne(item: string, default_: string)
    requires item != "" && ',' !in item && Trim(PySpace, item) == item
    ensures ServerSplit(Some(item), default_) == [item]
  {
    ServerReads(item, default_);
    OneItem(PySpace, item);
  }

  // ---------------------------------------------------------------- canonical strings

  datatype ActorClaims = ActorClaims(tenantId: string, userId: string, roles: Option<string>, scopes: Option<string>,
                                     timestamp: string)

  datatype RequestClaims = RequestClaims(actor: ActorClaims, nonce: string, method_: string, path: string,
                                         bodyHash: string)

  function ActorFields(c: ActorClaims): seq<string> {
    ["v1", c.tenantId, c.userId, CanonicalCsv(c.roles, "user"), CanonicalCsv(c.scopes, ""), c.timestamp]
  }

  function Upper(s: string): string {
    seq(|s|, i requires 0 <= i < |s| => if 'a' <= s[i] <= 'z' then s[i] - 'a' + 'A' else s[i])
  }

  function RequestFields(c: RequestClaims): seq<string> {
    ActorFields(c.actor) + [c.nonce, Upper(c.method_), c.path, c.bodyHash]
  }

  function CanonicalActor(c: ActorClaims): string {
    Join(ActorFields(c), '\n')
  }

  function CanonicalRequest(c: RequestClaims): string {
    Join(RequestFields(c), '\n')
  }

  ghost predicate OneLine(fields: seq<string>) {
    forall i :: 0 <= i < |fields| ==> '\n' !in fields[i]
  }

  // Equal canonical strings come from equal fields, when no field spans lines.
  lemma JoinInjective(a: seq<string>, b: seq<string>)
    requires a != [] && b != [] && OneLine(a) && OneLine(b) && Join(a, '\n') == Join(b, '\n')
    ensures a == b
  {
    SplitJoin(a, '\n');
    SplitJoin(b, '\n');
  }

  lemma ActorStringDetermines(c: ActorClaims, d: ActorClaims)
    requires OneLine(ActorFields(c)) && OneLine(ActorFields(d)) && CanonicalActor(c) == CanonicalActor(d)
    ensures c.tenantId == d.tenantId && c.userId == d.userId && c.timestamp == d.timestamp
    ensures CanonicalCsv(c.roles, "user") == CanonicalCsv(d.roles, "user")
    ensures CanonicalCsv(c.scopes, "") == CanonicalCsv(d.scopes, "")
  {
    JoinInjective(ActorFields(c), ActorFields(d));
    var f, g := ActorFields(c), ActorFields(d);
    assert f[1] == g[1] && f[2] == g[2] && f[3] == g[3] && f[4] == g[4] && f[5] == g[5];
  }

  lemma RequestStringDetermines(c: RequestClaims, d: RequestClaims)
    requires OneLine(RequestFields(c)) && OneLine(RequestFields(d)) && CanonicalRequest(c) == CanonicalRequest(d)
    ensures CanonicalActor(c.actor) == CanonicalActor(d.actor)
    ensures c.nonce == d.nonce && Upper(c.method_) == Upper(d.method_) && c.path == d.path && c.bodyHash == d.bodyHash
  {
    var f, g := RequestFields(c), RequestFields(d);
    JoinInjective(f, g);
    assert f[..6] == ActorFields(c.actor) && g[..6] == ActorFields(d.actor);
    assert f[6] == g[6] && f[7] == g[7] && f[8] == g[8] && f[9] == g[9];
  }

  // ---------------------------------------------------------------- the signed strings, spelled out

  lemma {:induction false} JoinMore(first: string, rest: seq<string>)
    requires rest != []
    ensures Join([first] + rest, '\n') == first + ['\n'] + Join(rest, '\n')
  {
    assert ([first] + rest)[1..] == rest;
  }

  lemma JoinTwo(a: string, b: string)
    ensures Join([a, b], '\n') == a + ['\n'] + b
  {
    assert [a, b] == [a] + [b];
    JoinMore(a, [b]);
  }

  lemma JoinFour(a: string, b: string, c: string, d: string)
    ensures Join([a, b, c, d], '\n') == a + ['\n'] + (b + ['\n'] + (c + ['\n'] + d))
  {
    assert [a, b, c, d] == [a] + [b, c, d] && [b, c, d] == [b] + [c, d];
    JoinMore(a, [b, c, d]);
    JoinMore(b, [c, d]);
    JoinTwo(c, d);
  }

  lemma JoinSix(a: string, b: string, c: string, d: string, e: string, f: string)
    ensures Join([a, b, c, d, e, f], '\n')
         == a + ['\n'] + (b + ['\n'] + (c + ['\n'] + (d + ['\n'] + (e + ['\n'] + f))))
  {
    assert [a, b, c, d, e, f] == [a] + [b, c, d, e, f] && [b, c, d, e, f] == [b] + [c, d, e, f];
    JoinMore(a, [b, c, d, e, f]);
    JoinMore(b, [c, d, e, f]);
    JoinFour(c, d, e, f);
  }

  lemma JoinConcat(a: seq<string>, b: seq<string>)
    requires a != [] && b != []
    ensures Join(a + b, '\n') == Join(a, '\n') + ['\n'] + Join(b, '\n')
  {
    if |a| == 1 {
      assert a == [a[0]];
      JoinMore(a[0], b);
    } else {
      assert a == [a[0]] + a[1..] && a + b == [a[0]] + (a[1..] + b);
      JoinMore(a[0], a[1..] + b);
      JoinMore(a[0], a[1..]);
      JoinConcat(a[1..], b);
    }
  }

  /** What is signed for an operator: the version, tenant, user, canonical roles (one role when there is no
      header), canonical scopes (none when there is no header), and timestamp, one to a line. */
  lemma ActorStringIs(c: ActorClaims)
    ensures CanonicalActor(c)
         == "v1" + ['\n'] + (c.tenantId + ['\n'] + (c.userId + ['\n'] + (CanonicalCsv(c.roles, "user") + ['\n']
            + (CanonicalCsv(c.scopes, "") + ['\n'] + c.timestamp))))
    ensures c.roles == None ==> CanonicalCsv(c.roles, "user") == "user"
    ensures c.scopes == None ==> CanonicalCsv(c.scopes, "") == ""
  {
    JoinSix("v1", c.tenantId, c.userId, CanonicalCsv(c.roles, "user"), CanonicalCsv(c.scopes, ""), c.timestamp);
    DefaultRole();
    CanonicalEmptyIff("", "");
  }

  lemma DefaultRole()
    ensures CanonicalCsv(None, "user") == "user"
  {
    TrimTrimmed(JsSpace, "user");
    OneItem(JsSpace, "user");
  }

  /** For a request the nonce, the method in upper case, the path and the body's digest follow. */
  lemma RequestStringIs(c: RequestClaims)
    ensures CanonicalRequest(c)
         == CanonicalActor(c.actor) + ['\n']
            + (c.nonce + ['\n'] + (Upper(c.method_) + ['\n'] + (c.path + ['\n'] + c.bodyHash)))
  {
    var rest := [c.nonce, Upper(c.method_), c.path, c.bodyHash];
    JoinConcat(ActorFields(c.actor), rest);
    JoinFour(c.nonce, Upper(c.method_), c.path, c.bodyHash);
  }

  // The same text but for the case of its letters, none of which is lower.
  lemma UpperIs(s: string, i: nat)
    requires i < |s|
    ensures |Upper(s)| == |s| && !('a' <= Upper(s)[i] <= 'z')
    ensures Upper(s)[i] == s[i] || ('a' <= s[i] <= 'z' && s[i] as int - Upper(s)[i] as int == 'a' as int - 'A' as int)
  {
  }
}
