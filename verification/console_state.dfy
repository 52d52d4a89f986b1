/** The console's URL state: parsing, serializing, and their round trip. */
module ConsoleState {
  import opened Text
  import opened QueryString
  import opened Wrappers

  const WORKSPACE_MODES := ["alerts", "runs", "tools", "knowledge", "memory", "feedback", "settings"]
  const EVIDENCE_TABS := ["brief", "citations", "tool-audit", "memory", "triage"]
  const ALERT_SEVERITIES := ["all", "P0", "P1", "P2", "P3"]
  const ALERT_STATUSES := ["active", "all", "open", "acknowledged", "investigating", "resolved", "silenced"]
  const ALERT_SORTS := ["severity", "newest", "count"]

  datatype State = State(
    runId: Option<string>,
    alertKey: Option<string>,
    workspace: string,
    tab: string,
    severity: string,
    status: string,
    query: string,
    sort: string,
    onlyNew: bool)

  // The values the type of each field admits.
  predicate Typed(s: State) {
    s.workspace in WORKSPACE_MODES && s.tab in EVIDENCE_TABS && s.severity in ALERT_SEVERITIES
    && s.status in ALERT_STATUSES && s.sort in ALERT_SORTS
  }

  const DEFAULT := State(None, None, "alerts", "brief", "all", "active", "", "severity", false)

  // ---------------------------------------------------------------- parsing

  function Cleaned(value: Option<string>): Option<string> {
    if value.Some? && Trim(JsSpace, value.value) != "" then Some(Trim(JsSpace, value.value)) else None
  }

  function EnumValue(value: Option<string>, values: seq<string>, fallback: string): string {
    var next := Cleaned(value);
    if next.Some? && next.value in values then next.value else fallback
  }

  function Or(value: Option<string>, fallback: string): string {
    if value.Some? then value.value else fallback
  }

  function FromParams(params: seq<Param>): State {
    State(Cleaned(Get(params, "runId")),
          Cleaned(Get(params, "alertKey")),
          EnumValue(Get(params, "workspace"), WORKSPACE_MODES, DEFAULT.workspace),
          EnumValue(Get(params, "tab"), EVIDENCE_TABS, DEFAULT.tab),
          EnumValue(Get(params, "severity"), ALERT_SEVERITIES, DEFAULT.severity),
          EnumValue(Get(params, "status"), ALERT_STATUSES, DEFAULT.status),
          Or(Cleaned(Get(params, "q")), DEFAULT.query),
          EnumValue(Get(params, "sort"), ALERT_SORTS, DEFAULT.sort),
          Get(params, "new") == Some("1") || Get(params, "new") == Some("true"))
  }

  function WithoutQuestion(input: string): string {
    if input != "" && input[0] == '?' then input[1..] else input
  }

  // One question mark is cut here, and another by the URLSearchParams constructor.
  function ParseState(u: Utf8, input: string): State {
    FromParams(Parse(u, WithoutQuestion(WithoutQuestion(input))))
  }

  // ---------------------------------------------------------------- serializing

  const NAMES := ["runId", "alertKey", "workspace", "tab", "severity", "status", "q", "sort", "new"]

  function IfChanged(value: string, fallback: string): Option<string> {
    if value != fallback then Some(value) else None
  }

  // What each name is set to, if anything.
  function Values(s: State): seq<Option<string>> {
    [Cleaned(s.runId), Cleaned(s.alertKey), IfChanged(s.workspace, DEFAULT.workspace), IfChanged(s.tab, DEFAULT.tab),
     IfChanged(s.severity, DEFAULT.severity), IfChanged(s.status, DEFAULT.status),
     IfChanged(Trim(JsSpace, s.query), DEFAULT.query), IfChanged(s.sort, DEFAULT.sort),
     if s.onlyNew then Some("1") else None]
  }

  ghost function SerializeState(u: Utf8, s: State): string
    requires Faithful(u)
  {
    Serialize(u, Present(NAMES, Values(s)))
  }

  lemma NamesDistinct()
    ensures Distinct(NAMES)
  {
  }

  function Put(params: seq<Param>, name: string, value: Option<string>): seq<Param> {
    if value.Some? then SetParam(params, name, value.value) else params
  }

  // Setting the next name, when there is a value for it.
  lemma PutPresent(names: seq<string>, values: seq<Option<string>>, k: nat)
    requires |names| == |values| && Distinct(names) && k < |names|
    ensures Put(Present(names[..k], values[..k]), names[k], values[k]) == Present(names[..k + 1], values[..k + 1])
  {
    assert names[..k + 1][..k] == names[..k] && values[..k + 1][..k] == values[..k];
    PresentNames(names[..k], values[..k], names[k]);
    if values[k].Some? {
      SetNew(Present(names[..k], values[..k]), names[k], values[k].value);
    }
  }

  method SetOptional(params: UrlSearchParams, name: string, value: Option<string>)
    modifies params
    ensures params.list == Put(old(params.list), name, Cleaned(value))
  {
    if value.Some? {
      var next := Trim(JsSpace, value.value);
      if next != "" {
        params.Set(name, next);
      }
    }
  }

  method SetIfChanged(params: UrlSearchParams, name: string, value: string, fallback: string)
    modifies params
    ensures params.list == Put(old(params.list), name, IfChanged(value, fallback))
  {
    if value != fallback {
      params.Set(name, value);
    }
  }

  // Three names set in a row.
  function PutThree(params: seq<Param>, names: seq<string>, values: seq<Option<string>>): seq<Param>
    requires |names| == |values| == 3
  {
    Put(Put(Put(params, names[0], values[0]), names[1], values[1]), names[2], values[2])
  }

  lemma PutThreePresent(names: seq<string>, values: seq<Option<string>>, k: nat)
    requires |names| == |values| && Distinct(names) && k + 3 <= |names|
    ensures PutThree(Present(names[..k], values[..k]), names[k..k + 3], values[k..k + 3])
            == Present(names[..k + 3], values[..k + 3])
  {
    PutPresent(names, values, k);
    PutPresent(names, values, k + 1);
    PutPresent(names, values, k + 2);
  }

  lemma NineSet(names: seq<string>, values: seq<Option<string>>)
    requires |names| == |values| == 9 && Distinct(names)
    ensures PutThree(PutThree(PutThree([], names[..3], values[..3]), names[3..6], values[3..6]), names[6..9],
                     values[6..9])
         == Present(names, values)
  {
    FirstThree(names, values);
    PutThreePresent(names, values, 3);
    PutThreePresent(names, values, 6);
    assert names[..9] == names && values[..9] == values;
  }

  lemma FirstThree(names: seq<string>, values: seq<Option<string>>)
    requires |names| == |values| == 9 && Distinct(names)
    ensures PutThree([], names[..3], values[..3]) == Present(names[..3], values[..3])
  {
    PutThreePresent(names, values, 0);
    assert names[0..3] == names[..3] && values[0..3] == values[..3];
  }

  method SetSelection(params: UrlSearchParams, s: State)
    modifies params
    ensures params.list == PutThree(old(params.list), NAMES[..3], Values(s)[..3])
  {
    SetOptional(params, "runId", s.runId);
    SetOptional(params, "alertKey", s.alertKey);
    SetIfChanged(params, "workspace", s.workspace, DEFAULT.workspace);
  }

  method SetView(params: UrlSearchParams, s: State)
    modifies params
    ensures params.list == PutThree(old(params.list), NAMES[3..6], Values(s)[3..6])
  {
    SetIfChanged(params, "tab", s.tab, DEFAULT.tab);
    SetIfChanged(params, "severity", s.severity, DEFAULT.severity);
    SetIfChanged(params, "status", s.status, DEFAULT.status);
  }

  method SetSearch(params: UrlSearchParams, s: State)
    modifies params
    ensures params.list == PutThree(old(params.list), NAMES[6..9], Values(s)[6..9])
  {
    SetIfChanged(params, "q", Trim(JsSpace, s.query), DEFAULT.query);
    SetIfChanged(params, "sort", s.sort, DEFAULT.sort);
    if s.onlyNew {
      params.Set("new", "1");
    }
  }

  // The nine `set` calls, in the order they are made.
  method SerializeConsoleState(s: State) returns (params: UrlSearchParams)
    ensures params.list == Present(NAMES, Values(s))
  {
    params := new UrlSearchParams();
    SetSelection(params, s);
    SetView(params, s);
    SetSearch(params, s);
    NamesDistinct();
    NineSet(NAMES, Values(s));
  }

  // ---------------------------------------------------------------- round trip

  function Normal(s: State): State {
    s.(runId := Cleaned(s.runId), alertKey := Cleaned(s.alertKey), query := Trim(JsSpace, s.query))
  }

  predicate WordList(values: seq<string>) {
    forall i :: 0 <= i < |values| ==> values[i] != "" && Trimmed(JsSpace, values[i])
  }

  lemma ViewWords()
    ensures WordList(WORKSPACE_MODES) && WordList(EVIDENCE_TABS)
  {
  }

  lemma AlertWords()
    ensures WordList(ALERT_SEVERITIES) && WordList(ALERT_STATUSES) && WordList(ALERT_SORTS)
  {
  }

  lemma CleanedTwice(value: Option<string>)
    ensures Cleaned(Cleaned(value)) == Cleaned(value)
  {
    if value.Some? {
      TrimIdempotent(JsSpace, value.value);
    }
  }

  lemma EnumBack(value: string, values: seq<string>, fallback: string)
    requires WordList(values) && value in values
    ensures EnumValue(IfChanged(value, fallback), values, fallback) == value
  {
    TrimTrimmed(JsSpace, value);
  }

  lemma QueryBack(query: string)
    ensures Or(Cleaned(IfChanged(Trim(JsSpace, query), "")), "") == Trim(JsSpace, query)
  {
    TrimIdempotent(JsSpace, query);
  }

  lemma ReadBack(s: State, params: seq<Param>)
    requires params == Present(NAMES, Values(s))
    ensures Get(params, "runId") == Cleaned(s.runId) && Get(params, "alertKey") == Cleaned(s.alertKey)
    ensures Get(params, "workspace") == IfChanged(s.workspace, DEFAULT.workspace)
            && Get(params, "tab") == IfChanged(s.tab, DEFAULT.tab)
    ensures Get(params, "severity") == IfChanged(s.severity, DEFAULT.severity)
    ensures Get(params, "status") == IfChanged(s.status, DEFAULT.status)
    ensures Get(params, "q") == IfChanged(Trim(JsSpace, s.query), DEFAULT.query)
    ensures Get(params, "sort") == IfChanged(s.sort, DEFAULT.sort)
    ensures Get(params, "new") == if s.onlyNew then Some("1") else None
  {
    NamesDistinct();
    var values := Values(s);
    forall i | 0 <= i < |NAMES| ensures Get(params, NAMES[i]) == values[i] {
      GetPresent(NAMES, values, i);
    }
    assert Get(params, NAMES[0]) == values[0] && Get(params, NAMES[1]) == values[1]
        && Get(params, NAMES[2]) == values[2];
    assert Get(params, NAMES[3]) == values[3] && Get(params, NAMES[4]) == values[4]
        && Get(params, NAMES[5]) == values[5];
    assert Get(params, NAMES[6]) == values[6] && Get(params, NAMES[7]) == values[7]
        && Get(params, NAMES[8]) == values[8];
  }

  lemma FromPresent(s: State, params: seq<Param>)
    requires Typed(s) && params == Present(NAMES, Values(s))
    ensures FromParams(params) == Normal(s)
  {
    ViewWords();
    AlertWords();
    ReadBack(s, params);
    CleanedTwice(s.runId);
    CleanedTwice(s.alertKey);
    EnumBack(s.workspace, WORKSPACE_MODES, DEFAULT.workspace);
    EnumBack(s.tab, EVIDENCE_TABS, DEFAULT.tab);
    EnumBack(s.severity, ALERT_SEVERITIES, DEFAULT.severity);
    EnumBack(s.status, ALERT_STATUSES, DEFAULT.status);
    EnumBack(s.sort, ALERT_SORTS, DEFAULT.sort);
    QueryBack(s.query);
  }

  /** Parsing a serialized state, with or without a leading question mark, gives its trimmed normal form. */
  lemma ParseOfSerialize(u: Utf8, s: State)
    requires Faithful(u) && Typed(s)
    ensures ParseState(u, SerializeState(u, s)) == Normal(s)
    ensures ParseState(u, ['?'] + SerializeState(u, s)) == Normal(s)
  {
    var params := Present(NAMES, Values(s));
    ParseSerialize(u, params);
    FromPresent(s, params);
    NoQuestion(Serialize(u, params));
  }

  lemma NoQuestion(text: string)
    requires '?' !in text
    ensures WithoutQuestion(text) == text && WithoutQuestion(['?'] + text) == text
  {
    if text != "" {
      assert text[0] in text;
    }
    assert (['?'] + text)[1..] == text;
  }

  // What a parsed state looks like: typed, and every text absent or trimmed and non-empty.
  predicate WellFormed(s: State) {
    Typed(s) && Tidy(s)
  }

  predicate Tidy(s: State) {
    && Trimmed(JsSpace, s.query)
    && (s.runId.Some? ==> s.runId.value != "" && Trimmed(JsSpace, s.runId.value))
    && (s.alertKey.Some? ==> s.alertKey.value != "" && Trimmed(JsSpace, s.alertKey.value))
  }

  lemma CleanedIsTrimmed(value: Option<string>)
    ensures Cleaned(value).Some? ==> Cleaned(value).value != "" && Trimmed(JsSpace, Cleaned(value).value)
  {
    if value.Some? {
      TrimIsTrimmed(JsSpace, value.value);
    }
  }

  lemma EnumIsListed(value: Option<string>, values: seq<string>, fallback: string)
    requires fallback in values
    ensures EnumValue(value, values, fallback) in values
  {
  }

  lemma FromParamsWellFormed(params: seq<Param>)
    ensures WellFormed(FromParams(params))
  {
    CleanedIsTrimmed(Get(params, "runId"));
    CleanedIsTrimmed(Get(params, "alertKey"));
    CleanedIsTrimmed(Get(params, "q"));
    DefaultsListed();
    EnumIsListed(Get(params, "workspace"), WORKSPACE_MODES, DEFAULT.workspace);
    EnumIsListed(Get(params, "tab"), EVIDENCE_TABS, DEFAULT.tab);
    EnumIsListed(Get(params, "severity"), ALERT_SEVERITIES, DEFAULT.severity);
    EnumIsListed(Get(params, "status"), ALERT_STATUSES, DEFAULT.status);
    EnumIsListed(Get(params, "sort"), ALERT_SORTS, DEFAULT.sort);
  }

  lemma DefaultsListed()
    ensures Typed(DEFAULT)
  {
    assert WORKSPACE_MODES[0] == DEFAULT.workspace && EVIDENCE_TABS[0] == DEFAULT.tab
        && ALERT_SEVERITIES[0] == DEFAULT.severity;
    assert ALERT_STATUSES[0] == DEFAULT.status && ALERT_SORTS[0] == DEFAULT.sort;
  }

  /** Whatever the query string, the parsed state is well formed. */
  lemma ParsedIsWellFormed(u: Utf8, input: string)
    ensures WellFormed(ParseState(u, input))
  {
    FromParamsWellFormed(Parse(u, WithoutQuestion(WithoutQuestion(input))));
  }

  lemma NormalOfTidy(s: State)
    requires Tidy(s)
    ensures Normal(s) == s
  {
    TrimTrimmed(JsSpace, s.query);
    if s.runId.Some? {
      TrimTrimmed(JsSpace, s.runId.value);
    }
    if s.alertKey.Some? {
      TrimTrimmed(JsSpace, s.alertKey.value);
    }
  }

  /** Serializing what was parsed is idempotent: the second round changes neither state nor text. */
  lemma SerializeAfterParseIdempotent(u: Utf8, input: string)
    requires Faithful(u)
    ensures Typed(ParseState(u, input))
    ensures var text := SerializeState(u, ParseState(u, input));
            && ParseState(u, text) == ParseState(u, input)
            && SerializeState(u, ParseState(u, text)) == text
  {
    ParsedIsWellFormed(u, input);
    ParseOfSerialize(u, ParseState(u, input));
    NormalOfTidy(ParseState(u, input));
  }

  // ---------------------------------------------------------------- what is read, name by name

  predicate Blank(value: Option<string>) {
    value == None || Trim(JsSpace, value.value) == ""
  }

  lemma CleanedIs(value: Option<string>)
    ensures Cleaned(value) == if Blank(value) then None else Some(Trim(JsSpace, value.value))
  {
  }

  /** Every parameter read: identifiers and search are trimmed or absent, the flag is set by two spellings
      only, and each choice is one of its own list or falls back on that list's default. */
  lemma ParsedTexts(params: seq<Param>)
    ensures var s := FromParams(params);
            && s.runId
               == (if Blank(Get(params, "runId")) then None else Some(Trim(JsSpace, Get(params, "runId").value)))
            && s.alertKey
               == (if Blank(Get(params, "alertKey")) then None else Some(Trim(JsSpace, Get(params, "alertKey").value)))
            && s.query == (if Blank(Get(params, "q")) then "" else Trim(JsSpace, Get(params, "q").value))
            && (s.onlyNew <==> Get(params, "new") in [Some("1"), Some("true")])
  {
    CleanedIs(Get(params, "runId"));
    CleanedIs(Get(params, "alertKey"));
    CleanedIs(Get(params, "q"));
  }

  lemma ParsedView(params: seq<Param>)
    ensures var s := FromParams(params);
            var workspaces := ["alerts", "runs", "tools", "knowledge", "memory", "feedback", "settings"];
            var tabs := ["brief", "citations", "tool-audit", "memory", "triage"];
            && Chosen(Get(params, "workspace"), workspaces, "alerts", s.workspace)
            && Chosen(Get(params, "tab"), tabs, "brief", s.tab)
  {
    EnumChosen(Get(params, "workspace"), WORKSPACE_MODES, "alerts");
    EnumChosen(Get(params, "tab"), EVIDENCE_TABS, "brief");
  }

  lemma ParsedFilters(params: seq<Param>)
    ensures var s := FromParams(params);
            var severities := ["all", "P0", "P1", "P2", "P3"];
            var statuses := ["active", "all", "open", "acknowledged", "investigating", "resolved", "silenced"];
            var sorts := ["severity", "newest", "count"];
            && Chosen(Get(params, "severity"), severities, "all", s.severity)
            && Chosen(Get(params, "status"), statuses, "active", s.status)
            && Chosen(Get(params, "sort"), sorts, "severity", s.sort)
  {
    EnumChosen(Get(params, "severity"), ALERT_SEVERITIES, "all");
    EnumChosen(Get(params, "status"), ALERT_STATUSES, "active");
    EnumChosen(Get(params, "sort"), ALERT_SORTS, "severity");
  }

  // The word given if it is on the list, and else the fallback.
  predicate Chosen(value: Option<string>, words: seq<string>, fallback: string, choice: string) {
    if value.Some? && Trim(JsSpace, value.value) in words then choice == Trim(JsSpace, value.value)
    else choice == fallback
  }

  lemma EnumChosen(value: Option<string>, words: seq<string>, fallback: string)
    requires forall i :: 0 <= i < |words| ==> words[i] != ""
    ensures Chosen(value, words, fallback, EnumValue(value, words, fallback))
  {
  }
}
