/** Source mode of the analyser (`analyzeSoliditySource` in
    app/lib/contractAnalyzer.ts). The regular-expression scans are not part
    of the model: the input carries, per pattern, the matches in the order
    the scan finds them, with their captured groups (`None` for a group that
    did not take part) and, for the function pattern, `match.index`. */
module SourceMode {
  import opened Wrappers
  import opened Text
  import opened Seqs
  import opened ContractModel
  import opened Roles

  /** The match of `contract <name> is <parents>`. */
  datatype HeaderMatch = HeaderMatch(name: string, parents: Option<string>)

  /** One match of the full function pattern: where it starts, the name, the
      parameter text, the optional visibility, mutability and `returns` text,
      and the group of the `modifier` pattern applied to the text from the
      match on. */
  datatype FunctionMatch = FunctionMatch(
    index: nat,
    name: string,
    inputs: string,
    visibility: Option<string>,
    mutability: Option<string>,
    outputs: Option<string>,
    modifierList: Option<string>)

  /** One match of the event pattern: the whole matched text, the name and
      the parameter text. */
  datatype EventMatch = EventMatch(text: string, name: string, params: string)

  /** One match of the state-variable pattern. */
  datatype StateVarMatch = StateVarMatch(
    visibility: string,
    constant: Option<string>,
    typ: string,
    name: string,
    value: Option<string>)

  /** The text and what each pattern finds in it. `functionNames` are the
      names the plain `function <name>` scan collects, which may include
      some the full function pattern does not match. */
  datatype SourceInput = SourceInput(
    source: string,
    header: Option<HeaderMatch>,
    pragma: Option<string>,
    license: Option<string>,
    modifierNames: seq<string>,
    functionNames: seq<string>,
    functionMatches: seq<FunctionMatch>,
    eventMatches: seq<EventMatch>,
    stateVarMatches: seq<StateVarMatch>)

  // ---------------------------------------------------------------------
  // Parameter lists

  /** `param.trim().split(/\s+/)` read as `[type, name]`, with `name || ''`. */
  function ParseParam(p: string): Param {
    var w := Fields(Trim(p));
    Param(if |w| > 1 then w[1] else "", w[0])
  }

  /** An event parameter: type is the first word, name the last, and it is
      indexed when one of the words is `indexed`. */
  function ParseEventParam(p: string): EventParam {
    var w := Fields(Trim(p));
    EventParam(Last(w), w[0], "indexed" in w)
  }

  /** `segments.filter(param => param.trim())`. */
  function NonBlank(segments: seq<string>): seq<string>
    decreases |segments|
  {
    if segments == [] then []
    else
      var n := |segments| - 1;
      NonBlank(segments[..n]) + (if Trim(segments[n]) != [] then [segments[n]] else [])
  }

  /** The segments `NonBlank` keeps are not blank. */
  lemma {:induction false} NonBlankKeepsNotBlank(segments: seq<string>)
    ensures forall k :: 0 <= k < |NonBlank(segments)| ==> Trim(NonBlank(segments)[k]) != []
    decreases |segments|
  {
    if segments != [] {
      NonBlankKeepsNotBlank(segments[..|segments| - 1]);
    }
  }

  function ParseParams(segments: seq<string>): seq<Param> {
    seq(|segments|, k requires 0 <= k < |segments| => ParseParam(segments[k]))
  }

  /** The inputs of a function: one parameter per non-blank comma segment. */
  function Inputs(text: string): seq<Param> {
    ParseParams(NonBlank(Split(text, ',')))
  }

  /** The outputs of a function: one parameter per comma segment, blank ones
      included, and none without a `returns` text. */
  function Outputs(text: Option<string>): seq<Param> {
    if Truthy(text) then ParseParams(Split(text.value, ',')) else []
  }

  function EventParams(text: string): seq<EventParam> {
    var segments := NonBlank(Split(text, ','));
    seq(|segments|, k requires 0 <= k < |segments| => ParseEventParam(segments[k]))
  }

  /** `parts.map(s => s.trim())`. */
  function TrimEach(parts: seq<string>): seq<string> {
    seq(|parts|, k requires 0 <= k < |parts| => Trim(parts[k]))
  }

  /** A declaration written as words separated by single spaces parses to
      its first word as type and its second word, or `''`, as name. */
  lemma ParseParamOfWords(ws: seq<string>)
    requires |ws| >= 1
    requires forall k :: 0 <= k < |ws| ==> ws[k] != [] && NoSpace(ws[k])
    ensures ParseParam(Join(ws, " ")).typ == ws[0]
    ensures ParseParam(Join(ws, " ")).name == if |ws| > 1 then ws[1] else ""
  {
    TrimJoinWords(ws);
    FieldsOfJoin(ws);
  }

  /** An event parameter written as words separated by single spaces: type
      first, name last, indexed exactly when `indexed` is one of the words. */
  lemma ParseEventParamOfWords(ws: seq<string>)
    requires |ws| >= 1
    requires forall k :: 0 <= k < |ws| ==> ws[k] != [] && NoSpace(ws[k])
    ensures ParseEventParam(Join(ws, " ")) == EventParam(Last(ws), ws[0], "indexed" in ws)
  {
    TrimJoinWords(ws);
    FieldsOfJoin(ws);
  }

  /** Every input has a non-empty type. */
  lemma InputsHaveTypes(text: string)
    ensures forall k :: 0 <= k < |Inputs(text)| ==> Inputs(text)[k].typ != []
  {
    var segments := NonBlank(Split(text, ','));
    NonBlankKeepsNotBlank(Split(text, ','));
    forall k | 0 <= k < |segments| ensures ParseParam(segments[k]).typ != [] {
      TrimEnds(segments[k]);
      FieldsOfTrimmed(Trim(segments[k]));
    }
  }

  /** Outputs are not filtered: a `returns` text with `n` commas gives
      `n + 1` outputs, blank segments included. */
  lemma OutputsKeepBlankSegments(text: string)
    requires text != []
    ensures |Outputs(Some(text))| == CountChar(text, ',') + 1
  {
    SplitCount(text, ',');
  }

  /** `f(", ")` and names without commas: joining declarations with commas
      and parsing the inputs gives back one parameter per declaration. */
  lemma {:induction false} InputsOfDeclarations(decls: seq<seq<string>>)
    requires |decls| >= 1
    requires forall i :: 0 <= i < |decls| ==> |decls[i]| >= 1
    requires forall i, k :: 0 <= i < |decls| && 0 <= k < |decls[i]| ==>
      decls[i][k] != [] && NoSpace(decls[i][k]) && ',' !in decls[i][k]
    ensures var ps := Inputs(Join(seq(|decls|, i requires 0 <= i < |decls| => Join(decls[i], " ")), ","));
      && |ps| == |decls|
      && forall i :: 0 <= i < |decls| ==>
        ps[i].typ == decls[i][0] && ps[i].name == (if |decls[i]| > 1 then decls[i][1] else "")
  {
    var segments := seq(|decls|, i requires 0 <= i < |decls| => Join(decls[i], " "));
    forall i | 0 <= i < |decls| ensures ',' !in segments[i] && Trim(segments[i]) == segments[i] != [] {
      CommaFreeJoin(decls[i]);
      TrimJoinWords(decls[i]);
      JoinWordsEnds(decls[i]);
    }
    SplitJoin(segments, ',');
    NonBlankOfNonBlank(segments);
    forall i | 0 <= i < |decls|
      ensures ParseParam(segments[i]).typ == decls[i][0]
      ensures ParseParam(segments[i]).name == (if |decls[i]| > 1 then decls[i][1] else "")
    {
      ParseParamOfWords(decls[i]);
    }
  }

  lemma {:induction false} CommaFreeJoin(ws: seq<string>)
    requires forall k :: 0 <= k < |ws| ==> ',' !in ws[k]
    ensures ',' !in Join(ws, " ")
    decreases |ws|
  {
    if |ws| > 1 {
      CommaFreeJoin(ws[1..]);
    }
  }

  lemma {:induction false} NonBlankOfNonBlank(segments: seq<string>)
    requires forall k :: 0 <= k < |segments| ==> Trim(segments[k]) != []
    ensures NonBlank(segments) == segments
    decreases |segments|
  {
    if segments != [] {
      var n := |segments| - 1;
      NonBlankOfNonBlank(segments[..n]);
      assert segments[..n] + [segments[n]] == segments;
    }
  }

  // ---------------------------------------------------------------------
  // Functions

  /** `source.slice(i)`. */
  function Slice(s: string, i: nat): string {
    if i <= |s| then s[i..] else []
  }

  /** The function entry built from one match of the function pattern; roles
      and calls are looked for in the text from the match on. */
  function FunctionOf(source: string, allNames: seq<string>, m: FunctionMatch): ContractFunction {
    var scope := Slice(source, m.index);
    var roles := RolesFor(m.name, scope);
    ContractFunction(
      m.name,
      "function",
      Inputs(m.inputs),
      Outputs(m.outputs),
      Some(if Truthy(m.mutability) then m.mutability.value else "nonpayable"),
      m.visibility.GetOr("public"),
      if m.modifierList.Some? then TrimEach(Split(m.modifierList.value, ',')) else [],
      m.mutability == Some("payable"),
      roles,
      FlowTypeFor(roles, m.mutability),
      Dependencies(m.name, scope, allNames))
  }

  /** The function entries, one per match, in match order. */
  function FunctionsOf(source: string, allNames: seq<string>, ms: seq<FunctionMatch>): seq<ContractFunction>
    decreases |ms|
  {
    if ms == [] then []
    else FunctionsOf(source, allNames, ms[..|ms| - 1]) + [FunctionOf(source, allNames, ms[|ms| - 1])]
  }

  lemma {:induction false} FunctionsOfLength(source: string, allNames: seq<string>, ms: seq<FunctionMatch>)
    ensures |FunctionsOf(source, allNames, ms)| == |ms|
    decreases |ms|
  {
    if ms != [] {
      FunctionsOfLength(source, allNames, ms[..|ms| - 1]);
    }
  }

  /** The entry builder for one source text and its list of function names. */
  function Builder(source: string, allNames: seq<string>): FunctionMatch -> ContractFunction {
    m => FunctionOf(source, allNames, m)
  }

  lemma {:induction false} FunctionsOfIsMap(source: string, allNames: seq<string>, ms: seq<FunctionMatch>)
    ensures FunctionsOf(source, allNames, ms) == Map(Builder(source, allNames), ms)
    decreases |ms|
  {
    if ms != [] {
      FunctionsOfIsMap(source, allNames, ms[..|ms| - 1]);
    }
  }

  /** Extending the prefix of the matches by one adds that match's function. */
  lemma FunctionsOfSnoc(source: string, allNames: seq<string>, ms: seq<FunctionMatch>, i: nat)
    requires i < |ms|
    ensures FunctionsOf(source, allNames, ms[..i + 1]) ==
      FunctionsOf(source, allNames, ms[..i]) + [FunctionOf(source, allNames, ms[i])]
  {
    var p := ms[..i + 1];
    assert p[..|p| - 1] == ms[..i];
    assert p[|p| - 1] == ms[i];
  }

  /** Entry `i` is built from match `i`. */
  lemma FunctionsOfAt(source: string, allNames: seq<string>, ms: seq<FunctionMatch>, i: nat)
    requires i < |ms|
    ensures |FunctionsOf(source, allNames, ms)| == |ms|
    ensures FunctionsOf(source, allNames, ms)[i] == FunctionOf(source, allNames, ms[i])
  {
    FunctionsOfIsMap(source, allNames, ms);
    MapAt(Builder(source, allNames), ms, i);
  }

  // ---------------------------------------------------------------------
  // Findings

  function PayableIssue(name: string): SecurityIssue {
    SecurityIssue(
      Medium,
      "Payable function '" + name + "' found",
      "Function: " + name,
      PayableAdvice,
      [name])
  }

  /** One Medium finding per payable function, in function order. */
  function PayableIssues(fs: seq<ContractFunction>): seq<SecurityIssue>
    decreases |fs|
  {
    if fs == [] then []
    else
      var n := |fs| - 1;
      PayableIssues(fs[..n]) + (if fs[n].payable then [PayableIssue(fs[n].name)] else [])
  }

  /** Each payable finding comes from a payable function, and each payable
      function has one. */
  lemma {:induction false} PayableIssuesOfPayables(fs: seq<ContractFunction>)
    ensures forall issue :: issue in PayableIssues(fs) ==>
      exists i :: 0 <= i < |fs| && fs[i].payable && issue == PayableIssue(fs[i].name)
    ensures forall i :: 0 <= i < |fs| && fs[i].payable ==> PayableIssue(fs[i].name) in PayableIssues(fs)
    decreases |fs|
  {
    if fs != [] {
      var n := |fs| - 1;
      var init := fs[..n];
      var r := PayableIssues(init);
      PayableIssuesOfPayables(init);
      var last := if fs[n].payable then [PayableIssue(fs[n].name)] else [];
      assert PayableIssues(fs) == r + last;
      forall issue | issue in PayableIssues(fs)
        ensures exists i :: 0 <= i < |fs| && fs[i].payable && issue == PayableIssue(fs[i].name)
      {
        if issue in r {
          var i :| 0 <= i < |init| && init[i].payable && issue == PayableIssue(init[i].name);
          assert fs[i] == init[i];
        } else {
          assert issue in last;
          assert fs[n].payable && issue == PayableIssue(fs[n].name);
        }
      }
      forall i | 0 <= i < |fs| && fs[i].payable ensures PayableIssue(fs[i].name) in PayableIssues(fs) {
        if i < n {
          assert init[i] == fs[i];
          assert PayableIssue(fs[i].name) in r;
        } else {
          assert PayableIssue(fs[n].name) in last;
        }
      }
    } else {
      assert PayableIssues(fs) == [];
    }
  }

  /** The findings of earlier functions come before those of later ones. */
  lemma {:induction false} PayableIssuesAppend(a: seq<ContractFunction>, b: seq<ContractFunction>)
    ensures PayableIssues(a + b) == PayableIssues(a) + PayableIssues(b)
    decreases |b|
  {
    if b == [] {
      assert a + b == a;
    } else {
      var ab := a + b;
      assert ab[..|ab| - 1] == a + b[..|b| - 1];
      assert ab[|ab| - 1] == b[|b| - 1];
      PayableIssuesAppend(a, b[..|b| - 1]);
    }
  }

  /** `fs.filter(f => keep).map(f => f.name)` for a test `keep` that does not
      look at `f`. */
  function NamesWhen(fs: seq<ContractFunction>, keep: bool): seq<string>
    decreases |fs|
  {
    if fs == [] then []
    else NamesWhen(fs[..|fs| - 1], keep) + (if keep then [fs[|fs| - 1].name] else [])
  }

  /** A filter whose test ignores the function keeps all of them or none. */
  lemma {:induction false} NamesWhenAllOrNothing(fs: seq<ContractFunction>, keep: bool)
    ensures NamesWhen(fs, keep) == if keep then Names(fs) else []
    decreases |fs|
  {
    if fs != [] {
      NamesWhenAllOrNothing(fs[..|fs| - 1], keep);
      assert Names(fs[..|fs| - 1]) + [fs[|fs| - 1].name] == Names(fs);
    }
  }

  predicate UsesSelfdestruct(source: string) {
    Contains(source, "selfdestruct") || Contains(source, "suicide")
  }

  /** The texts of the findings. */
  const SelfdestructText := "Contract uses selfdestruct/suicide"
  const SelfdestructAdvice := "Avoid using selfdestruct as it can be dangerous and is deprecated."
  const TxOriginText := "Usage of tx.origin found"
  const TxOriginAdvice := "Use msg.sender instead of tx.origin for authentication."
  const PayableAdvice := "Ensure proper access controls and value validation are in place."

  /** The whole-contract findings: self-destruct, then `tx.origin`. */
  function ContractFindings(source: string, fs: seq<ContractFunction>): seq<SecurityIssue> {
    (if UsesSelfdestruct(source) then
       [SecurityIssue(High, SelfdestructText, "Contract",
          SelfdestructAdvice,
          NamesWhen(fs, UsesSelfdestruct(source)))]
     else [])
    + (if Contains(source, "tx.origin") then
         [SecurityIssue(High, TxOriginText, "Contract",
            TxOriginAdvice,
            NamesWhen(fs, Contains(source, "tx.origin")))]
       else [])
  }

  // ---------------------------------------------------------------------
  // Events and state variables

  /** An event; its emitters are the functions kept by a test of the whole
      text for `emit <name>`. */
  function EventOf(source: string, fs: seq<ContractFunction>, e: EventMatch): ContractEvent {
    ContractEvent(e.name, EventParams(e.params), Contains(e.text, "anonymous"),
      NamesWhen(fs, Contains(source, "emit " + e.name)))
  }

  function EventsOf(source: string, fs: seq<ContractFunction>, es: seq<EventMatch>): (r: seq<ContractEvent>)
    ensures |r| == |es|
    decreases |es|
  {
    if es == [] then []
    else EventsOf(source, fs, es[..|es| - 1]) + [EventOf(source, fs, es[|es| - 1])]
  }

  lemma {:induction false} EventsOfAt(source: string, fs: seq<ContractFunction>, es: seq<EventMatch>, k: nat)
    requires k < |es|
    ensures EventsOf(source, fs, es)[k] == EventOf(source, fs, es[k])
    decreases |es|
  {
    if k < |es| - 1 {
      EventsOfAt(source, fs, es[..|es| - 1], k);
    }
  }

  /** A state variable; its readers and writers are the functions kept by a
      test of the whole text for `<name>` and for `<name> =`. */
  function StateOf(source: string, fs: seq<ContractFunction>, v: StateVarMatch): ContractState {
    ContractState(v.name, v.typ, v.visibility, Truthy(v.constant),
      if v.value.Some? then Some(Trim(v.value.value)) else None,
      NamesWhen(fs, Contains(source, v.name)),
      NamesWhen(fs, Contains(source, v.name + " =")))
  }

  function StatesOf(source: string, fs: seq<ContractFunction>, vs: seq<StateVarMatch>): (r: seq<ContractState>)
    ensures |r| == |vs|
    decreases |vs|
  {
    if vs == [] then []
    else StatesOf(source, fs, vs[..|vs| - 1]) + [StateOf(source, fs, vs[|vs| - 1])]
  }

  lemma {:induction false} StatesOfAt(source: string, fs: seq<ContractFunction>, vs: seq<StateVarMatch>, k: nat)
    requires k < |vs|
    ensures StatesOf(source, fs, vs)[k] == StateOf(source, fs, vs[k])
    decreases |vs|
  {
    if k < |vs| - 1 {
      StatesOfAt(source, fs, vs[..|vs| - 1], k);
    }
  }

  // ---------------------------------------------------------------------
  // The contract header

  function ContractName(header: Option<HeaderMatch>): string {
    if header.Some? then header.value.name else "Contract"
  }

  function Inheritance(header: Option<HeaderMatch>): seq<string> {
    if header.Some? && Truthy(header.value.parents) then TrimEach(Split(header.value.parents.value, ','))
    else []
  }

  function Version(pragma: Option<string>): string {
    if pragma.Some? then Trim(pragma.value) else "Unknown"
  }

  function License(license: Option<string>): Option<string> {
    if license.Some? then Some(Trim(license.value)) else None
  }

  /** The model `analyzeSoliditySource` returns. */
  function SourceModel(input: SourceInput): AnalyzedContract {
    var fs := FunctionsOf(input.source, input.functionNames, input.functionMatches);
    AnalyzedContract(
      ContractName(input.header),
      fs,
      EventsOf(input.source, fs, input.eventMatches),
      StatesOf(input.source, fs, input.stateVarMatches),
      PayableIssues(fs) + ContractFindings(input.source, fs),
      Version(input.pragma),
      License(input.license),
      Inheritance(input.header),
      input.modifierNames,
      RoleTable(AllRolePairs(fs)),
      SomeHasRole(fs, "owner"),
      SomeHasRole(fs, "admin"))
  }

  // ---------------------------------------------------------------------
  // The scans

  /** The entry for one function match. */
  method BuildFunction(source: string, allNames: seq<string>, m: FunctionMatch) returns (f: ContractFunction)
    ensures f == FunctionOf(source, allNames, m)
  {
    var functionSource := Slice(source, m.index);
    var functionRoles := DetermineRole(m.name, functionSource);
    var dependencies := AnalyzeFunctionDependencies(m.name, functionSource, allNames);
    var isPayable := m.mutability == Some("payable");
    f := ContractFunction(
      m.name, "function", Inputs(m.inputs), Outputs(m.outputs),
      Some(if Truthy(m.mutability) then m.mutability.value else "nonpayable"),
      m.visibility.GetOr("public"),
      if m.modifierList.Some? then TrimEach(Split(m.modifierList.value, ',')) else [],
      isPayable, functionRoles, FlowTypeFor(functionRoles, m.mutability), dependencies);
  }

  /** Records one more function: its payable finding, if any, and its
      roles in the role table. */
  method RecordFunction(ghost functions: seq<ContractFunction>, issues: seq<SecurityIssue>,
                        roles: seq<RoleDefinition>, f: ContractFunction)
    returns (issues': seq<SecurityIssue>, roles': seq<RoleDefinition>)
    requires issues == PayableIssues(functions)
    requires roles == RoleTable(AllRolePairs(functions))
    ensures issues' == PayableIssues(functions + [f])
    ensures roles' == RoleTable(AllRolePairs(functions + [f]))
  {
    var functions' := functions + [f];
    assert functions'[..|functions'| - 1] == functions;
    issues' := issues;
    if f.payable {
      issues' := issues' + [PayableIssue(f.name)];
    }
    roles' := AddFunctionRoles(AllRolePairs(functions), roles, f.name, f.roles);
  }

  /** One pass of the loop over the function matches: builds the entry for
      match `i` and records its finding and roles. */
  method ScanFunction(source: string, allNames: seq<string>, ms: seq<FunctionMatch>, i: nat,
                      functions: seq<ContractFunction>, issues: seq<SecurityIssue>, roles: seq<RoleDefinition>)
    returns (functions': seq<ContractFunction>, issues': seq<SecurityIssue>, roles': seq<RoleDefinition>)
    requires i < |ms|
    requires functions == FunctionsOf(source, allNames, ms[..i])
    requires issues == PayableIssues(functions)
    requires roles == RoleTable(AllRolePairs(functions))
    ensures functions' == FunctionsOf(source, allNames, ms[..i + 1])
    ensures issues' == PayableIssues(functions')
    ensures roles' == RoleTable(AllRolePairs(functions'))
  {
    var f := BuildFunction(source, allNames, ms[i]);
    issues', roles' := RecordFunction(functions, issues, roles, f);
    FunctionsOfSnoc(source, allNames, ms, i);
    functions' := functions + [f];
  }

  /** The loop over the function matches: builds each entry, records a
      finding for each payable function and adds the roles to the table. */
  method ScanFunctions(source: string, allNames: seq<string>, ms: seq<FunctionMatch>)
    returns (functions: seq<ContractFunction>, issues: seq<SecurityIssue>, roles: seq<RoleDefinition>)
    ensures functions == FunctionsOf(source, allNames, ms)
    ensures issues == PayableIssues(functions)
    ensures roles == RoleTable(AllRolePairs(functions))
  {
    functions, issues, roles := [], [], [];
    var i := 0;
    while i < |ms|
      invariant 0 <= i <= |ms|
      invariant functions == FunctionsOf(source, allNames, ms[..i])
      invariant issues == PayableIssues(functions)
      invariant roles == RoleTable(AllRolePairs(functions))
    {
      functions, issues, roles := ScanFunction(source, allNames, ms, i, functions, issues, roles);
      i := i + 1;
    }
    assert ms[..i] == ms;
  }

  method ScanEvents(source: string, functions: seq<ContractFunction>, es: seq<EventMatch>)
    returns (events: seq<ContractEvent>)
    ensures events == EventsOf(source, functions, es)
  {
    events := [];
    var i := 0;
    while i < |es|
      invariant 0 <= i <= |es|
      invariant events == EventsOf(source, functions, es[..i])
    {
      var e := es[i];
      var anonymous := Contains(e.text, "anonymous");
      var relatedFunctions := NamesWhen(functions, Contains(source, "emit " + e.name));
      events := events + [ContractEvent(e.name, EventParams(e.params), anonymous, relatedFunctions)];
      assert es[..i + 1][..i] == es[..i];
      i := i + 1;
    }
    assert es[..i] == es;
  }

  method ScanStateVariables(source: string, functions: seq<ContractFunction>, vs: seq<StateVarMatch>)
    returns (stateVariables: seq<ContractState>)
    ensures stateVariables == StatesOf(source, functions, vs)
  {
    stateVariables := [];
    var i := 0;
    while i < |vs|
      invariant 0 <= i <= |vs|
      invariant stateVariables == StatesOf(source, functions, vs[..i])
    {
      var v := vs[i];
      var accessedBy := NamesWhen(functions, Contains(source, v.name));
      var modifiedBy := NamesWhen(functions, Contains(source, v.name + " ="));
      var value := if v.value.Some? then Some(Trim(v.value.value)) else None;
      stateVariables := stateVariables + [ContractState(v.name, v.typ, v.visibility, Truthy(v.constant), value, accessedBy, modifiedBy)];
      assert vs[..i + 1][..i] == vs[..i];
      i := i + 1;
    }
    assert vs[..i] == vs;
  }

  /** The two whole-contract checks that follow the function loop. */
  method CheckContract(source: string, functions: seq<ContractFunction>) returns (issues: seq<SecurityIssue>)
    ensures issues == ContractFindings(source, functions)
  {
    issues := [];
    if Contains(source, "selfdestruct") || Contains(source, "suicide") {
      var affectedFunctions := NamesWhen(functions, UsesSelfdestruct(source));
      issues := issues + [SecurityIssue(High, SelfdestructText, "Contract",
        SelfdestructAdvice, affectedFunctions)];
    }
    if Contains(source, "tx.origin") {
      var affectedFunctions := NamesWhen(functions, Contains(source, "tx.origin"));
      issues := issues + [SecurityIssue(High, TxOriginText, "Contract",
        TxOriginAdvice, affectedFunctions)];
    }
  }

  /** `analyzeSoliditySource`. */
  method AnalyzeSoliditySource(input: SourceInput) returns (c: AnalyzedContract)
    ensures c == SourceModel(input)
  {
    var source := input.source;
    var functions, securityIssues, roles := ScanFunctions(source, input.functionNames, input.functionMatches);
    var events := ScanEvents(source, functions, input.eventMatches);
    var stateVariables := ScanStateVariables(source, functions, input.stateVarMatches);
    var findings := CheckContract(source, functions);
    securityIssues := securityIssues + findings;
    var hasOwnership := AnyHasRole(functions, "owner");
    var hasAccessControl := AnyHasRole(functions, "admin");
    c := AnalyzedContract(
      ContractName(input.header), functions, events, stateVariables, securityIssues,
      Version(input.pragma), License(input.license), Inheritance(input.header),
      input.modifierNames, roles, hasOwnership, hasAccessControl);
  }

  // ---------------------------------------------------------------------
  // Properties of the source-mode model

  lemma FunctionOfFields(source: string, allNames: seq<string>, m: FunctionMatch)
    ensures var f := FunctionOf(source, allNames, m);
      && f.name == m.name
      && NoDup(f.roles)
      && (m.visibility == None ==> f.visibility == "public")
      && (m.mutability == None ==> f.stateMutability == Some("nonpayable"))
      && (f.payable <==> m.mutability == Some("payable"))
      && (forall x :: x in f.dependencies <==>
            x in allNames && x != m.name && Contains(Slice(source, m.index), x + "("))
  {
    RolesForFacts(m.name, Slice(source, m.index));
    DependenciesFacts(m.name, Slice(source, m.index), allNames);
  }
}
