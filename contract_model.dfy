/** The records the analyser produces (`ContractFunction`, `ContractEvent`,
    `ContractState`, `SecurityIssue`, `RoleDefinition`, `AnalyzedContract`
    in app/lib/contractAnalyzer.ts), as immutable values. */
module ContractModel {
  import opened Wrappers

  datatype Param = Param(name: string, typ: string)

  datatype EventParam = EventParam(name: string, typ: string, indexed: bool)

  datatype FlowType = UserFlow | OwnerFlow | AdminFlow | SystemFlow

  datatype Severity = High | Medium | Low | Info

  /** `stateMutability` is optional because an interface entry may lack it. */
  datatype ContractFunction = ContractFunction(
    name: string,
    kind: string,
    inputs: seq<Param>,
    outputs: seq<Param>,
    stateMutability: Option<string>,
    visibility: string,
    modifiers: seq<string>,
    payable: bool,
    roles: seq<string>,
    flowType: FlowType,
    dependencies: seq<string>)

  datatype ContractEvent = ContractEvent(
    name: string,
    inputs: seq<EventParam>,
    anonymous: bool,
    relatedFunctions: seq<string>)

  datatype ContractState = ContractState(
    name: string,
    typ: string,
    visibility: string,
    constant: bool,
    value: Option<string>,
    accessedBy: seq<string>,
    modifiedBy: seq<string>)

  datatype SecurityIssue = SecurityIssue(
    severity: Severity,
    description: string,
    location: string,
    recommendation: string,
    affectedFunctions: seq<string>)

  datatype RoleDefinition = RoleDefinition(
    name: string,
    permissions: seq<string>,
    functions: seq<string>)

  datatype AnalyzedContract = AnalyzedContract(
    name: string,
    functions: seq<ContractFunction>,
    events: seq<ContractEvent>,
    stateVariables: seq<ContractState>,
    securityIssues: seq<SecurityIssue>,
    version: string,
    license: Option<string>,
    inheritance: seq<string>,
    modifiers: seq<string>,
    roles: seq<RoleDefinition>,
    hasOwnership: bool,
    hasAccessControl: bool)

  /** JavaScript truthiness of an optional string: present and non-empty. */
  predicate Truthy(s: Option<string>) {
    s.Some? && s.value != ""
  }

  /** `fs.map(f => f.name)`. */
  function Names(fs: seq<ContractFunction>): seq<string> {
    seq(|fs|, i requires 0 <= i < |fs| => fs[i].name)
  }

  /** `fs.some(f => f.roles.includes(role))`. */
  predicate SomeHasRole(fs: seq<ContractFunction>, role: string) {
    exists i :: 0 <= i < |fs| && role in fs[i].roles
  }

  /** `fs.findIndex(f => f.name === name)`: the first position holding a
      function of that name, or -1 when there is none. */
  function IndexOfName(fs: seq<ContractFunction>, name: string): int
    decreases |fs|
  {
    if fs == [] then -1
    else if fs[0].name == name then 0
    else
      var k := IndexOfName(fs[1..], name);
      if k == -1 then -1 else k + 1
  }

  /** The result of `IndexOfName`: the first position holding a function of
      that name, or -1 exactly when no function has it. */
  lemma {:induction false} IndexOfNameFacts(fs: seq<ContractFunction>, name: string)
    ensures var k := IndexOfName(fs, name);
      && -1 <= k < |fs|
      && (0 <= k ==> fs[k].name == name && forall j :: 0 <= j < k ==> fs[j].name != name)
      && (k == -1 <==> forall j :: 0 <= j < |fs| ==> fs[j].name != name)
    decreases |fs|
  {
    if fs != [] && fs[0].name != name {
      IndexOfNameFacts(fs[1..], name);
      var k := IndexOfName(fs[1..], name);
      if k == -1 {
        forall j | 0 <= j < |fs| ensures fs[j].name != name {
          if j > 0 { assert fs[j] == fs[1..][j - 1]; }
        }
      } else {
        forall j | 0 <= j < k + 1 ensures fs[j].name != name {
          if j > 0 { assert fs[j] == fs[1..][j - 1]; }
        }
      }
    }
  }

}
