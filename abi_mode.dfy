/** Interface mode of the analyser (`analyzeABI` in
    app/lib/contractAnalyzer.ts). `JSON.parse` and `JSON.stringify` are not
    part of the model: the input is the parsed array as a list of entries
    with optional fields, and each entry carries the text
    `JSON.stringify(item)`, the list the text `JSON.stringify(abi)`. */
module AbiMode {
  import opened Wrappers
  import opened Text
  import opened Seqs
  import opened ContractModel
  import opened Roles

  /** One parameter of an interface entry. */
  datatype AbiParam = AbiParam(name: string, typ: string, indexed: bool)

  /** An entry of the array: `null`, or an object with the fields the
      analyser reads (`None` where the field is absent). */
  datatype AbiItem =
    | NullItem
    | Entry(
        text: string,
        typ: Option<string>,
        name: Option<string>,
        inputs: Option<seq<AbiParam>>,
        outputs: Option<seq<AbiParam>>,
        stateMutability: Option<string>,
        visibility: Option<string>,
        anonymous: Option<bool>)

  datatype AbiDocument = AbiDocument(items: seq<AbiItem>, text: string)

  predicate IsFunctionItem(it: AbiItem) {
    it.Entry? && it.typ == Some("function")
  }

  predicate IsEventItem(it: AbiItem) {
    it.Entry? && it.typ == Some("event")
  }

  /** `item.type` on a `null` entry throws, and so does `determineRole` on a
      function entry without a name (it lower-cases the name). */
  predicate Throws(items: seq<AbiItem>) {
    NullItem in items || exists i :: 0 <= i < |items| && IsFunctionItem(items[i]) && items[i].name.None?
  }

  /** `abi.filter(item => item.type === 'function').map(item => item.name)`,
      for entries that all have a name. */
  function FunctionNames(items: seq<AbiItem>): seq<string>
    decreases |items|
  {
    if items == [] then []
    else
      var it := items[|items| - 1];
      FunctionNames(items[..|items| - 1]) + (if IsFunctionItem(it) then [it.name.GetOr("")] else [])
  }

  function ParamsOf(ps: Option<seq<AbiParam>>): seq<Param> {
    if ps.Some? then seq(|ps.value|, i requires 0 <= i < |ps.value| => Param(ps.value[i].name, ps.value[i].typ))
    else []
  }

  function EventParamsOf(ps: Option<seq<AbiParam>>): seq<EventParam> {
    if ps.Some? then
      seq(|ps.value|, i requires 0 <= i < |ps.value| =>
        EventParam(ps.value[i].name, ps.value[i].typ, ps.value[i].indexed))
    else []
  }

  /** The function entry of an interface entry: roles from the entry's own
      text, calls from the text of the whole array. */
  function AbiFunctionOf(docText: string, allNames: seq<string>, it: AbiItem): ContractFunction
    requires it.Entry?
  {
    var name := it.name.GetOr("");
    var roles := RolesFor(name, it.text);
    ContractFunction(
      name,
      "function",
      ParamsOf(it.inputs),
      ParamsOf(it.outputs),
      it.stateMutability,
      if Truthy(it.visibility) then it.visibility.value else "public",
      [],
      it.stateMutability == Some("payable"),
      roles,
      FlowTypeFor(roles, it.stateMutability),
      Dependencies(name, docText, allNames))
  }

  /** The names of the functions of `fs` that occur in `text`, in order. */
  function NamesIn(fs: seq<ContractFunction>, text: string): seq<string>
    decreases |fs|
  {
    if fs == [] then []
    else
      var f := fs[|fs| - 1];
      NamesIn(fs[..|fs| - 1], text) + (if Contains(text, f.name) then [f.name] else [])
  }

  /** An event entry; its emitters are the functions built so far whose names
      occur in the entry's text. */
  function AbiEventOf(it: AbiItem, fs: seq<ContractFunction>): ContractEvent
    requires it.Entry?
  {
    ContractEvent(it.name.GetOr(""), EventParamsOf(it.inputs), it.anonymous == Some(true), NamesIn(fs, it.text))
  }

  /** The function entries of the items, in order. */
  function AbiFunctions(docText: string, allNames: seq<string>, items: seq<AbiItem>): seq<ContractFunction>
    decreases |items|
  {
    if items == [] then []
    else
      var it := items[|items| - 1];
      AbiFunctions(docText, allNames, items[..|items| - 1])
        + (if IsFunctionItem(it) then [AbiFunctionOf(docText, allNames, it)] else [])
  }

  /** The event entries of the items, each seeing the functions before it. */
  function AbiEvents(docText: string, allNames: seq<string>, items: seq<AbiItem>): seq<ContractEvent>
    decreases |items|
  {
    if items == [] then []
    else
      var init := items[..|items| - 1];
      var it := items[|items| - 1];
      AbiEvents(docText, allNames, init)
        + (if IsEventItem(it) then [AbiEventOf(it, AbiFunctions(docText, allNames, init))] else [])
  }

  /** The model `analyzeABI` returns, or `None` when it throws. */
  function AbiModel(doc: AbiDocument): Option<AnalyzedContract> {
    if Throws(doc.items) then None
    else
      var allNames := FunctionNames(doc.items);
      var fs := AbiFunctions(doc.text, allNames, doc.items);
      Some(AnalyzedContract(
        "Contract", fs, AbiEvents(doc.text, allNames, doc.items), [], [], "Unknown", None, [], [],
        RoleTable(AllRolePairs(fs)), SomeHasRole(fs, "owner"), SomeHasRole(fs, "admin")))
  }

  // ---------------------------------------------------------------------
  // The loops

  /** The `filter`/`map` over the array, which throws at a `null` entry. */
  method CollectFunctionNames(items: seq<AbiItem>) returns (names: Option<seq<string>>)
    ensures names == if NullItem in items then None else Some(FunctionNames(items))
  {
    var acc := [];
    var i := 0;
    while i < |items|
      invariant 0 <= i <= |items|
      invariant NullItem !in items[..i]
      invariant acc == FunctionNames(items[..i])
    {
      var it := items[i];
      if it == NullItem {
        assert NullItem in items;
        return None;
      }
      if it.typ == Some("function") {
        acc := acc + [it.name.GetOr("")];
      }
      assert items[..i + 1][..i] == items[..i];
      i := i + 1;
    }
    assert items[..i] == items;
    names := Some(acc);
  }

  /** One pass of the `forEach` over an entry that is not `null`: a function
      entry is added with its roles, an event entry is added, anything else
      is skipped; `None` when a function entry has no name. */
  method AbiStep(docText: string, allNames: seq<string>, items: seq<AbiItem>, i: nat,
                 functions: seq<ContractFunction>, events: seq<ContractEvent>, roles: seq<RoleDefinition>)
    returns (r: Option<(seq<ContractFunction>, seq<ContractEvent>, seq<RoleDefinition>)>)
    requires i < |items| && items[i].Entry?
    requires functions == AbiFunctions(docText, allNames, items[..i])
    requires events == AbiEvents(docText, allNames, items[..i])
    requires roles == RoleTable(AllRolePairs(functions))
    ensures r.None? <==> IsFunctionItem(items[i]) && items[i].name.None?
    ensures r.Some? ==>
      && r.value.0 == AbiFunctions(docText, allNames, items[..i + 1])
      && r.value.1 == AbiEvents(docText, allNames, items[..i + 1])
      && r.value.2 == RoleTable(AllRolePairs(r.value.0))
  {
    var it := items[i];
    assert items[..i + 1][..i] == items[..i];
    assert items[..i + 1][i] == it;
    if it.typ == Some("function") {
      if it.name.None? {
        return None;
      }
      var name := it.name.value;
      var functionRoles := DetermineRole(name, it.text);
      var dependencies := AnalyzeFunctionDependencies(name, docText, allNames);
      var f := ContractFunction(
        name, "function", ParamsOf(it.inputs), ParamsOf(it.outputs), it.stateMutability,
        if Truthy(it.visibility) then it.visibility.value else "public",
        [], it.stateMutability == Some("payable"), functionRoles,
        FlowTypeFor(functionRoles, it.stateMutability), dependencies);
      assert f == AbiFunctionOf(docText, allNames, it);
      var roles' := AddFunctionRoles(AllRolePairs(functions), roles, f.name, f.roles);
      assert AllRolePairs(functions + [f]) == AllRolePairs(functions) + RolePairs(f.name, f.roles) by {
        assert (functions + [f])[..|functions|] == functions;
      }
      r := Some((functions + [f], events, roles'));
    } else if it.typ == Some("event") {
      var relatedFunctions := EmittersIn(functions, it.text);
      var e := ContractEvent(it.name.GetOr(""), EventParamsOf(it.inputs), it.anonymous == Some(true), relatedFunctions);
      r := Some((functions, events + [e], roles));
    } else {
      r := Some((functions, events, roles));
    }
  }

  /** `functions.filter(f => text.includes(f.name)).map(f => f.name)`. */
  method EmittersIn(fs: seq<ContractFunction>, text: string) returns (names: seq<string>)
    ensures names == NamesIn(fs, text)
  {
    names := [];
    var i := 0;
    while i < |fs|
      invariant 0 <= i <= |fs|
      invariant names == NamesIn(fs[..i], text)
    {
      if Contains(text, fs[i].name) {
        names := names + [fs[i].name];
      }
      assert fs[..i + 1][..i] == fs[..i];
      i := i + 1;
    }
    assert fs[..i] == fs;
  }

  /** `analyzeABI`: `None` stands for the exception it throws. */
  method AnalyzeABI(doc: AbiDocument) returns (r: Option<AnalyzedContract>)
    ensures r == AbiModel(doc)
  {
    var items := doc.items;
    var names := CollectFunctionNames(items);
    if names.None? {
      return None;
    }
    var allNames := names.value;
    var functions, events, roles := [], [], [];
    var i := 0;
    while i < |items|
      invariant 0 <= i <= |items|
      invariant NullItem !in items
      invariant forall j :: 0 <= j < i ==> !(IsFunctionItem(items[j]) && items[j].name.None?)
      invariant functions == AbiFunctions(doc.text, allNames, items[..i])
      invariant events == AbiEvents(doc.text, allNames, items[..i])
      invariant roles == RoleTable(AllRolePairs(functions))
    {
      assert items[i] in items;
      var step := AbiStep(doc.text, allNames, items, i, functions, events, roles);
      if step.None? {
        return None;
      }
      functions, events, roles := step.value.0, step.value.1, step.value.2;
      i := i + 1;
    }
    assert items[..i] == items;
    var hasOwnership := AnyHasRole(functions, "owner");
    var hasAccessControl := AnyHasRole(functions, "admin");
    r := Some(AnalyzedContract("Contract", functions, events, [], [], "Unknown", None, [], [],
      roles, hasOwnership, hasAccessControl));
  }
}
